/** The in-flight registry, parameter statuses and the availability counter: the invariant every
    operation keeps, and what each operation does to the parameters a module uses. */
module CoordinatorPool {
  import opened Prelude
  import opened CoordinatorState

  /** A registered parameter belongs to the handle it is registered under; while that handle is
      incomplete all its parameters are in flight and registered under it. */
  ghost predicate Registered(s: Pool)
  {
    && (forall p :: p in s.registry ==>
          s.registry[p] < |s.handles| && p in s.handles[s.registry[p]].params)
    && (forall p, q | p in s.registry && s.registry[p] < |s.handles| &&
                      !s.handles[s.registry[p]].complete && q in s.handles[s.registry[p]].params ::
          q in s.registry && s.registry[q] == s.registry[p] && s.StatusOf(q) == InFlight)
    && (forall p :: p in s.registry && s.registry[p] < |s.handles| && s.handles[s.registry[p]].complete ==>
          s.StatusOf(p) == Available)
  }

  /** In flight means registered. */
  ghost predicate InFlightIsRegistered(s: Pool)
  {
    forall p :: s.StatusOf(p) == InFlight ==> p in s.registry
  }

  /** A parameter some module is using is available and is no longer registered. */
  ghost predicate UsedIsReady(s: Pool)
  {
    forall p :: s.ActiveOf(p) != {} ==> s.StatusOf(p) == Available && p !in s.registry
  }

  /** Every gather lists its parameters in ascending id order, the order all ranks agree on. */
  ghost predicate WireOrder(s: Pool)
  {
    forall h :: 0 <= h < |s.handles| ==> Ascending(s.handles[h].params)
  }

  ghost predicate PoolInv(s: Pool)
  {
    Registered(s) && InFlightIsRegistered(s) && UsedIsReady(s) && WireOrder(s)
  }

  /** A partitioned parameter is not registered, so gathering it never registers it twice. */
  lemma PartitionedIsUnregistered(s: Pool, p: int)
    requires PoolInv(s)
    requires s.StatusOf(p) == NotAvailable
    ensures p !in s.registry && s.ActiveOf(p) == {}
  {
  }

  ghost function LiveSize(cfg: Config, s: Pool): nat
  {
    SetSum(s.LiveSet(), cfg.numel)
  }

  // ---------------------------------------------------------------- gather

  lemma AllGatherStatus(cfg: Config, s: Pool, ps: set<int>, p: int)
    ensures var r := AllGather(cfg, s, ps);
            && r.StatusOf(p) == (if p in s.Missing(ps) then InFlight else s.StatusOf(p))
            && r.ActiveOf(p) == s.ActiveOf(p)
            && (p in r.registry <==> p in s.registry || p in s.Missing(ps))
  {
  }

  lemma AllGatherHandle(cfg: Config, s: Pool, ps: set<int>, p: int)
    requires PoolInv(s)
    requires p in AllGather(cfg, s, ps).registry
    ensures var r := AllGather(cfg, s, ps);
            && |s.handles| <= |r.handles| <= |s.handles| + 1
            && (forall i :: 0 <= i < |s.handles| ==> r.handles[i] == s.handles[i])
            && (p !in s.Missing(ps) ==> p in s.registry && r.registry[p] == s.registry[p])
            && (p in s.Missing(ps) ==> r.registry[p] == |s.handles| && |r.handles| == |s.handles| + 1
                                       && r.handles[|s.handles|] == Handle(Sorted(s.Missing(ps)), false))
  {
  }

  lemma AllGatherTogether(cfg: Config, s: Pool, ps: set<int>, p: int, q: int)
    requires PoolInv(s)
    requires var r := AllGather(cfg, s, ps);
             p in r.registry && r.registry[p] < |r.handles| && !r.handles[r.registry[p]].complete
             && q in r.handles[r.registry[p]].params
    ensures var r := AllGather(cfg, s, ps);
            q in r.registry && r.registry[q] == r.registry[p] && r.StatusOf(q) == InFlight
  {
    AllGatherHandle(cfg, s, ps, p);
    AllGatherStatus(cfg, s, ps, q);
    SortedMember(s.Missing(ps), q);
    if p !in s.Missing(ps) {
      assert q in s.registry && s.StatusOf(q) == InFlight;
      AllGatherHandle(cfg, s, ps, q);
    } else {
      AllGatherHandle(cfg, s, ps, q);
    }
  }

  ghost predicate HandleOk(s: Pool, p: int)
  {
    p in s.registry ==>
      && s.registry[p] < |s.handles| && p in s.handles[s.registry[p]].params
      && (s.handles[s.registry[p]].complete ==> s.StatusOf(p) == Available)
  }

  ghost predicate TogetherOk(s: Pool, p: int, q: int)
  {
    p in s.registry && s.registry[p] < |s.handles| && !s.handles[s.registry[p]].complete
    && q in s.handles[s.registry[p]].params ==>
      q in s.registry && s.registry[q] == s.registry[p] && s.StatusOf(q) == InFlight
  }

  lemma RegisteredIntro(s: Pool)
    requires forall p :: HandleOk(s, p)
    requires forall p, q :: TogetherOk(s, p, q)
    ensures Registered(s)
  {
    forall p | p in s.registry
      ensures s.registry[p] < |s.handles| && p in s.handles[s.registry[p]].params
      ensures s.handles[s.registry[p]].complete ==> s.StatusOf(p) == Available
    {
      assert HandleOk(s, p);
    }
    forall p, q | p in s.registry && s.registry[p] < |s.handles| &&
                  !s.handles[s.registry[p]].complete && q in s.handles[s.registry[p]].params
      ensures q in s.registry && s.registry[q] == s.registry[p] && s.StatusOf(q) == InFlight
    {
      assert TogetherOk(s, p, q);
    }
  }

  lemma AllGatherHandleOk(cfg: Config, s: Pool, ps: set<int>, p: int)
    requires PoolInv(s)
    ensures HandleOk(AllGather(cfg, s, ps), p)
  {
    if p in AllGather(cfg, s, ps).registry {
      AllGatherHandle(cfg, s, ps, p);
      AllGatherStatus(cfg, s, ps, p);
      SortedMember(s.Missing(ps), p);
    }
  }

  lemma AllGatherRegistered(cfg: Config, s: Pool, ps: set<int>)
    requires PoolInv(s)
    ensures Registered(AllGather(cfg, s, ps))
  {
    var r := AllGather(cfg, s, ps);
    forall p ensures HandleOk(r, p) {
      AllGatherHandleOk(cfg, s, ps, p);
    }
    forall p, q ensures TogetherOk(r, p, q) {
      if p in r.registry && r.registry[p] < |r.handles| && !r.handles[r.registry[p]].complete
         && q in r.handles[r.registry[p]].params {
        AllGatherTogether(cfg, s, ps, p, q);
      }
    }
    RegisteredIntro(r);
  }

  lemma AllGatherWire(cfg: Config, s: Pool, ps: set<int>)
    requires WireOrder(s)
    ensures WireOrder(AllGather(cfg, s, ps))
  {
    SortedAscends(s.Missing(ps));
  }

  /** Gathering keeps the invariant; afterwards nothing in ps is partitioned. */
  lemma AllGatherKeeps(cfg: Config, s: Pool, ps: set<int>)
    requires PoolInv(s)
    ensures PoolInv(AllGather(cfg, s, ps))
    ensures forall p :: p in ps ==> AllGather(cfg, s, ps).Live(p)
    ensures forall p :: s.Live(p) ==> AllGather(cfg, s, ps).Live(p)
  {
    AllGatherRegistered(cfg, s, ps);
    AllGatherWire(cfg, s, ps);
    var r := AllGather(cfg, s, ps);
    forall p ensures r.StatusOf(p) == InFlight ==> p in r.registry
      ensures r.ActiveOf(p) != {} ==> r.StatusOf(p) == Available && p !in r.registry
    {
      AllGatherStatus(cfg, s, ps, p);
    }
    forall p ensures p in ps ==> r.Live(p) ensures s.Live(p) ==> r.Live(p)
    {
      AllGatherStatus(cfg, s, ps, p);
    }
  }

  lemma AllGatherSize(cfg: Config, s: Pool, ps: set<int>)
    ensures LiveSize(cfg, AllGather(cfg, s, ps)) == LiveSize(cfg, s) + SetSum(s.Missing(ps), cfg.numel)
    ensures AllGather(cfg, s, ps).nAvailable == s.nAvailable + SetSum(s.Missing(ps), cfg.numel)
  {
    var r := AllGather(cfg, s, ps);
    assert r.LiveSet() == s.LiveSet() + s.Missing(ps);
    SetSumUnion(s.LiveSet(), s.Missing(ps), cfg.numel);
  }

  // ------------------------------------------------------------------ wait

  lemma FetchWaitStatus(s: Pool, ps: set<int>, m: int, p: int)
    ensures var r := FetchWait(s, ps, m);
            && r.StatusOf(p) == (if p in Arriving(s, Waited(s, ps)) then Available else s.StatusOf(p))
            && r.ActiveOf(p) == (if p in ps then s.ActiveOf(p) + {m} else s.ActiveOf(p))
            && (p in r.registry <==> p in s.registry && p !in ps)
            && (p in r.registry ==> r.registry[p] == s.registry[p])
  {
  }

  /** Waiting for every live parameter of ps makes all of ps available and unregistered. */
  lemma FetchWaitReady(s: Pool, ps: set<int>, m: int)
    requires PoolInv(s)
    requires forall p :: p in ps ==> s.Live(p)
    ensures forall p :: p in ps ==> FetchWait(s, ps, m).StatusOf(p) == Available && p !in FetchWait(s, ps, m).registry
  {
    forall p | p in ps ensures FetchWait(s, ps, m).StatusOf(p) == Available
    {
      FetchWaitStatus(s, ps, m, p);
      if s.StatusOf(p) == InFlight {
        assert s.registry[p] in Waited(s, ps);
      }
    }
  }

  lemma FetchWaitRegistered(s: Pool, ps: set<int>, m: int)
    requires PoolInv(s)
    requires forall p :: p in ps ==> s.Live(p)
    ensures Registered(FetchWait(s, ps, m))
  {
    var r := FetchWait(s, ps, m);
    var hs := Waited(s, ps);
    forall p | p in r.registry
      ensures r.registry[p] < |r.handles| && p in r.handles[r.registry[p]].params
      ensures r.handles[r.registry[p]].complete ==> r.StatusOf(p) == Available
    {
      FetchWaitStatus(s, ps, m, p);
      if s.registry[p] in hs && !s.handles[s.registry[p]].complete {
        assert s.StatusOf(p) == InFlight;
        assert p in Arriving(s, hs);
      }
    }
    forall p, q | p in r.registry && !r.handles[r.registry[p]].complete && q in r.handles[r.registry[p]].params
      ensures q in r.registry && r.registry[q] == r.registry[p] && r.StatusOf(q) == InFlight
    {
      FetchWaitStatus(s, ps, m, p);
      FetchWaitStatus(s, ps, m, q);
      assert s.registry[p] !in hs;
      assert q in s.registry && s.registry[q] == s.registry[p];
      assert q !in Arriving(s, hs);
    }
  }

  lemma FetchWaitKeeps(s: Pool, ps: set<int>, m: int)
    requires PoolInv(s)
    requires forall p :: p in ps ==> s.Live(p)
    ensures PoolInv(FetchWait(s, ps, m))
    ensures forall p :: s.Live(p) <==> FetchWait(s, ps, m).Live(p)
  {
    var r := FetchWait(s, ps, m);
    FetchWaitRegistered(s, ps, m);
    FetchWaitReady(s, ps, m);
    forall p
      ensures r.StatusOf(p) == InFlight ==> p in r.registry
      ensures r.ActiveOf(p) != {} ==> r.StatusOf(p) == Available && p !in r.registry
      ensures s.Live(p) <==> r.Live(p)
    {
      FetchWaitStatus(s, ps, m, p);
    }
  }

  lemma FetchWaitSize(cfg: Config, s: Pool, ps: set<int>, m: int)
    ensures LiveSize(cfg, FetchWait(s, ps, m)) == LiveSize(cfg, s)
    ensures FetchWait(s, ps, m).nAvailable == s.nAvailable
  {
    assert FetchWait(s, ps, m).LiveSet() == s.LiveSet();
  }

  // --------------------------------------------------------------- release

  lemma LeaveStatus(cfg: Config, s: Pool, ps: set<int>, m: int, toRelease: set<int>, p: int)
    ensures var r := Leave(cfg, s, ps, m, toRelease);
            && r.StatusOf(p) == (if p in Freed(cfg, s, ps, m, toRelease) then NotAvailable else s.StatusOf(p))
            && r.ActiveOf(p) == (if p in ps then s.ActiveOf(p) - {m} else s.ActiveOf(p))
  {
  }

  /** Leaving a module that uses all of ps frees only parameters nobody else uses and nobody waits for. */
  lemma LeaveKeeps(cfg: Config, s: Pool, ps: set<int>, m: int, toRelease: set<int>)
    requires PoolInv(s)
    requires forall p :: p in ps ==> m in s.ActiveOf(p)
    ensures PoolInv(Leave(cfg, s, ps, m, toRelease))
  {
    var r := Leave(cfg, s, ps, m, toRelease);
    var freed := Freed(cfg, s, ps, m, toRelease);
    forall p ensures p in freed ==> p !in s.registry
    {
      assert p in freed ==> s.ActiveOf(p) != {};
    }
    forall p
      ensures r.StatusOf(p) == InFlight ==> p in r.registry
      ensures r.ActiveOf(p) != {} ==> r.StatusOf(p) == Available && p !in r.registry
      ensures p in r.registry ==> r.StatusOf(p) == s.StatusOf(p)
    {
      LeaveStatus(cfg, s, ps, m, toRelease, p);
    }
    forall p, q | p in r.registry && !r.handles[r.registry[p]].complete && q in r.handles[r.registry[p]].params
      ensures q in r.registry && r.registry[q] == r.registry[p] && r.StatusOf(q) == InFlight
    {
    }
  }

  lemma LeaveLive(cfg: Config, s: Pool, ps: set<int>, m: int, toRelease: set<int>)
    ensures Freed(cfg, s, ps, m, toRelease) <= s.LiveSet()
    ensures Leave(cfg, s, ps, m, toRelease).LiveSet() == s.LiveSet() - Freed(cfg, s, ps, m, toRelease)
  {
    var r := Leave(cfg, s, ps, m, toRelease);
    forall p ensures p in r.LiveSet() <==> p in s.LiveSet() && p !in Freed(cfg, s, ps, m, toRelease) {
      LeaveStatus(cfg, s, ps, m, toRelease, p);
    }
  }

  lemma LeaveSize(cfg: Config, s: Pool, ps: set<int>, m: int, toRelease: set<int>)
    ensures LiveSize(cfg, Leave(cfg, s, ps, m, toRelease)) - Leave(cfg, s, ps, m, toRelease).nAvailable
         == LiveSize(cfg, s) - s.nAvailable
  {
    LeaveLive(cfg, s, ps, m, toRelease);
    SetSumSubset(Freed(cfg, s, ps, m, toRelease), s.LiveSet(), cfg.numel);
  }

  // ----------------------------------------------------------- release all

  lemma ReleaseAllStatus(cfg: Config, s: Pool, ps: set<int>, p: int)
    ensures var r := ReleaseAll(cfg, s, ps);
            && r.StatusOf(p) == (if p in ps && s.StatusOf(p) == Available then NotAvailable else s.StatusOf(p))
            && r.ActiveOf(p) == (if p in ps then {} else s.ActiveOf(p))
            && r.registry == s.registry && r.handles == s.handles
  {
  }

  /** With an empty registry, releasing everything partitions every listed parameter. */
  lemma ReleaseAllKeeps(cfg: Config, s: Pool, ps: set<int>)
    requires PoolInv(s)
    requires s.registry == map[]
    ensures PoolInv(ReleaseAll(cfg, s, ps))
    ensures forall p :: p in ps ==> ReleaseAll(cfg, s, ps).StatusOf(p) == NotAvailable
    ensures forall p :: p in ps ==> ReleaseAll(cfg, s, ps).ActiveOf(p) == {}
  {
    var r := ReleaseAll(cfg, s, ps);
    assert r.registry == map[];
    forall p
      ensures r.StatusOf(p) != InFlight
      ensures r.ActiveOf(p) != {} ==> r.StatusOf(p) == Available
      ensures p in ps ==> r.StatusOf(p) == NotAvailable && r.ActiveOf(p) == {}
    {
      ReleaseAllStatus(cfg, s, ps, p);
    }
  }

  lemma ReleaseAllSize(cfg: Config, s: Pool, ps: set<int>)
    ensures LiveSize(cfg, ReleaseAll(cfg, s, ps)) - ReleaseAll(cfg, s, ps).nAvailable
         == LiveSize(cfg, s) - s.nAvailable
  {
    var freed := AvailableIn(s, ps);
    assert ReleaseAll(cfg, s, ps).LiveSet() == s.LiveSet() - freed;
    assert freed <= s.LiveSet();
    SetSumSubset(freed, s.LiveSet(), cfg.numel);
  }
}
