/** One turn of each of the coordinator's loops: what it does to a state that is partway through. */
module CoordinatorLoops {
  import opened Prelude
  import opened CoordinatorState
  import opened CoordinatorPool

  lemma MissingNext(s: Pool, ps: set<int>, p: int)
    requires p !in ps
    ensures p !in s.Missing(ps)
    ensures s.Missing(ps + {p}) == s.Missing(ps) + (if s.StatusOf(p) == NotAvailable then {p} else {})
  {
  }

  lemma MissingSum(cfg: Config, s: Pool, ps: set<int>, p: int)
    requires p !in ps
    ensures SetSum(s.Missing(ps + {p}), cfg.numel)
         == SetSum(s.Missing(ps), cfg.numel) + (if s.StatusOf(p) == NotAvailable then cfg.numel(p) else 0)
  {
    MissingNext(s, ps, p);
    if s.StatusOf(p) == NotAvailable {
      SetSumRemove(s.Missing(ps + {p}), p, cfg.numel);
      assert s.Missing(ps + {p}) - {p} == s.Missing(ps);
    } else {
      assert s.Missing(ps + {p}) == s.Missing(ps);
    }
  }

  lemma GatherNothing(cfg: Config, s: Pool, ps: set<int>)
    requires s.Missing(ps) == SetOf<int>([])
    ensures AllGather(cfg, s, ps) == s && SetSum(s.Missing(ps), cfg.numel) == 0
  {
    assert SetOf<int>([]) == {};
  }

  lemma GatherSome(cfg: Config, s: Pool, ps: set<int>, xs: seq<int>, handle: nat)
    requires s.Missing(ps) == SetOf(xs) && xs != [] && handle == |s.handles|
    ensures AllGather(cfg, s, ps)
         == Pool(Assign(s.status, SetOf(xs), InFlight), s.active, Assign(s.registry, SetOf(xs), handle),
                 s.handles + [Handle(Sorted(SetOf(xs)), false)], s.nAvailable + SetSum(s.Missing(ps), cfg.numel))
  {
    assert xs[0] in SetOf(xs);
  }

  lemma WithUserOne(active: map<int, set<int>>, ps: set<int>, p: int, m: int)
    requires p !in ps
    ensures var a := WithUser(active, ps, m);
            WithUser(active, ps + {p}, m) == a[p := Users(a, p) + {m}]
  {
  }

  lemma WithoutUserOne(active: map<int, set<int>>, ps: set<int>, p: int, m: int)
    ensures var a := WithoutUser(active, ps, m);
            WithoutUser(active, ps + {p}, m) == a[p := Users(a, p) - {m}]
  {
    var a := WithoutUser(active, ps, m);
    assert Users(a, p) - {m} == Users(active, p) - {m};
  }

  lemma CompletedOne(handles: seq<Handle>, hs: set<nat>, h: nat)
    requires h < |handles|
    ensures var a := Completed(handles, hs);
            Completed(handles, hs + {h}) == a[h := a[h].(complete := true)]
  {
  }

  lemma CompletedAgain(handles: seq<Handle>, hs: set<nat>, h: nat)
    requires h < |handles| && handles[h].complete
    ensures Completed(handles, hs + {h}) == Completed(handles, hs)
  {
  }

  lemma WaitedOne(s: Pool, done: set<int>, p: int)
    ensures Waited(s, done + {p}) == Waited(s, done) + (if p in s.registry then {s.registry[p]} else {})
  {
  }

  lemma CompleteArrives(s: Pool, hs: set<nat>, h: nat)
    requires Registered(s)
    requires h < |s.handles| && s.handles[h].complete
    ensures Arriving(s, hs + {h}) == Arriving(s, hs)
  {
  }

  /** A handle not waited for yet brings exactly its own parameters. */
  lemma IncompleteArrives(s: Pool, hs: set<nat>, h: nat, p: int)
    requires Registered(s) && p in s.registry && s.registry[p] == h
    requires h < |s.handles| && !s.handles[h].complete
    ensures Arriving(s, hs + {h}) == Arriving(s, hs) + SetOf(s.handles[h].params)
  {
    forall q ensures q in Arriving(s, hs + {h}) <==> q in Arriving(s, hs) || q in SetOf(s.handles[h].params) {
      if q in s.handles[h].params {
        assert q in s.registry && s.registry[q] == h && s.StatusOf(q) == InFlight;
      }
    }
  }

  /** The parameter next in the wait loop, and what is left to do for it. */
  lemma NextWait(s: Pool, done: set<int>, p: int, m: int)
    requires PoolInv(s) && p !in done
    ensures var a := FetchWait(s, done, m);
            && (p in a.registry <==> p in s.registry)
            && (p in s.registry ==> a.registry[p] == s.registry[p])
            && (p in s.registry ==> s.registry[p] < |s.handles| && |s.handles| == |a.handles|)
            && (p in s.registry ==> a.handles[s.registry[p]].params == s.handles[s.registry[p]].params)
            && (p in s.registry && !s.handles[s.registry[p]].complete ==>
                  a.handles[s.registry[p]].complete == (s.registry[p] in Waited(s, done)))
            && (p in s.registry && s.handles[s.registry[p]].complete ==> a.handles[s.registry[p]].complete)
  {
  }

  /** Statuses and handles when the parameter needs no wait: unregistered, or its handle completed. */
  lemma WaitSkips(s: Pool, done: set<int>, p: int, m: int)
    requires PoolInv(s) && p !in done
    requires var a := FetchWait(s, done, m); p in a.registry ==> a.handles[a.registry[p]].complete
    ensures var a, b := FetchWait(s, done, m), FetchWait(s, done + {p}, m);
            b.status == a.status && b.handles == a.handles
  {
    NextWait(s, done, p, m);
    WaitedOne(s, done, p);
    if p in s.registry && s.registry[p] !in Waited(s, done) {
      CompleteArrives(s, Waited(s, done), s.registry[p]);
      CompletedAgain(s.handles, Waited(s, done), s.registry[p]);
    } else {
      assert Waited(s, done + {p}) == Waited(s, done);
    }
  }

  /** Statuses and handles when the parameter's handle has to be waited for. */
  lemma WaitArrives(s: Pool, done: set<int>, p: int, m: int)
    requires PoolInv(s) && p !in done
    requires var a := FetchWait(s, done, m); p in a.registry && !a.handles[a.registry[p]].complete
    ensures var a, b := FetchWait(s, done, m), FetchWait(s, done + {p}, m);
            var h := a.registry[p];
            && b.handles == a.handles[h := a.handles[h].(complete := true)]
            && b.status == Assign(a.status, SetOf(a.handles[h].params), Available)
            && forall q :: q in a.handles[h].params ==> a.StatusOf(q) == InFlight
  {
    var h := s.registry[p];
    NextWait(s, done, p, m);
    WaitedOne(s, done, p);
    IncompleteArrives(s, Waited(s, done), h, p);
    CompletedOne(s.handles, Waited(s, done), h);
    AssignMore(s.status, Arriving(s, Waited(s, done)), SetOf(s.handles[h].params), Available);
    forall q | q in s.handles[h].params ensures FetchWait(s, done, m).StatusOf(q) == InFlight {
      assert s.registry[q] == h && s.StatusOf(q) == InFlight;
      FetchWaitStatus(s, done, m, q);
    }
  }

  /** All a turn of the wait loop needs: the pool before it is as in TurnReady, the one after it as in TurnDone. */
  ghost predicate TurnReady(a: Pool, p: int)
  {
    && a.Live(p)
    && (p in a.registry ==> a.registry[p] < |a.handles| && p in a.handles[a.registry[p]].params
                            && Ascending(a.handles[a.registry[p]].params))
    && (p !in a.registry ==> a.StatusOf(p) == Available)
    && (p in a.registry && a.handles[a.registry[p]].complete ==> a.StatusOf(p) == Available)
    && (p in a.registry && !a.handles[a.registry[p]].complete ==>
          forall q :: q in a.handles[a.registry[p]].params ==> a.StatusOf(q) == InFlight)
  }

  ghost function TurnDone(a: Pool, p: int, m: int): Pool
    requires TurnReady(a, p)
  {
    var r := a.(active := a.active[p := Users(a.active, p) + {m}], registry := a.registry - {p});
    if p in a.registry && !a.handles[a.registry[p]].complete then
      var h := a.registry[p];
      r.(handles := a.handles[h := a.handles[h].(complete := true)],
         status := Assign(a.status, SetOf(a.handles[h].params), Available))
    else r
  }

  lemma TurnStarts(s: Pool, done: set<int>, p: int, m: int)
    requires PoolInv(s) && s.Live(p) && p !in done
    ensures TurnReady(FetchWait(s, done, m), p)
  {
    NextWait(s, done, p, m);
    FetchWaitStatus(s, done, m, p);
    var a := FetchWait(s, done, m);
    if p in s.registry {
      assert p in s.handles[s.registry[p]].params;
      if !a.handles[a.registry[p]].complete {
        WaitArrives(s, done, p, m);
      } else if s.registry[p] in Waited(s, done) && s.StatusOf(p) == InFlight {
        assert p in Arriving(s, Waited(s, done));
      }
    }
  }

  lemma TurnFacts(s: Pool, done: set<int>, p: int, m: int)
    requires PoolInv(s) && s.Live(p) && p !in done
    ensures TurnReady(FetchWait(s, done, m), p)
    ensures TurnDone(FetchWait(s, done, m), p, m) == FetchWait(s, done + {p}, m)
  {
    TurnStarts(s, done, p, m);
    WaitUsers(s, done, p, m);
    var a := FetchWait(s, done, m);
    if p in a.registry && !a.handles[a.registry[p]].complete {
      WaitArrives(s, done, p, m);
    } else {
      WaitSkips(s, done, p, m);
    }
  }

  lemma WaitUsers(s: Pool, done: set<int>, p: int, m: int)
    requires p !in done
    ensures var a, b := FetchWait(s, done, m), FetchWait(s, done + {p}, m);
            && b.active == a.active[p := Users(a.active, p) + {m}]
            && b.registry == a.registry - {p}
            && b.nAvailable == a.nAvailable
  {
    WithUserOne(s.active, done, p, m);
    assert s.registry - (done + {p}) == s.registry - done - {p};
  }

  /** What one turn of a releasing loop does to a set of freed parameters. */
  lemma FreeOne(status: map<int, Status>, before: set<int>, after: set<int>, p: int, w: int -> nat)
    requires after == before || (after == before + {p} && p !in before)
    ensures Assign(status, after, NotAvailable)
         == if after == before then Assign(status, before, NotAvailable) else Assign(status, before, NotAvailable)[p := NotAvailable]
    ensures SetSum(after, w) == SetSum(before, w) + (if after == before then 0 else w(p))
  {
    if after != before {
      AssignOne(status, before, p, NotAvailable);
      SetSumRemove(after, p, w);
      assert after - {p} == before;
    }
  }

  lemma FreedOne(cfg: Config, s: Pool, done: set<int>, p: int, m: int, toRelease: set<int>)
    ensures var a := Leave(cfg, s, done, m, toRelease);
            var out := p in toRelease && !cfg.external(p) && a.StatusOf(p) == Available && a.ActiveOf(p) - {m} == {};
            && (out ==> p !in Freed(cfg, s, done, m, toRelease))
            && Freed(cfg, s, done + {p}, m, toRelease)
               == Freed(cfg, s, done, m, toRelease) + (if out then {p} else {})
  {
    LeaveStatus(cfg, s, done, m, toRelease, p);
    hide Leave;
  }

  /** One more occurrence of the release loop. */
  lemma LeaveOne(cfg: Config, s: Pool, done: set<int>, p: int, m: int, toRelease: set<int>)
    ensures var a, b := Leave(cfg, s, done, m, toRelease), Leave(cfg, s, done + {p}, m, toRelease);
            var out := p in toRelease && !cfg.external(p) && a.StatusOf(p) == Available && a.ActiveOf(p) - {m} == {};
            && b.active == a.active[p := Users(a.active, p) - {m}]
            && b.status == (if out then a.status[p := NotAvailable] else a.status)
            && b.nAvailable == a.nAvailable - (if out then cfg.numel(p) else 0)
            && b.registry == a.registry && b.handles == a.handles
  {
    WithoutUserOne(s.active, done, p, m);
    FreedOne(cfg, s, done, p, m, toRelease);
    FreeOne(s.status, Freed(cfg, s, done, m, toRelease), Freed(cfg, s, done + {p}, m, toRelease), p, cfg.numel);
  }

  lemma AvailableOne(cfg: Config, s: Pool, done: set<int>, p: int)
    ensures var out := ReleaseAll(cfg, s, done).StatusOf(p) == Available;
            && (out ==> p !in AvailableIn(s, done))
            && AvailableIn(s, done + {p}) == AvailableIn(s, done) + (if out then {p} else {})
  {
    ReleaseAllStatus(cfg, s, done, p);
  }

  /** One more occurrence of the loop that releases everything. */
  lemma ReleaseAllOne(cfg: Config, s: Pool, done: set<int>, p: int)
    ensures var a, b := ReleaseAll(cfg, s, done), ReleaseAll(cfg, s, done + {p});
            var out := a.StatusOf(p) == Available;
            && b.active == a.active[p := {}]
            && b.status == (if out then a.status[p := NotAvailable] else a.status)
            && b.nAvailable == a.nAvailable - (if out then cfg.numel(p) else 0)
            && b.registry == a.registry && b.handles == a.handles
  {
    AssignOne(s.active, done, p, {});
    AvailableOne(cfg, s, done, p);
    FreeOne(s.status, AvailableIn(s, done), AvailableIn(s, done + {p}), p, cfg.numel);
  }

  lemma WaitNothing(s: Pool, m: int)
    ensures FetchWait(s, {}, m) == s
  {
    assert Waited(s, {}) == {};
    assert Arriving(s, {}) == {};
    AssignNone(s.status, Available);
    assert WithUser(s.active, {}, m) == s.active;
    assert s.registry - {} == s.registry;
    assert Completed(s.handles, {}) == s.handles;
  }

  lemma LeaveNothing(cfg: Config, s: Pool, m: int, toRelease: set<int>)
    ensures Leave(cfg, s, {}, m, toRelease) == s
  {
    assert Freed(cfg, s, {}, m, toRelease) == {};
    AssignNone(s.status, NotAvailable);
    assert WithoutUser(s.active, {}, m) == s.active;
  }

  lemma ReleaseAllNothing(cfg: Config, s: Pool)
    ensures ReleaseAll(cfg, s, {}) == s
  {
    assert AvailableIn(s, {}) == {};
    AssignNone(s.status, NotAvailable);
    AssignNone(s.active, {});
  }
}
