/** When the coordinator's operations raise, on any state at all, reachable or not: that its checks never fire on legal runs
    is a property of the runs, not of the checks. */
module CoordinatorFailures {
  import opened Prelude
  import opened CoordinatorState
  import opened CoordinatorRuns
  import opened CoordinatorChecked

  lemma {:induction false} LoopLast(xs: seq<int>, s: Pool, turn: Turn)
    requires xs != []
    ensures Loop(xs, s, turn)
         == match Loop(xs[..|xs| - 1], s, turn)
            case Err(f) => Err(f)
            case Ok(a) => turn(a, xs[|xs| - 1])
  {
  }

  // ------------------------------------------------------------------- gather

  lemma {:induction false} RegisterFails(s: Pool, xs: seq<int>, h: nat)
    requires Distinct(xs) && forall p :: p in xs ==> s.StatusOf(p) == InFlight
    ensures Loop(xs, s, RegisterUnder(h)).Err? <==> exists p :: p in xs && p in s.registry
    ensures Loop(xs, s, RegisterUnder(h)).Err? ==> Loop(xs, s, RegisterUnder(h)).error == AlreadyRegistered
    decreases |xs|
  {
    if xs != [] {
      var n := |xs| - 1;
      var front, p := xs[..n], xs[n];
      assert xs == front + [p];
      RegisterFails(s, front, h);
      LoopLast(xs, s, RegisterUnder(h));
      if forall q :: q in front ==> q !in s.registry {
        RegisterChecks(s, front, h);
        NotInFront(xs, n);
        RegisterOne(s.(registry := Assign(s.registry, SetOf(front), h)), s, front, p, h);
      }
    }
    hide Loop, RegisterTurn, Pool.StatusOf;
  }

  lemma {:induction false} NotInFront(xs: seq<int>, n: nat)
    requires Distinct(xs) && n < |xs|
    ensures xs[n] !in xs[..n]
  {
  }

  lemma {:induction false} RegisterOne(a: Pool, s: Pool, front: seq<int>, p: int, h: nat)
    requires a == s.(registry := Assign(s.registry, SetOf(front), h)) && p !in front && s.StatusOf(p) == InFlight
    ensures RegisterTurn(a, p, h).Err? <==> p in s.registry
    ensures RegisterTurn(a, p, h).Err? ==> RegisterTurn(a, p, h).error == AlreadyRegistered
  {
  }

  lemma {:induction false} IssueAll(cfg: Config, s: Pool, ps: set<int>, o: Order)
    requires Enumerates(o)
    ensures var xs, counted := o(s.Missing(ps)), s.(nAvailable := s.nAvailable + SetSum(s.Missing(ps), cfg.numel));
            && Distinct(xs) && SetOf(xs) == s.Missing(ps) && (forall p :: p in xs <==> p in ps && s.StatusOf(p) == NotAvailable)
            && Loop(xs, counted, IssueTurn) == Ok(counted.(status := Assign(s.status, SetOf(xs), InFlight)))
  {
    var xs, counted := o(s.Missing(ps)), s.(nAvailable := s.nAvailable + SetSum(s.Missing(ps), cfg.numel));
    assert Distinct(xs) && SetOf(xs) == s.Missing(ps);
    forall p ensures p in xs <==> p in ps && s.StatusOf(p) == NotAvailable { assert p in xs <==> p in SetOf(xs); }
    forall p ensures counted.StatusOf(p) == s.StatusOf(p) { }
    hide Enumerates, Loop, IssueTurn, SetSum;
    IssueChecks(counted, xs);
  }

  lemma {:induction false} IssuedReady(s: Pool, a: Pool, xs: seq<int>)
    requires a.status == Assign(s.status, SetOf(xs), InFlight)
    ensures forall p :: p in xs ==> a.StatusOf(p) == InFlight
  {
    forall p | p in xs ensures a.StatusOf(p) == InFlight { assert p in SetOf(xs); }
  }

  /** A gather raises exactly when one of the partitioned parameters it asks for is registered already, whatever order its
      sets are visited in. */
  lemma {:induction false} GatherRaises(cfg: Config, s: Pool, ps: set<int>, o: Order)
    requires Enumerates(o)
    ensures CheckedGather(cfg, s, ps, o).Err? <==> exists p :: p in ps && s.StatusOf(p) == NotAvailable && p in s.registry
    ensures CheckedGather(cfg, s, ps, o).Err? ==> CheckedGather(cfg, s, ps, o).error == AlreadyRegistered
  {
    hide *;
    IssueAll(cfg, s, ps, o);
    var xs := o(s.Missing(ps));
    var a := s.(nAvailable := s.nAvailable + SetSum(s.Missing(ps), cfg.numel), status := Assign(s.status, SetOf(xs), InFlight));
    var b := a.(handles := a.handles + [Handle(Sorted(SetOf(xs)), false)]);
    if xs == [] {
      NothingIssued(cfg, s, ps, o);
    } else {
      IssuedReady(s, b, xs);
      GatherIs(cfg, s, ps, o, a, b);
      RegisterFails(b, xs, |a.handles|);
    }
  }

  // ----------------------------------------------------------------- partition all

  /** What the releasing loop leaves of one parameter. */
  ghost predicate ReleasedOne(s: Pool, a: Pool, xs: seq<int>, p: int)
  {
    a.StatusOf(p) == if p in xs && s.StatusOf(p) == Available then NotAvailable else s.StatusOf(p)
  }

  lemma {:induction false} ReleaseTurnDoes(cfg: Config, s: Pool, a: Pool, xs: seq<int>, p: int)
    requires a.registry == s.registry && forall q :: ReleasedOne(s, a, xs, q)
    ensures ReleaseAllTurn(cfg, a, p).Err? <==> p in s.registry
    ensures ReleaseAllTurn(cfg, a, p).Err? ==> ReleaseAllTurn(cfg, a, p).error == ReleasedInFlight
    ensures p !in s.registry ==>
              var b := ReleaseAllTurn(cfg, a, p).value;
              b.registry == s.registry && forall q :: ReleasedOne(s, b, xs + [p], q)
  {
    if p !in s.registry {
      var b := ReleaseAllTurn(cfg, a, p).value;
      forall q ensures ReleasedOne(s, b, xs + [p], q) {
        assert ReleasedOne(s, a, xs, q);
        assert b.StatusOf(q) == if q == p && a.StatusOf(p) == Available then NotAvailable else a.StatusOf(q);
      }
    }
  }

  lemma {:induction false} ReleaseLoop(cfg: Config, s: Pool, xs: seq<int>)
    ensures var r := Loop(xs, s, ReleaseAny(cfg));
            && (r.Err? <==> exists p :: p in xs && p in s.registry)
            && (r.Err? ==> r.error == ReleasedInFlight)
            && (r.Ok? ==> r.value.registry == s.registry && forall p :: ReleasedOne(s, r.value, xs, p))
    decreases |xs|
  {
    if xs != [] {
      var n := |xs| - 1;
      assert xs == xs[..n] + [xs[n]];
      ReleaseLoop(cfg, s, xs[..n]);
      LoopLast(xs, s, ReleaseAny(cfg));
      var before := Loop(xs[..n], s, ReleaseAny(cfg));
      if before.Ok? { ReleaseTurnDoes(cfg, s, before.value, xs[..n], xs[n]); }
    }
    hide Loop, ReleaseAllTurn, Pool.StatusOf;
  }

  lemma {:induction false} ClosingLoop(a: Pool, xs: seq<int>)
    ensures Loop(xs, a, PartitionedTurn) == if exists p :: p in xs && a.StatusOf(p) != NotAvailable then Err(NotReleased) else Ok(a)
    decreases |xs|
  {
    if xs != [] {
      var n := |xs| - 1;
      assert xs == xs[..n] + [xs[n]];
      ClosingLoop(a, xs[..n]);
      LoopLast(xs, a, PartitionedTurn);
    }
    hide Loop, Pool.StatusOf;
  }

  /** Partitioning everything raises exactly when a listed parameter is registered or in flight: in the first case while it
      releases, otherwise at its closing check. */
  lemma {:induction false} ReleaseAllRaises(cfg: Config, s: Pool)
    ensures CheckedReleaseAll(cfg, s).Err? <==> exists p :: p in cfg.allParams && (p in s.registry || s.StatusOf(p) == InFlight)
    ensures CheckedReleaseAll(cfg, s).Err? ==>
              CheckedReleaseAll(cfg, s).error
              == if exists p :: p in cfg.allParams && p in s.registry then ReleasedInFlight else NotReleased
  {
    var xs := cfg.allParams;
    ReleaseLoop(cfg, s, xs);
    var r := Loop(xs, s, ReleaseAny(cfg));
    if r.Ok? {
      ClosingLoop(r.value, xs);
      forall p | p in xs ensures r.value.StatusOf(p) != NotAvailable <==> s.StatusOf(p) == InFlight {
        assert ReleasedOne(s, r.value, xs, p);
      }
    }
    hide Loop, Pool.StatusOf, ReleasedOne;
  }

  // --------------------------------------------------------------------- the rest

  /** The entries the first queue loop takes. */
  function Taken(cfg: Config, t: Trace, m: int): seq<Entry>
  {
    var q := t.queue.GetOr([]);
    q[..DiscardCount(q, {}, |NotYetFetched(cfg, t, m)|)]
  }

  /** A hook on entry raises by its trace exactly when a completed trace has no further module; the first queue loop exactly
      when it took other parameters than the module still needs; the end of an iteration exactly when something is
      registered, or a recorded module has no step left. */
  lemma {:induction false} TraceRaises(cfg: Config, s: State, m: int)
    ensures CheckedPrologue(s.trace, m).Err? <==> s.trace.mode == Complete && s.trace.stepId >= |s.trace.moduleOrder|
    ensures CheckedDiscard(cfg, s.trace, m).Err? <==>
              !forall p :: (exists e :: e in Taken(cfg, s.trace, m) && e.param == p) <==>
                           p in cfg.moduleParams(m) && s.trace.MostRecent(p) < s.trace.stepId
    ensures s.pool.registry != map[] ==> CheckedReset(cfg, s) == Err(StillInFlight)
    ensures s.pool.registry == map[] ==>
              (CheckedReset(cfg, s).Err? <==> s.trace.mode == Record && RunsOut(s.trace.moduleOrder, s.trace.fetchedFor))
  {
    var taken, need := Taken(cfg, s.trace, m), NotYetFetched(cfg, s.trace, m);
    forall p
      ensures p in ParamsIn(taken) <==> exists e :: e in taken && e.param == p
      ensures p in need <==> p in cfg.moduleParams(m) && s.trace.MostRecent(p) < s.trace.stepId
    {
    }
    if forall p :: (exists e :: e in taken && e.param == p) <==> p in cfg.moduleParams(m) && s.trace.MostRecent(p) < s.trace.stepId {
      assert ParamsIn(taken) == need;
    }
    hide DiscardCount, MarkPopped, Trace.MostRecent, NotYetFetched, ParamsIn;
    RebuildRaises(cfg, s.trace.moduleOrder, s.trace.fetchedFor);
  }

  /** Some module comes up more often in the order than it has steps queued. */
  ghost predicate RunsOut(order: seq<int>, fifos: map<int, seq<int>>)
  {
    exists i :: 0 <= i < |order| && (if order[i] in fifos then |fifos[order[i]]| else 0) <= Times(order[..i], order[i])
  }

  function Times(order: seq<int>, m: int): nat
  {
    if order == [] then 0 else (if order[0] == m then 1 else 0) + Times(order[1..], m)
  }

  lemma {:induction false} TimesNext(order: seq<int>, i: nat, m: int)
    requires 0 < i <= |order|
    ensures Times(order[..i], m) == (if order[0] == m then 1 else 0) + Times(order[1..][..i - 1], m)
  {
    assert order[..i][1..] == order[1..][..i - 1];
  }

  lemma {:induction false} RebuildRaises(cfg: Config, order: seq<int>, fifos: map<int, seq<int>>)
    ensures CheckedRebuild(cfg, Record, order, fifos).Err? <==> RunsOut(order, fifos)
    decreases |order|
  {
    if order != [] {
      var m := order[0];
      var has := m in fifos && fifos[m] != [];
      assert order[..0] == [] && Times([], m) == 0;
      if has {
        var rest := fifos[m := fifos[m][1..]];
        RebuildRaises(cfg, order[1..], rest);
        RunsOutNext(order, fifos, rest);
      } else {
        assert RunsOut(order, fifos);
      }
    }
    hide RunsOut, StepEntries;
  }

  lemma {:induction false} RunsOutNext(order: seq<int>, fifos: map<int, seq<int>>, rest: map<int, seq<int>>)
    requires order != [] && order[0] in fifos && fifos[order[0]] != [] && rest == fifos[order[0] := fifos[order[0]][1..]]
    ensures RunsOut(order, fifos) <==> RunsOut(order[1..], rest)
  {
    forall i | 0 < i < |order|
      ensures (if order[i] in fifos then |fifos[order[i]]| else 0) <= Times(order[..i], order[i])
         <==> (if order[1..][i - 1] in rest then |rest[order[1..][i - 1]]| else 0) <= Times(order[1..][..i - 1], order[1..][i - 1])
    {
      TimesNext(order, i, order[i]);
    }
    assert order[..0] == [];
    if RunsOut(order, fifos) {
      var i :| 0 <= i < |order| && (if order[i] in fifos then |fifos[order[i]]| else 0) <= Times(order[..i], order[i]);
      assert i > 0;
      assert (if order[1..][i - 1] in rest then |rest[order[1..][i - 1]]| else 0) <= Times(order[1..][..i - 1], order[1..][i - 1]);
    }
    if RunsOut(order[1..], rest) {
      var k :| 0 <= k < |order[1..]| && (if order[1..][k] in rest then |rest[order[1..][k]]| else 0) <= Times(order[1..][..k], order[1..][k]);
      assert 0 < k + 1 < |order| && (k + 1) - 1 == k;
      assert (if order[k + 1] in fifos then |fifos[order[k + 1]]| else 0) <= Times(order[..k + 1], order[k + 1]);
    }
  }
}
