/** A training run in which the reuse distance of zero costs a gather. */
module CoordinatorExample {
  import opened Prelude
  import opened CoordinatorState
  import opened CoordinatorPool
  import opened CoordinatorTrace
  import opened CoordinatorRuns
  import opened CoordinatorTheorems

  /** Module 0 uses parameter 5, modules 1 and 2 use parameter 7; the reuse distance is zero. */
  function Sharing(): Config
  {
    Config(m => if m == 0 then [5] else [7], [5, 7], _ => 1, _ => false, _ => false, 10, 0, 100)
  }

  const ORDER: seq<int> := [0, 1, 2]

  /** One pass over the three modules, and the beginning of the next. */
  function OnePass(): seq<Event>
  {
    [Enter(0), Exit(0), Enter(1), Exit(1), Enter(2), Exit(2)]
  }

  const SECOND: seq<Event> := [Enter(0), Exit(0), Enter(1), Exit(1), Enter(2)]

  /** A whole first iteration, then k hooks of the second. */
  function History(k: nat): seq<Event>
    requires k <= |SECOND|
  {
    Training([OnePass()]) + SECOND[..k]
  }

  ghost predicate Shows(es: seq<Event>, s: State)
  {
    Legal(es) && Run(Sharing(), es) == Ok(s)
  }

  // ------------------------------------------------------------- legal events

  lemma {:induction false} LegalNext(es: seq<Event>, e: Event)
    requires Legal(es) && Allowed(Brackets(es), e)
    ensures Legal(es + [e]) && Brackets(es + [e]) == AfterEvent(Brackets(es), e)
  {
    assert (es + [e])[..|es|] == es;
  }

  lemma {:induction false} Opens(es: seq<Event>, m: int)
    requires Legal(es)
    ensures Legal(es + [Enter(m)]) && Brackets(es + [Enter(m)]).open == Brackets(es).open + {m}
  {
    LegalNext(es, Enter(m));
  }

  lemma {:induction false} Visits(es: seq<Event>, m: int)
    requires Legal(es)
    ensures Legal(es + [Enter(m)]) && Legal(es + [Enter(m)] + [Exit(m)])
  {
    Opens(es, m);
    LegalNext(es + [Enter(m)], Exit(m));
  }

  lemma {:induction false} FirstIterationLegal()
    ensures Legal(Training([OnePass()]))
    ensures Training([OnePass()]) == OnePass() + [EndIteration] + [PartitionAll]
  {
    assert [OnePass()][..0] == [];
    assert Training([OnePass()]) == [] + OnePass() + [EndIteration] + [PartitionAll];
    assert [] + OnePass() == OnePass();
    var none: seq<Event> := [];
    var a, b := none + [Enter(0)] + [Exit(0)], none + [Enter(0)] + [Exit(0)] + [Enter(1)] + [Exit(1)];
    hide Legal, Brackets, Training;
    LegalNone();
    Visits(none, 0);
    Visits(a, 1);
    Visits(b, 2);
    assert b + [Enter(2)] + [Exit(2)] == OnePass();
    LegalNext(OnePass(), EndIteration);
    LegalNext(OnePass() + [EndIteration], PartitionAll);
  }

  lemma {:induction false} LegalNone()
    ensures Legal([])
  {
  }

  lemma {:induction false} HistoryNext(k: nat)
    requires k < |SECOND|
    ensures History(k + 1) == History(k) + [SECOND[k]]
  {
    hide Training;
    assert SECOND[..k + 1] == SECOND[..k] + [SECOND[k]];
  }

  lemma {:induction false} HistoriesLegal()
    ensures forall k :: 0 <= k <= |SECOND| ==> Legal(History(k))
  {
    FirstIterationLegal();
    hide Legal, Brackets, Training;
    assert History(0) == Training([OnePass()]);
    HistoryNext(0);
    HistoryNext(1);
    HistoryNext(2);
    HistoryNext(3);
    HistoryNext(4);
    Visits(History(0), 0);
    Visits(History(2), 1);
    Opens(History(4), 2);
    hide History;
    forall k | 0 <= k <= |SECOND| ensures Legal(History(k)) {
      assert k == 0 || k == 1 || k == 2 || k == 3 || k == 4 || k == 5;
    }
  }

  // ------------------------------------------------- between the two iterations

  lemma {:induction false} EntersOne(es: seq<Event>, e: Event)
    ensures Enters(es + [e]) == Enters(es) + if e.Enter? then [e.m] else []
  {
    assert (es + [e])[..|es|] == es;
  }

  lemma {:induction false} PassEnters()
    ensures Body(OnePass()) && Enters(OnePass()) == ORDER
  {
    var none: seq<Event> := [];
    assert Enters(none) == [];
    EntersOne(none, Enter(0));
    EntersOne(none + [Enter(0)], Exit(0));
    var a := none + [Enter(0)] + [Exit(0)];
    EntersOne(a, Enter(1));
    EntersOne(a + [Enter(1)], Exit(1));
    var b := a + [Enter(1)] + [Exit(1)];
    EntersOne(b, Enter(2));
    EntersOne(b + [Enter(2)], Exit(2));
    assert b + [Enter(2)] + [Exit(2)] == OnePass();
    hide Enters;
  }

  /** What the second iteration starts from. */
  ghost predicate Ready(s: State)
  {
    && Inv(Sharing(), s) && Replaying(s.trace, ORDER, 0)
    && s.pool.registry == map[] && s.trace.mostRecent == map[] && s.pool.nAvailable <= 0
    && s.pool.StatusOf(5) == NotAvailable && s.pool.StatusOf(7) == NotAvailable
  }

  lemma {:induction false} SecondStarts() returns (s: State)
    ensures Shows(History(0), s) && Ready(s)
  {
    var es := Training([OnePass()]);
    FirstIterationLegal();
    PassEnters();
    assert History(0) == es by { hide *; assert SECOND[..0] == []; HistoryZero(); }
    hide Enters, Body, Training, OnePass;
    TrainingNeverFails(Sharing(), [OnePass()], ORDER);
    s := Run(Sharing(), es).value;
    hide Run, Legal, History;
    CounterIsSpent(s);
    StartsReady(s);
  }

  lemma {:induction false} HistoryZero()
    ensures History(0) == Training([OnePass()])
  {
    hide Training;
  }

  lemma {:induction false} CounterIsSpent(s: State)
    requires Shows(Training([OnePass()]), s)
    ensures s.pool.nAvailable <= 0 && s.pool.registry == map[] && s.trace.mostRecent == map[]
  {
    FirstIterationLegal();
    var pre := OnePass() + [EndIteration];
    assert Training([OnePass()]) == pre + [PartitionAll];
    hide OnePass, Training, Legal;
    LegalPrefix(pre, [PartitionAll]);
    LegalPrefix(OnePass(), [EndIteration]);
    RunsFine(OnePass(), EndIteration);
    RunsFine(pre, PartitionAll);
    RunLast(Sharing(), OnePass(), EndIteration);
    RunLast(Sharing(), pre, PartitionAll);
    var before, mid := Run(Sharing(), OnePass()).value, Run(Sharing(), pre).value;
    hide Run;
    ResetKeeps(Sharing(), before);
    assert mid.pool == before.pool.(nAvailable := 0);
    hide Inv, SetOf, AvailableIn;
  }

  lemma {:induction false} RunsFine(es: seq<Event>, e: Event)
    requires Legal(es + [e]) && Legal(es) && Run(Sharing(), es + [e]).Ok?
    ensures Run(Sharing(), es).Ok?
  {
    assert (es + [e])[..|es|] == es;
  }

  lemma {:induction false} StartsReady(s: State)
    requires Inv(Sharing(), s) && BetweenIterations(Sharing(), s, ORDER)
    requires s.pool.nAvailable <= 0 && s.pool.registry == map[] && s.trace.mostRecent == map[]
    ensures Ready(s)
  {
    assert 5 in Sharing().allParams && 7 in Sharing().allParams;
    hide Inv;
  }

  // ---------------------------------------------------------- the second iteration

  lemma {:induction false} OneId(p: int)
    ensures Sorted({p}) == [p] && SetSum({p}, Sharing().numel) == 1 && SetSum({}, Sharing().numel) == 0
  {
    assert {p} - {p} == {};
    assert Least({p}) in {p};
    SetSumRemove({p}, p, Sharing().numel);
  }

  lemma {:induction false} TheTrace()
    ensures TraceFrom(Sharing(), ORDER, 0) == [Entry(5, 0), Entry(7, 1), Entry(7, 2)]
  {
    var cfg := Sharing();
    OneId(5);
    OneId(7);
    ParamsAre();
    hide Sharing, Config.ParamsOf;
    assert StepEntries(cfg, 0, 0) == [Entry(5, 0)];
    assert StepEntries(cfg, 1, 1) == [Entry(7, 1)] && StepEntries(cfg, 2, 2) == [Entry(7, 2)];
    assert TraceFrom(cfg, ORDER, 3) == [];
    assert TraceFrom(cfg, ORDER, 2) == [Entry(7, 2)];
    assert TraceFrom(cfg, ORDER, 1) == [Entry(7, 1)] + [Entry(7, 2)];
  }

  lemma {:induction false} ParamsAre()
    ensures Sharing().ParamsOf(0) == {5} && Sharing().ParamsOf(1) == {7} && Sharing().ParamsOf(2) == {7}
  {
  }

  /** The first fetch discards its own entry and leaves two in the queue. */
  lemma {:induction false} FirstDiscards(t: Trace)
    requires Replaying(t, ORDER, 0) && t.mostRecent == map[]
    requires t.queue == Some([Entry(5, 0), Entry(7, 1), Entry(7, 2)])
    ensures NextTrace(Sharing(), t, 0)
         == t.(stepId := 1, queue := Some([Entry(7, 1), Entry(7, 2)]), mostRecent := map[5 := 0])
  {
    ParamsAre();
    assert NotYetFetched(Sharing(), t, 0) == {5};
    var q := t.queue.value;
    assert DiscardCount(q[1..], {} + {5}, 1) == 0;
    assert DiscardCount(q, {}, 1) == 1;
    assert q[..1] == [Entry(5, 0)] && q[..1][..0] == [];
    assert MarkPopped(map[], q[..1]) == map[5 := 0];
    hide NotYetFetched, Sharing;
  }

  /** Fetching module m while parameter p is elsewhere. */
  lemma {:induction false} Untouched(cfg: Config, s: Pool, m: int, p: int)
    requires PoolInv(s) && p !in cfg.ParamsOf(m) && s.StatusOf(p) == NotAvailable
    ensures Fetched(cfg, s, m).StatusOf(p) == NotAvailable && Fetched(cfg, s, m).ActiveOf(p) == {}
  {
    var ps := cfg.ParamsOf(m);
    PartitionedIsUnregistered(s, p);
    AllGatherStatus(cfg, s, ps, p);
    FetchWaitStatus(AllGather(cfg, s, ps), ps, m, p);
  }

  lemma {:induction false} FetchedCount(cfg: Config, s: Pool, m: int)
    ensures Fetched(cfg, s, m).nAvailable == s.nAvailable + SetSum(s.Missing(cfg.ParamsOf(m)), cfg.numel)
    ensures |Fetched(cfg, s, m).handles| == |s.handles| + if s.Missing(cfg.ParamsOf(m)) == {} then 0 else 1
    ensures s.Missing(cfg.ParamsOf(m)) != {} ==>
              Fetched(cfg, s, m).handles[|s.handles|].params == Sorted(s.Missing(cfg.ParamsOf(m)))
  {
    assert s.Missing(cfg.ParamsOf(m)) == {} ==> SetSum(s.Missing(cfg.ParamsOf(m)), cfg.numel) == 0;
    hide SetSum;
  }

  /** With a budget of ten and only parameter 7 to gather, the prefetch takes all of the queue. */
  lemma {:induction false} TakesBoth(s: Pool)
    requires s.nAvailable <= 1 && s.StatusOf(7) == NotAvailable
    ensures var scan := Scan(Sharing(), s, [Entry(7, 1), Entry(7, 2)]);
            scan.count == 2 && scan.wanted == {7} && s.Missing({7}) == {7}
  {
    var cfg, q := Sharing(), [Entry(7, 1), Entry(7, 2)];
    var scan := Scan(cfg, s, q);
    assert s.Missing({7}) == {7};
    ScanExact(cfg, s, q);
    assert Budget(cfg, s) == 10;
    hide Scan, PrefetchScan;
    forall n | 0 <= n <= 2 ensures MissingAmong(cfg, s, q, n) <= 1 {
      assert ParamsIn(q[..n]) <= {7};
      assert s.Missing(ParamsIn(q[..n])) <= {7};
      SetSumSubset(s.Missing(ParamsIn(q[..n])), {7}, cfg.numel);
      OneId(7);
    }
    assert q[..2] == q && ParamsIn(q) == {7};
  }

  lemma {:induction false} MarksBoth(mr: map<int, int>)
    ensures MarkPopped(mr, [Entry(7, 1), Entry(7, 2)]) == mr[7 := 1][7 := 2]
  {
    var q := [Entry(7, 1), Entry(7, 2)];
    assert q[..1] == [Entry(7, 1)] && q[..1][..0] == [];
    assert MarkPopped(mr, q[..1]) == mr[7 := 1];
  }

  /** After the first fetch: parameter 7 has been prefetched for step 2, and the queue is empty. */
  ghost predicate Prefetched7(s: State)
  {
    && Replaying(s.trace, ORDER, 1) && s.trace.queue == Some([]) && s.trace.MostRecent(7) == 2
    && s.pool.StatusOf(7) == InFlight && s.pool.ActiveOf(7) == {}
    && s.pool.handles != [] && s.pool.handles[|s.pool.handles| - 1] == Handle([7], false)
  }

  /** The first fetch up to its prefetch. */
  lemma {:induction false} FirstHalf(s: State) returns (mid: Pool)
    requires Ready(s)
    ensures s.trace.queue.Some? && mid == Fetched(Sharing(), s.pool, 0)
    ensures mid.nAvailable <= 1 && mid.StatusOf(7) == NotAvailable && mid.ActiveOf(7) == {}
    ensures NextTrace(Sharing(), s.trace, 0)
         == s.trace.(stepId := 1, queue := Some([Entry(7, 1), Entry(7, 2)]), mostRecent := map[5 := 0])
  {
    hide *;
    TheTrace();
    QueueIsFull(s);
    ReadyParts(s);
    FirstDiscards(s.trace);
    mid := Fetched(Sharing(), s.pool, 0);
    FirstPool(s.pool);
  }

  lemma {:induction false} ReadyParts(s: State)
    requires Ready(s)
    ensures Replaying(s.trace, ORDER, 0) && s.trace.mostRecent == map[] && PoolInv(s.pool)
    ensures s.pool.nAvailable <= 0 && s.pool.StatusOf(5) == NotAvailable && s.pool.StatusOf(7) == NotAvailable
  {
    hide PoolInv, TraceInv, Replaying;
  }

  lemma {:induction false} FirstPool(s: Pool)
    requires PoolInv(s) && s.nAvailable <= 0 && s.StatusOf(5) == NotAvailable && s.StatusOf(7) == NotAvailable
    ensures var mid := Fetched(Sharing(), s, 0);
            mid.nAvailable <= 1 && mid.StatusOf(7) == NotAvailable && mid.ActiveOf(7) == {}
  {
    ParamsAre();
    assert s.Missing({5}) == {5};
    hide *;
    Untouched(Sharing(), s, 0, 7);
    OneId(5);
    FetchedCount(Sharing(), s, 0);
  }

  lemma {:induction false} GathersSeven(s: Pool)
    requires s.StatusOf(7) == NotAvailable && s.ActiveOf(7) == {} && s.Missing({7}) == {7}
    ensures var r := AllGather(Sharing(), s, {7});
            && r.StatusOf(7) == InFlight && r.ActiveOf(7) == {}
            && r.handles == s.handles + [Handle([7], false)]
  {
    OneId(7);
    AllGatherStatus(Sharing(), s, {7}, 7);
    hide Sorted, SetSum;
  }

  lemma {:induction false} PopsBoth(t: Trace)
    requires t.queue == Some([Entry(7, 1), Entry(7, 2)]) && t.mostRecent == map[5 := 0]
    ensures Pop(t, 2) == t.(queue := Some([]), mostRecent := map[5 := 0, 7 := 2])
  {
    var q := t.queue.value;
    assert q[..2] == q && q[2..] == [];
    MarksBoth(map[5 := 0]);
    hide MarkPopped;
  }

  lemma {:induction false} FirstFetch(s: State)
    requires Ready(s)
    ensures s.trace.queue.Some? && Prefetched7(Fetch(Sharing(), s, 0))
  {
    assert Replaying(s.trace, ORDER, 0);
    hide Ready, Fetch, Scan, NextTrace, Fetched, Pop, AllGather, MarkPopped;
    var mid := FirstHalf(s);
    TakesBoth(mid);
    GathersSeven(mid);
    FetchIsPrefetch(Sharing(), s, 0);
    PopsBoth(NextTrace(Sharing(), s.trace, 0));
    hide Config.ParamsOf, SetOf;
  }

  lemma {:induction false} QueueIsFull(s: State)
    requires Ready(s)
    ensures s.trace.queue == Some(TraceFrom(Sharing(), ORDER, 0))
  {
    var t := s.trace;
    assert ReplayInv(Sharing(), t);
    assert Popped(t) == [] by {
      if Popped(t) != [] { MarkedHas(Popped(t)); }
    }
    hide TraceFrom, Sharing;
  }

  lemma {:induction false} MarkedHas(es: seq<Entry>)
    requires es != []
    ensures Marked(es) != map[]
  {
    assert es[|es| - 1].param in Marked(es);
  }

  /** Releasing a module that does not use parameter 7 does not touch it. */
  lemma {:induction false} ReleaseOther(s: State)
    requires Prefetched7(s)
    ensures Prefetched7(Release(Sharing(), s, 0))
  {
    ParamsAre();
    LeaveStatus(Sharing(), s.pool, {5}, 0, ParamsToRelease(Sharing(), s.trace, 0), 7);
    hide ParamsToRelease, Sharing, SetSum;
  }

  /** At step 2 with nothing queued, parameter 7 in use by module 1 alone, its use at step 2 popped. */
  ghost predicate Using7(s: State)
  {
    && Replaying(s.trace, ORDER, 2) && s.trace.queue == Some([]) && s.trace.MostRecent(7) == 2
    && s.pool.StatusOf(7) == Available && s.pool.ActiveOf(7) == {1}
  }

  /** With an empty queue and nothing left to account for, a fetch leaves the trace alone. */
  lemma {:induction false} IdleQueue(t: Trace, m: int)
    requires t.queue == Some([])
    ensures NextTrace(Sharing(), t, m) == t.(stepId := t.stepId + 1)
  {
    assert DiscardCount([], {}, |NotYetFetched(Sharing(), t, m)|) == 0;
    var none: seq<Entry> := [];
    assert none[..0] == [] && none[0..] == [];
    hide NotYetFetched;
  }

  lemma {:induction false} IdlePrefetch(s: Pool, t: Trace)
    requires t.queue == Some([])
    ensures var scan := Scan(Sharing(), s, t.queue.value);
            scan.count == 0 && AllGather(Sharing(), s, scan.wanted) == s && Pop(t, scan.count) == t
  {
    assert s.Missing({}) == {};
    var none: seq<Entry> := [];
    assert none[..0] == [] && none[0..] == [];
  }

  lemma {:induction false} IdleFetch(s: State, m: int)
    requires s.trace.mode == Complete && s.trace.queue == Some([])
    ensures Fetch(Sharing(), s, m) == State(Fetched(Sharing(), s.pool, m), s.trace.(stepId := s.trace.stepId + 1))
  {
    hide *;
    IdleQueue(s.trace, m);
    IdlePrefetch(Fetched(Sharing(), s.pool, m), s.trace.(stepId := s.trace.stepId + 1));
    FetchIsPrefetch(Sharing(), s, m);
  }

  lemma {:induction false} NothingMissing(s: Pool)
    requires s.StatusOf(7) != NotAvailable
    ensures AllGather(Sharing(), s, {7}) == s
  {
    assert s.Missing({7}) == {};
  }

  lemma {:induction false} SecondFetched(s: Pool)
    requires AllGather(Sharing(), s, {7}) == s
    ensures Fetched(Sharing(), s, 1) == FetchWait(s, {7}, 1)
    ensures |FetchWait(s, {7}, 1).handles| == |s.handles|
  {
    ParamsAre();
    hide AllGather, Sharing, Waited, Arriving, WithUser;
  }

  lemma {:induction false} WaitsFor(s: Pool, p: int, m: int)
    requires PoolInv(s) && s.StatusOf(p) == InFlight && s.ActiveOf(p) == {}
    ensures FetchWait(s, {p}, m).StatusOf(p) == Available && FetchWait(s, {p}, m).ActiveOf(p) == {m}
  {
    FetchWaitStatus(s, {p}, m, p);
    assert p in s.registry && s.registry[p] in Waited(s, {p});
    hide FetchWait, PoolInv;
  }

  lemma {:induction false} SecondPool(s: Pool)
    requires PoolInv(s) && s.StatusOf(7) == InFlight && s.ActiveOf(7) == {}
    ensures var r := Fetched(Sharing(), s, 1);
            r.StatusOf(7) == Available && r.ActiveOf(7) == {1} && |r.handles| == |s.handles|
  {
    hide *;
    NothingMissing(s);
    SecondFetched(s);
    WaitsFor(s, 7, 1);
  }

  lemma {:induction false} SecondFetch(s: State)
    requires Inv(Sharing(), s) && Prefetched7(s)
    ensures Using7(Fetch(Sharing(), s, 1)) && |Fetch(Sharing(), s, 1).pool.handles| == |s.pool.handles|
  {
    IdleFetch(s, 1);
    assert PoolInv(s.pool);
    hide Fetch, Fetched, Inv, Sharing, PoolInv;
    SecondPool(s.pool);
  }

  /** At step 2, whose use of parameter 7 has been popped, the parameter is gone. */
  ghost predicate Lost7(s: State)
  {
    && Replaying(s.trace, ORDER, 2) && s.trace.queue == Some([]) && s.trace.MostRecent(7) == 2
    && s.pool.StatusOf(7) == NotAvailable
  }

  lemma {:induction false} ReleaseLoses(s: State)
    requires Inv(Sharing(), s) && Using7(s)
    ensures Lost7(Release(Sharing(), s, 1)) && |Release(Sharing(), s, 1).pool.handles| == |s.pool.handles|
  {
    ParamsAre();
    SurvivesRelease(Sharing(), s, 1, 7);
    assert Sharing().maxReuse == 0 && !Sharing().persist(7) && !Sharing().external(7);
    hide Inv, ParamsToRelease, Sharing, SetSum, Freed;
  }

  lemma {:induction false} ThirdPool(s: Pool)
    requires s.StatusOf(7) == NotAvailable
    ensures var r := Fetched(Sharing(), s, 2);
            |r.handles| == |s.handles| + 1 && r.handles[|s.handles|].params == [7]
  {
    ParamsAre();
    assert s.Missing({7}) == {7};
    hide *;
    OneId(7);
    FetchedCount(Sharing(), s, 2);
  }

  lemma {:induction false} ThirdFetch(s: State)
    requires Lost7(s)
    ensures var r := Fetch(Sharing(), s, 2);
            |r.pool.handles| == |s.pool.handles| + 1 && r.pool.handles[|s.pool.handles|].params == [7]
  {
    IdleFetch(s, 2);
    hide Fetch, Fetched, Sharing;
    ThirdPool(s.pool);
  }

  /** A hook call that enters the module the trace expects. */
  lemma {:induction false} EnterShows(es: seq<Event>, s: State, m: int)
    requires Shows(es, s) && Legal(es + [Enter(m)])
    requires s.trace.mode == Complete && s.trace.stepId < |s.trace.moduleOrder| && s.trace.moduleOrder[s.trace.stepId] == m
    requires s.trace.queue.Some?
    ensures Shows(es + [Enter(m)], Fetch(Sharing(), s, m)) && Inv(Sharing(), s)
  {
    RunLast(Sharing(), es, Enter(m));
    assert Prologue(s.trace, m) == Ok(s.trace);
    hide Fetch, Run, Legal, PoolInv, TraceInv;
  }

  lemma {:induction false} ExitShows(es: seq<Event>, s: State, m: int)
    requires Shows(es, s) && Legal(es + [Exit(m)])
    ensures Shows(es + [Exit(m)], Release(Sharing(), s, m)) && Inv(Sharing(), s)
  {
    RunLast(Sharing(), es, Exit(m));
    hide Release, Run, Legal, PoolInv, TraceInv;
  }

  /** The state after k hooks of the second iteration. */
  ghost function After(k: nat): Result<State, Failure>
    requires k <= |SECOND|
  {
    if Legal(History(k)) then Run(Sharing(), History(k)) else Err(RunPastTrace)
  }

  lemma {:induction false} AfterIs(k: nat, s: State)
    requires k <= |SECOND| && Shows(History(k), s)
    ensures After(k) == Ok(s)
  {
  }

  /** A legal run of the code in which parameter 7 is prefetched for step 2 during step 0, is available during
      step 1, is freed by the release just before step 2, and is gathered a second time at step 2. */
  lemma {:induction false} PrefetchedThenFreed()
    ensures Sharing().maxReuse == 0 && Sharing().WellFormed()
    ensures forall k :: 0 <= k <= |SECOND| ==> Legal(History(k)) && After(k).Ok?
    ensures Prefetched7(After(1).value) && Using7(After(3).value) && Lost7(After(4).value)
    ensures var before, after := After(4).value.pool.handles, After(5).value.pool.handles;
            |after| == |before| + 1 && after[|before|].params == [7]
  {
    hide *;
    IsWellFormed();
    HistoriesLegal();
    HistoryNext(0);
    HistoryNext(1);
    HistoryNext(2);
    HistoryNext(3);
    HistoryNext(4);
    var s0 := SecondStarts();
    ReadyMoves(s0);
    EnterShows(History(0), s0, 0);
    FirstFetch(s0);
    var s1 := Fetch(Sharing(), s0, 0);
    ExitShows(History(1), s1, 0);
    ReleaseOther(s1);
    var s2 := Release(Sharing(), s1, 0);
    Prefetched7Moves(s2);
    EnterShows(History(2), s2, 1);
    SecondFetch(s2);
    var s3 := Fetch(Sharing(), s2, 1);
    ExitShows(History(3), s3, 1);
    ReleaseLoses(s3);
    var s4 := Release(Sharing(), s3, 1);
    Lost7Moves(s4);
    EnterShows(History(4), s4, 2);
    ThirdFetch(s4);
    AfterIs(0, s0);
    AfterIs(1, s1);
    AfterIs(2, s2);
    AfterIs(3, s3);
    AfterIs(4, s4);
    AfterIs(5, Fetch(Sharing(), s4, 2));
  }

  lemma {:induction false} IsWellFormed()
    ensures Sharing().maxReuse == 0 && Sharing().WellFormed() && |SECOND| == 5
    ensures SECOND[0] == Enter(0) && SECOND[1] == Exit(0) && SECOND[2] == Enter(1)
         && SECOND[3] == Exit(1) && SECOND[4] == Enter(2)
  {
  }

  lemma {:induction false} ReadyMoves(s: State)
    requires Ready(s)
    ensures s.trace.mode == Complete && s.trace.stepId == 0 && s.trace.moduleOrder == ORDER && s.trace.queue.Some?
    ensures |ORDER| == 3 && ORDER[0] == 0
  {
    hide Inv;
  }

  lemma {:induction false} Prefetched7Moves(s: State)
    requires Prefetched7(s)
    ensures s.trace.mode == Complete && s.trace.stepId == 1 && s.trace.moduleOrder == ORDER && s.trace.queue.Some?
    ensures |ORDER| == 3 && ORDER[1] == 1
  {
  }

  lemma {:induction false} Lost7Moves(s: State)
    requires Lost7(s)
    ensures s.trace.mode == Complete && s.trace.stepId == 2 && s.trace.moduleOrder == ORDER && s.trace.queue.Some?
    ensures |ORDER| == 3 && ORDER[2] == 2
  {
  }
}
