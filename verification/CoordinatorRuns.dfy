/** Whole runs of the coordinator: what every legal sequence of hook calls keeps, and when it succeeds.

    A run is a list of events. Modules may nest and share parameters in any way; the only rules are
    that a module is released only after it was fetched, and that everything is partitioned only
    between iterations. */
module CoordinatorRuns {
  import opened Prelude
  import opened CoordinatorState
  import opened CoordinatorPool
  import opened CoordinatorTrace

  datatype Event = Enter(m: int) | Exit(m: int) | EndIteration | PartitionAll

  // -------------------------------------------------------------- invariant

  /** Registered parameters are needed at this step or later; what was promised to a later step is live,
      and with a positive reuse distance what was promised to this step is live too. */
  ghost predicate Promise(cfg: Config, s: State)
  {
    && (forall p :: p in s.pool.registry ==> s.trace.MostRecent(p) >= s.trace.stepId)
    && (forall p :: s.trace.MostRecent(p) > s.trace.stepId ==> s.pool.Live(p))
    && (cfg.maxReuse > 0 ==> forall p :: s.trace.MostRecent(p) >= s.trace.stepId ==> s.pool.Live(p))
  }

  ghost predicate TraceInv(cfg: Config, s: State)
  {
    match s.trace.mode
    case Record => RecordInv(s.trace) && s.trace.paramOrder == [] && s.pool.registry == map[]
    case Complete => ReplayInv(cfg, s.trace) && Promise(cfg, s)
    case Invalid => s.trace.moduleOrder == [] && s.trace.paramOrder == [] && s.trace.queue.None?
  }

  ghost predicate Inv(cfg: Config, s: State)
  {
    PoolInv(s.pool) && TraceInv(cfg, s)
  }

  lemma InitialInv(cfg: Config)
    ensures Inv(cfg, Initial)
  {
  }

  // --------------------------------------------------------------- prefetch

  ghost predicate ScanFacts(cfg: Config, s: Pool, q: seq<Entry>, r: Prefetched)
  {
    && r.count <= |q|
    && (forall i :: 0 <= i < r.count ==> s.Live(q[i].param) || q[i].param in r.wanted)
    && (forall p :: p in r.wanted ==> s.StatusOf(p) == NotAvailable && p in ParamsIn(q[..r.count]))
    && r.size == SetSum(r.wanted, cfg.numel)
  }

  lemma ScanStepFacts(cfg: Config, s: Pool, q: seq<Entry>, acc: Prefetched)
    requires ScanFacts(cfg, s, q, acc) && acc.count < |q|
    ensures ScanFacts(cfg, s, q, ScanStep(cfg, s, q[acc.count].param, acc))
  {
    var n, p := acc.count, q[acc.count].param;
    assert q[..n + 1] == q[..n] + [q[n]];
    assert ParamsIn(q[..n + 1]) == ParamsIn(q[..n]) + {p};
    if p !in acc.wanted {
      SetSumRemove(acc.wanted + {p}, p, cfg.numel);
      assert acc.wanted + {p} - {p} == acc.wanted;
    }
  }

  lemma {:induction false} ScanKeepsFacts(cfg: Config, s: Pool, q: seq<Entry>, acc: Prefetched, budget: int)
    requires ScanFacts(cfg, s, q, acc)
    ensures ScanFacts(cfg, s, q, PrefetchScan(cfg, s, q[acc.count..], acc, budget))
    decreases |q| - acc.count
  {
    var n := acc.count;
    if n < |q| && acc.size < budget {
      assert q[n..][0] == q[n] && q[n..][1..] == q[n + 1..];
      ScanStepFacts(cfg, s, q, acc);
      ScanKeepsFacts(cfg, s, q, ScanStep(cfg, s, q[n].param, acc), budget);
    }
  }

  /** Every entry the prefetch loop pops is live already or asked for; it asks only for partitioned parameters. */
  lemma ScanCovers(cfg: Config, s: Pool, q: seq<Entry>)
    ensures ScanFacts(cfg, s, q, Scan(cfg, s, q))
  {
    assert q[0..] == q;
    ScanKeepsFacts(cfg, s, q, Prefetched(0, {}, 0), Budget(cfg, s));
  }

  lemma {:induction false} ScanGrows(cfg: Config, s: Pool, q: seq<Entry>, acc: Prefetched, budget: int)
    ensures acc.wanted <= PrefetchScan(cfg, s, q, acc, budget).wanted
    decreases |q|
  {
    if q != [] && acc.size < budget {
      ScanGrows(cfg, s, q[1..], ScanStep(cfg, s, q[0].param, acc), budget);
    }
  }

  // ------------------------------------------------------------------ fetch

  /** The pool once the module's own parameters have arrived, before any prefetch. */
  ghost function Fetched(cfg: Config, s: Pool, m: int): Pool
  {
    FetchWait(AllGather(cfg, s, cfg.ParamsOf(m)), cfg.ParamsOf(m), m)
  }

  /** After the wait every parameter of the module is available, used by it, and unregistered; nothing was lost. */
  lemma FetchedReady(cfg: Config, s: Pool, m: int)
    requires PoolInv(s)
    ensures PoolInv(Fetched(cfg, s, m))
    ensures forall p :: p in cfg.ParamsOf(m) ==>
              Fetched(cfg, s, m).StatusOf(p) == Available && p !in Fetched(cfg, s, m).registry
              && m in Fetched(cfg, s, m).ActiveOf(p)
    ensures Serves(cfg, s, Fetched(cfg, s, m), m)
    ensures forall p :: s.ActiveOf(p) <= Fetched(cfg, s, m).ActiveOf(p)
  {
    var ps := cfg.ParamsOf(m);
    var g := AllGather(cfg, s, ps);
    AllGatherKeeps(cfg, s, ps);
    FetchWaitKeeps(g, ps, m);
    FetchWaitReady(g, ps, m);
    forall p
      ensures p in Fetched(cfg, s, m).registry <==> p in s.registry && p !in ps
      ensures s.ActiveOf(p) <= Fetched(cfg, s, m).ActiveOf(p)
      ensures p in ps ==> m in Fetched(cfg, s, m).ActiveOf(p)
    {
      AllGatherStatus(cfg, s, ps, p);
      FetchWaitStatus(g, ps, m, p);
    }
  }

  /** The trace after the first queue loop, seen from the next step. */
  function NextTrace(cfg: Config, t: Trace, m: int): Trace
    requires t.queue.Some?
  {
    Discarded(cfg, t, m).(stepId := t.stepId + 1)
  }

  ghost predicate MovesOn(t: Trace, r: Trace)
  {
    && r.stepId == t.stepId + 1
    && (forall p :: r.MostRecent(p) > t.stepId ==> t.MostRecent(p) > t.stepId)
    && (forall p :: t.MostRecent(p) <= r.MostRecent(p))
  }

  /** Popping entries of the current step only changes no answer beyond the current step. */
  lemma PopNow(cfg: Config, t: Trace, r: Trace, front: seq<Entry>, p: int)
    requires ReplayInv(cfg, t) && ReplayInv(cfg, r)
    requires Popped(r) == Popped(t) + front
    requires forall e :: e in front ==> e.step == t.stepId
    ensures r.MostRecent(p) > t.stepId ==> t.MostRecent(p) > t.stepId
    ensures t.MostRecent(p) <= r.MostRecent(p)
  {
    MostRecentMeans(cfg, t, p);
    MostRecentMeans(cfg, r, p);
    MostRecentNever(cfg, r, p);
  }

  /** The first queue loop moves the trace to the next step: it pops only entries of the current one. */
  lemma DiscardKeeps(cfg: Config, t: Trace, m: int)
    requires ReplayInv(cfg, t)
    requires t.stepId < |t.moduleOrder| && m == t.moduleOrder[t.stepId]
    ensures ReplayInv(cfg, NextTrace(cfg, t, m))
    ensures MovesOn(t, NextTrace(cfg, t, m))
  {
    var n := QueuedNow(cfg, t);
    DiscardIsQueuedNow(cfg, t);
    QueuedNowShape(cfg, t);
    PopKeeps(cfg, t, n, t.stepId + 1);
    var r := NextTrace(cfg, t, m);
    assert r == Pop(t, n).(stepId := t.stepId + 1);
    forall p ensures t.MostRecent(p) <= r.MostRecent(p)
      ensures r.MostRecent(p) > t.stepId ==> t.MostRecent(p) > t.stepId
    {
      PopNow(cfg, t, r, t.queue.value[..n], p);
    }
  }

  lemma MostRecentNever(cfg: Config, t: Trace, p: int)
    requires ReplayInv(cfg, t)
    ensures t.MostRecent(p) >= NEVER
  {
    MostRecentMeans(cfg, t, p);
    if t.MostRecent(p) != NEVER {
      TraceEntries(cfg, t.moduleOrder, 0, Entry(p, t.MostRecent(p)));
    }
  }

  /** What fetching module m does to the pool, as far as the promise is concerned. */
  ghost predicate Serves(cfg: Config, s: Pool, r: Pool, m: int)
  {
    && (forall p :: p in r.registry ==> p in s.registry && p !in cfg.ParamsOf(m))
    && (forall p :: s.Live(p) ==> r.Live(p))
  }

  lemma AdvancePromise(cfg: Config, s: State, pool: Pool, t: Trace, m: int)
    requires ReplayInv(cfg, s.trace) && Promise(cfg, s)
    requires s.trace.stepId < |s.trace.moduleOrder| && m == s.trace.moduleOrder[s.trace.stepId]
    requires MovesOn(s.trace, t) && Serves(cfg, s.pool, pool, m)
    ensures Promise(cfg, State(pool, t))
  {
    forall p | p in pool.registry ensures t.MostRecent(p) >= t.stepId {
      MostRecentMeans(cfg, s.trace, p);
      assert s.trace.MostRecent(p) != s.trace.stepId;
    }
  }

  /** Up to the prefetch, a replayed fetch keeps the promise for the next step. */
  lemma FetchedPromise(cfg: Config, s: State, m: int)
    requires Inv(cfg, s) && s.trace.mode == Complete
    requires s.trace.stepId < |s.trace.moduleOrder| && m == s.trace.moduleOrder[s.trace.stepId]
    ensures PoolInv(Fetched(cfg, s.pool, m))
    ensures ReplayInv(cfg, NextTrace(cfg, s.trace, m))
    ensures Promise(cfg, State(Fetched(cfg, s.pool, m), NextTrace(cfg, s.trace, m)))
  {
    FetchedReady(cfg, s.pool, m);
    DiscardKeeps(cfg, s.trace, m);
    AdvancePromise(cfg, s, Fetched(cfg, s.pool, m), NextTrace(cfg, s.trace, m), m);
  }

  lemma PrefetchPromise(cfg: Config, s: State)
    requires PoolInv(s.pool) && ReplayInv(cfg, s.trace) && Promise(cfg, s)
    ensures var scan := Scan(cfg, s.pool, s.trace.queue.value);
            var r := State(AllGather(cfg, s.pool, scan.wanted), Pop(s.trace, scan.count));
            PoolInv(r.pool) && ReplayInv(cfg, r.trace) && Promise(cfg, r)
  {
    var q := s.trace.queue.value;
    var scan := Scan(cfg, s.pool, q);
    var r := State(AllGather(cfg, s.pool, scan.wanted), Pop(s.trace, scan.count));
    ScanCovers(cfg, s.pool, q);
    AllGatherKeeps(cfg, s.pool, scan.wanted);
    SuffixTail(q, TraceFrom(cfg, s.trace.moduleOrder, s.trace.stepId), scan.count);
    PopKeeps(cfg, s.trace, scan.count, s.trace.stepId);
    assert r.trace == Pop(s.trace, scan.count).(stepId := s.trace.stepId);
    forall p
      ensures r.trace.MostRecent(p) >= s.trace.MostRecent(p)
      ensures r.trace.MostRecent(p) == s.trace.MostRecent(p) || r.pool.Live(p)
      ensures p in scan.wanted ==> r.trace.MostRecent(p) >= s.trace.stepId
    {
      PoppedMore(cfg, s.trace, scan.count, p);
      if r.trace.MostRecent(p) != s.trace.MostRecent(p) {
        var e := Entry(p, r.trace.MostRecent(p));
        var i :| 0 <= i < scan.count && q[i] == e;
        assert s.pool.Live(q[i].param) || q[i].param in scan.wanted;
      }
      if p in scan.wanted {
        var e :| e in q[..scan.count] && e.param == p;
        assert e in q && e in TraceFrom(cfg, s.trace.moduleOrder, s.trace.stepId);
        TraceEntries(cfg, s.trace.moduleOrder, s.trace.stepId, e);
      }
    }
    forall p | p in r.pool.registry ensures r.trace.MostRecent(p) >= s.trace.stepId {
      AllGatherStatus(cfg, s.pool, scan.wanted, p);
    }
  }

  lemma SuffixTail<T>(a: seq<T>, b: seq<T>, n: nat)
    requires Suffix(a, b) && n <= |a|
    ensures Suffix(a[n..], b)
  {
  }

  lemma PoppedMore(cfg: Config, t: Trace, n: nat, p: int)
    requires ReplayInv(cfg, t) && n <= |t.queue.value|
    requires ReplayInv(cfg, Pop(t, n))
    requires Popped(Pop(t, n)) == Popped(t) + t.queue.value[..n]
    ensures var r := Pop(t, n);
            && r.MostRecent(p) >= t.MostRecent(p)
            && (r.MostRecent(p) != t.MostRecent(p) ==> Entry(p, r.MostRecent(p)) in t.queue.value[..n])
            && (forall e :: e in t.queue.value[..n] && e.param == p ==> e.step <= r.MostRecent(p))
  {
    MostRecentMeans(cfg, t, p);
    MostRecentMeans(cfg, Pop(t, n), p);
    MostRecentNever(cfg, Pop(t, n), p);
    MostRecentNever(cfg, t, p);
  }

  /** Fetching the module the trace expects keeps everything. */
  lemma ReplayFetchKeeps(cfg: Config, s: State, m: int)
    requires Inv(cfg, s) && s.trace.mode == Complete
    requires s.trace.stepId < |s.trace.moduleOrder| && m == s.trace.moduleOrder[s.trace.stepId]
    ensures Inv(cfg, Fetch(cfg, s, m))
  {
    var mid := State(Fetched(cfg, s.pool, m), NextTrace(cfg, s.trace, m));
    FetchedPromise(cfg, s, m);
    FetchIsPrefetch(cfg, s, m);
    if cfg.prefetchBucket > 0 {
      PrefetchPromise(cfg, mid);
    }
  }

  /** A replayed fetch is: own parameters first, then the prefetch on what is left of the queue. */
  lemma FetchIsPrefetch(cfg: Config, s: State, m: int)
    requires s.trace.mode == Complete && s.trace.queue.Some?
    ensures var mid := State(Fetched(cfg, s.pool, m), NextTrace(cfg, s.trace, m));
            var scan := Scan(cfg, mid.pool, mid.trace.queue.value);
            Fetch(cfg, s, m) == if cfg.prefetchBucket <= 0 then mid else
              State(AllGather(cfg, mid.pool, scan.wanted), Pop(mid.trace, scan.count))
  {
    hide AllGather, FetchWait, Scan, MarkPopped, DiscardCount, NotYetFetched, Config.ParamsOf;
  }

  // -------------------------------------------------------------- all events

  ghost function EnterModule(cfg: Config, s: State, m: int): Result<State, Failure>
    requires Inv(cfg, s)
  {
    match Prologue(s.trace, m)
    case Err(f) => Err(f)
    case Ok(t) => Ok(Fetch(cfg, State(s.pool, t), m))
  }

  /** Outside a replay a fetch only gathers and waits. */
  lemma PlainFetch(cfg: Config, s: State, m: int)
    requires s.trace.mode != Complete
    ensures Fetch(cfg, s, m) == State(Fetched(cfg, s.pool, m), s.trace.(stepId := s.trace.stepId + 1))
  {
  }

  lemma FetchedQuiet(cfg: Config, s: Pool, m: int)
    requires PoolInv(s) && s.registry == map[]
    ensures Fetched(cfg, s, m).registry == map[]
  {
    FetchedReady(cfg, s, m);
    EmptyMap(Fetched(cfg, s, m).registry);
  }

  /** So it leaves nothing new in flight. */
  lemma PlainFetchKeeps(cfg: Config, s: State, m: int)
    requires PoolInv(s.pool) && s.trace.mode != Complete
    ensures Fetch(cfg, s, m) == State(Fetched(cfg, s.pool, m), s.trace.(stepId := s.trace.stepId + 1))
    ensures PoolInv(Fetched(cfg, s.pool, m))
    ensures s.pool.registry == map[] ==> Fetched(cfg, s.pool, m).registry == map[]
  {
    PlainFetch(cfg, s, m);
    FetchedReady(cfg, s.pool, m);
    if s.pool.registry == map[] { FetchedQuiet(cfg, s.pool, m); }
  }

  /** A hook call keeps the invariant. It fails only by running past the end of a completed trace. */
  lemma EnterKeeps(cfg: Config, s: State, m: int)
    requires Inv(cfg, s)
    ensures EnterModule(cfg, s, m).Err? <==>
            s.trace.mode == Complete && s.trace.stepId == |s.trace.moduleOrder|
    ensures EnterModule(cfg, s, m).Ok? ==> Inv(cfg, EnterModule(cfg, s, m).value)
  {
    var p := Prologue(s.trace, m);
    if p.Ok? {
      var u := State(s.pool, p.value);
      match s.trace.mode
      case Record =>
        RecordModuleKeeps(s.trace, m);
        PlainFetchKeeps(cfg, u, m);
      case Invalid =>
        PlainFetchKeeps(cfg, u, m);
      case Complete =>
        if m == s.trace.moduleOrder[s.trace.stepId] {
          assert u == s;
          ReplayFetchKeeps(cfg, s, m);
        } else {
          PlainFetchKeeps(cfg, u, m);
        }
    }
  }

  /** The module of the current step is inside the look-ahead window exactly when the window is not empty. */
  lemma {:induction false} LookAheadShrinks(cfg: Config, order: seq<int>, traversed: nat, candidates: set<int>)
    ensures LookAhead(cfg, order, traversed, candidates) <= candidates
    decreases |order|
  {
    if order != [] && traversed < cfg.maxReuse {
      LookAheadShrinks(cfg, order[1..], traversed + ListSize(cfg, cfg.moduleParams(order[0])),
                       candidates - cfg.ParamsOf(order[0]));
    }
  }

  /** Releasing never frees a parameter promised to a later step; with a positive reuse distance it does
      not free one promised to the coming step either. */
  lemma ReleaseSparesPromised(cfg: Config, s: State, m: int, p: int)
    requires Inv(cfg, s) && s.trace.mode == Complete
    requires s.trace.MostRecent(p) > s.trace.stepId || (cfg.maxReuse > 0 && s.trace.MostRecent(p) == s.trace.stepId)
    ensures p !in ParamsToRelease(cfg, s.trace, m)
  {
    var t := s.trace;
    var order := t.moduleOrder[t.stepId..];
    var candidates := set x | x in cfg.ParamsOf(m) && !cfg.persist(x) && t.MostRecent(x) <= t.stepId;
    LookAheadShrinks(cfg, order, 0, candidates);
    MostRecentMeans(cfg, t, p);
    if t.MostRecent(p) == t.stepId {
      assert order[0] == t.moduleOrder[t.stepId];
      LookAheadShrinks(cfg, order[1..], ListSize(cfg, cfg.moduleParams(order[0])), candidates - cfg.ParamsOf(order[0]));
    }
  }

  lemma ReleaseKeeps(cfg: Config, s: State, m: int)
    requires Inv(cfg, s)
    requires forall p :: p in cfg.ParamsOf(m) ==> m in s.pool.ActiveOf(p)
    ensures Inv(cfg, Release(cfg, s, m))
  {
    var toRelease := ParamsToRelease(cfg, s.trace, m);
    var r := Release(cfg, s, m);
    LeaveKeeps(cfg, s.pool, cfg.ParamsOf(m), m, toRelease);
    if s.trace.mode == Complete {
      forall p | s.trace.MostRecent(p) > s.trace.stepId
                 || (cfg.maxReuse > 0 && s.trace.MostRecent(p) >= s.trace.stepId)
        ensures r.pool.Live(p)
      {
        ReleaseSparesPromised(cfg, s, m, p);
        LeaveStatus(cfg, s.pool, cfg.ParamsOf(m), m, toRelease, p);
      }
    }
  }

  /** Ending an iteration fails exactly when something is still registered; otherwise the next iteration
      starts from a full queue. */
  lemma ResetKeeps(cfg: Config, s: State)
    requires Inv(cfg, s)
    ensures Reset(cfg, s).Err? <==> s.pool.registry != map[]
    ensures Reset(cfg, s).Ok? ==>
              var r := Reset(cfg, s).value;
              && Inv(cfg, r) && r.trace.stepId == 0 && r.trace.mostRecent == map[]
              && r.pool == s.pool.(nAvailable := 0)
              && r.trace.moduleOrder == s.trace.moduleOrder
              && (r.trace.mode == if s.trace.mode == Invalid then Record else Complete)
  {
    if s.pool.registry == map[] {
      var r := Reset(cfg, s).value;
      if s.trace.mode == Record { RebuildIsTrace(cfg, s.trace); }
      if r.trace.mode == Complete {
        assert r.trace.paramOrder == TraceFrom(cfg, r.trace.moduleOrder, 0);
        assert Popped(r.trace) == [];
      }
    }
  }

  /** While recording, every module's queue holds its own steps. */
  lemma RecordFifos(cfg: Config, s: State)
    requires Inv(cfg, s) && s.trace.mode == Record
    ensures FifosFrom(s.trace.moduleOrder, 0, s.trace.fetchedFor)
  {
    assert s.trace.moduleOrder[0..] == s.trace.moduleOrder;
    forall m ensures (if m in s.trace.fetchedFor then s.trace.fetchedFor[m] else [])
                  == StepsOf(s.trace.moduleOrder[0..], m, 0)
    {
      assert s.trace.FetchedFor(m) == StepsOf(s.trace.moduleOrder, m, 0);
    }
  }

  lemma PartitionAllKeeps(cfg: Config, s: State)
    requires Inv(cfg, s) && s.pool.registry == map[] && s.trace.mostRecent == map[]
    ensures Inv(cfg, s.(pool := ReleaseAll(cfg, s.pool, SetOf(cfg.allParams))))
  {
    ReleaseAllKeeps(cfg, s.pool, SetOf(cfg.allParams));
    var r := s.(pool := ReleaseAll(cfg, s.pool, SetOf(cfg.allParams)));
    assert forall p :: r.trace.MostRecent(p) == NEVER;
  }

  // -------------------------------------------------------------------- runs

  /** The hook discipline: which modules are open, and whether an iteration has just ended. */
  datatype Bracket = Bracket(open: set<int>, between: bool)

  predicate Allowed(b: Bracket, e: Event)
  {
    match e
    case Enter(m) => true
    case Exit(m) => m in b.open
    case EndIteration => true
    case PartitionAll => b.between
  }

  function AfterEvent(b: Bracket, e: Event): Bracket
  {
    match e
    case Enter(m) => Bracket(b.open + {m}, false)
    case Exit(m) => Bracket(b.open - {m}, b.between)
    case EndIteration => b.(between := true)
    case PartitionAll => Bracket({}, true)
  }

  function Brackets(es: seq<Event>): Bracket
  {
    if es == [] then Bracket({}, true) else AfterEvent(Brackets(es[..|es| - 1]), es[|es| - 1])
  }

  predicate Legal(es: seq<Event>)
  {
    es == [] || (Legal(es[..|es| - 1]) && Allowed(Brackets(es[..|es| - 1]), es[|es| - 1]))
  }

  ghost predicate RunInv(cfg: Config, b: Bracket, s: State)
  {
    && Inv(cfg, s)
    && (forall m, p :: m in b.open && p in cfg.ParamsOf(m) ==> m in s.pool.ActiveOf(p))
    && (b.between ==> s.pool.registry == map[] && s.trace.mostRecent == map[] && s.trace.stepId == 0)
  }

  ghost function StepRun(cfg: Config, s: State, e: Event): Result<State, Failure>
    requires Inv(cfg, s)
  {
    match e
    case Enter(m) => EnterModule(cfg, s, m)
    case Exit(m) => Ok(Release(cfg, s, m))
    case EndIteration => Reset(cfg, s)
    case PartitionAll => Ok(s.(pool := ReleaseAll(cfg, s.pool, SetOf(cfg.allParams))))
  }

  lemma EnterKeepsUsers(cfg: Config, s: State, m: int)
    requires Inv(cfg, s) && EnterModule(cfg, s, m).Ok?
    ensures var r := EnterModule(cfg, s, m).value;
            && (forall p :: s.pool.ActiveOf(p) <= r.pool.ActiveOf(p))
            && (forall p :: p in cfg.ParamsOf(m) ==> m in r.pool.ActiveOf(p))
  {
    var u := State(s.pool, Prologue(s.trace, m).value);
    FetchedReady(cfg, s.pool, m);
    if u.trace.mode == Complete {
      FetchIsPrefetch(cfg, u, m);
      forall p, ps: set<int>
        ensures AllGather(cfg, Fetched(cfg, s.pool, m), ps).ActiveOf(p) == Fetched(cfg, s.pool, m).ActiveOf(p)
      {
        AllGatherStatus(cfg, Fetched(cfg, s.pool, m), ps, p);
      }
    }
  }

  lemma EnterKeepsRun(cfg: Config, b: Bracket, s: State, m: int)
    requires RunInv(cfg, b, s)
    ensures EnterModule(cfg, s, m).Ok? ==> RunInv(cfg, AfterEvent(b, Enter(m)), EnterModule(cfg, s, m).value)
  {
    EnterKeeps(cfg, s, m);
    if EnterModule(cfg, s, m).Ok? { EnterKeepsUsers(cfg, s, m); }
  }

  lemma ExitKeepsRun(cfg: Config, b: Bracket, s: State, m: int)
    requires RunInv(cfg, b, s) && m in b.open
    ensures RunInv(cfg, AfterEvent(b, Exit(m)), Release(cfg, s, m))
  {
    ReleaseKeeps(cfg, s, m);
    forall x, p | x in b.open - {m} && p in cfg.ParamsOf(x)
      ensures x in Release(cfg, s, m).pool.ActiveOf(p)
    {
      LeaveStatus(cfg, s.pool, cfg.ParamsOf(m), m, ParamsToRelease(cfg, s.trace, m), p);
    }
  }

  lemma SameUsers(cfg: Config, b: Bracket, s: State, r: State)
    requires RunInv(cfg, b, s) && s.pool.registry == map[]
    requires Inv(cfg, r) && r.pool == s.pool.(nAvailable := 0)
    requires r.trace.stepId == 0 && r.trace.mostRecent == map[]
    ensures RunInv(cfg, b.(between := true), r)
  {
    forall m, p | m in b.open && p in cfg.ParamsOf(m) ensures m in r.pool.ActiveOf(p) {
      assert m in s.pool.ActiveOf(p);
    }
  }

  lemma EndKeepsRun(cfg: Config, b: Bracket, s: State)
    requires RunInv(cfg, b, s)
    ensures Reset(cfg, s).Ok? ==> RunInv(cfg, b.(between := true), Reset(cfg, s).value)
  {
    ResetKeeps(cfg, s);
    if Reset(cfg, s).Ok? { SameUsers(cfg, b, s, Reset(cfg, s).value); }
  }

  /** Every allowed event keeps the invariant. */
  lemma StepKeeps(cfg: Config, b: Bracket, s: State, e: Event)
    requires RunInv(cfg, b, s) && Allowed(b, e)
    ensures StepRun(cfg, s, e).Ok? ==> RunInv(cfg, AfterEvent(b, e), StepRun(cfg, s, e).value)
  {
    match e
    case Enter(m) => EnterKeepsRun(cfg, b, s, m);
    case Exit(m) => ExitKeepsRun(cfg, b, s, m);
    case EndIteration => EndKeepsRun(cfg, b, s);
    case PartitionAll => PartitionAllKeeps(cfg, s);
  }

  /** The result of a legal run from construction: the state reached, or the first failure. */
  ghost function Run(cfg: Config, es: seq<Event>): (r: Result<State, Failure>)
    requires Legal(es)
    ensures r.Ok? ==> RunInv(cfg, Brackets(es), r.value)
  {
    if es == [] then InitialInv(cfg); Ok(Initial) else
      var before := Run(cfg, es[..|es| - 1]);
      if before.Err? then before else
        StepKeeps(cfg, Brackets(es[..|es| - 1]), before.value, es[|es| - 1]);
        StepRun(cfg, before.value, es[|es| - 1])
  }

  lemma {:induction false} LegalUpTo(es: seq<Event>, k: nat)
    requires Legal(es) && k <= |es|
    ensures Legal(es[..k])
    decreases |es|
  {
    if k == |es| {
      assert es[..k] == es;
    } else {
      LegalUpTo(es[..|es| - 1], k);
      assert es[..|es| - 1][..k] == es[..k];
    }
  }

  /** A run and its last event. */
  lemma {:induction false} RunTo(cfg: Config, es: seq<Event>, n: nat)
    requires n < |es| && Legal(es[..n + 1])
    ensures Legal(es[..n]) && Allowed(Brackets(es[..n]), es[n])
    ensures var before := Run(cfg, es[..n]);
            && (before.Ok? ==> RunInv(cfg, Brackets(es[..n]), before.value))
            && Run(cfg, es[..n + 1]) == if before.Err? then before else StepRun(cfg, before.value, es[n])
  {
    assert es[..n + 1][..n] == es[..n];
    hide StepRun, RunInv, Inv;
  }

  lemma {:induction false} RunOfNothing(cfg: Config)
    ensures Legal([]) && Run(cfg, []) == Ok(Initial)
  {
  }
}
