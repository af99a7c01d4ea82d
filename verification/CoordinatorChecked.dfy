/** The coordinator with every check of the code left in, and its loops over sets run one parameter at a time.

    CoordinatorState says what each operation does when nothing is wrong. Here each operation runs the code's
    loops in whatever order a set happens to be visited, and every raise and assert is decided, where it stands,
    by its own condition on the state of the moment. The two agree on every legal run. */
module CoordinatorChecked {
  import opened Prelude
  import opened CoordinatorState
  import opened CoordinatorPool
  import opened CoordinatorTrace
  import opened CoordinatorRuns
  import opened CoordinatorLoops

  /** The order in which a loop visits a set. */
  type Order = set<int> -> seq<int>

  ghost predicate Enumerates(o: Order)
  {
    forall ps: set<int> :: Distinct(o(ps)) && SetOf(o(ps)) == ps
  }

  /** Ascending order is one. */
  lemma {:induction false} AscendingEnumerates()
    ensures exists o: Order :: Enumerates(o)
  {
    var o: Order := ps => Sorted(ps);
    forall ps: set<int> ensures Distinct(o(ps)) && SetOf(o(ps)) == ps {
      SortedAscends(ps);
      forall i, j | 0 <= i < j < |o(ps)| ensures o(ps)[i] != o(ps)[j] { assert o(ps)[i] < o(ps)[j]; }
      forall x ensures x in SetOf(o(ps)) <==> x in ps { SortedMember(ps, x); }
    }
    assert Enumerates(o);
  }

  type Turn = (Pool, int) -> Result<Pool, Failure>

  /** A loop over a list, ending at the first failure. */
  function Loop(xs: seq<int>, s: Pool, turn: Turn): Result<Pool, Failure>
  {
    if xs == [] then Ok(s) else
      match Loop(xs[..|xs| - 1], s, turn)
      case Err(f) => Err(f)
      case Ok(a) => turn(a, xs[|xs| - 1])
  }

  /** The i-th turn takes what spec says of the parameters before it to what spec says with its own. */
  ghost predicate Follows(xs: seq<int>, turn: Turn, spec: set<int> -> Pool, i: nat)
    requires i < |xs|
  {
    turn(spec(SetOf(xs[..i])), xs[i]) == Ok(spec(SetOf(xs[..i]) + {xs[i]}))
  }

  lemma {:induction false} LoopFollows(xs: seq<int>, s: Pool, turn: Turn, spec: set<int> -> Pool)
    requires spec({}) == s
    requires forall i :: 0 <= i < |xs| ==> Follows(xs, turn, spec, i)
    ensures Loop(xs, s, turn) == Ok(spec(SetOf(xs)))
  {
    LoopFollowsTo(xs, s, turn, spec, |xs|);
    assert xs[..|xs|] == xs;
  }

  lemma {:induction false} LoopFollowsTo(xs: seq<int>, s: Pool, turn: Turn, spec: set<int> -> Pool, n: nat)
    requires n <= |xs| && spec({}) == s
    requires forall i :: 0 <= i < |xs| ==> Follows(xs, turn, spec, i)
    ensures Loop(xs[..n], s, turn) == Ok(spec(SetOf(xs[..n])))
    decreases n
  {
    if n == 0 {
      assert SetOf(xs[..0]) == {};
    } else {
      LoopFollowsTo(xs, s, turn, spec, n - 1);
      SetOfNext(xs, n - 1);
      assert xs[..n][..n - 1] == xs[..n - 1];
      assert Follows(xs, turn, spec, n - 1);
    }
  }

  // ------------------------------------------------------------------ gather

  /** all_gather_coalesced marks one parameter. */
  function IssueTurn(a: Pool, p: int): Result<Pool, Failure>
  {
    if a.StatusOf(p) != NotAvailable then Err(GatherNotPartitioned)
    else Ok(a.(status := a.status[p := InFlight]))
  }

  /** One parameter is registered under its handle. */
  function RegisterTurn(a: Pool, p: int, h: nat): Result<Pool, Failure>
  {
    if a.StatusOf(p) != InFlight then Err(IssuedNotInFlight)
    else if p in a.registry then Err(AlreadyRegistered)
    else if a.StatusOf(p) != InFlight then Err(RegisteredNotInFlight)
    else Ok(a.(registry := a.registry[p := h]))
  }

  function RegisterUnder(h: nat): Turn
  {
    (a, p) => RegisterTurn(a, p, h)
  }

  /** __all_gather_params */
  ghost function CheckedGather(cfg: Config, s: Pool, ps: set<int>, o: Order): Result<Pool, Failure>
  {
    var xs := o(s.Missing(ps));
    if xs == [] then Ok(s) else
      match Loop(xs, s.(nAvailable := s.nAvailable + SetSum(s.Missing(ps), cfg.numel)), IssueTurn)
      case Err(f) => Err(f)
      case Ok(a) =>
        var h := |a.handles|;
        Loop(xs, a.(handles := a.handles + [Handle(Sorted(SetOf(xs)), false)]), RegisterUnder(h))
  }

  lemma {:induction false} IssueChecks(s: Pool, xs: seq<int>)
    requires Distinct(xs) && forall p :: p in xs ==> s.StatusOf(p) == NotAvailable
    ensures Loop(xs, s, IssueTurn) == Ok(s.(status := Assign(s.status, SetOf(xs), InFlight)))
  {
    var spec := (ps: set<int>) => s.(status := Assign(s.status, ps, InFlight));
    AssignNone(s.status, InFlight);
    forall i | 0 <= i < |xs| ensures Follows(xs, IssueTurn, spec, i) {
      DistinctPrefix(xs, i);
      AssignOne(s.status, SetOf(xs[..i]), xs[i], InFlight);
      assert spec(SetOf(xs[..i])).StatusOf(xs[i]) == s.StatusOf(xs[i]);
    }
    LoopFollows(xs, s, IssueTurn, spec);
  }

  lemma {:induction false} RegisterChecks(s: Pool, xs: seq<int>, h: nat)
    requires Distinct(xs) && forall p :: p in xs ==> s.StatusOf(p) == InFlight && p !in s.registry
    ensures Loop(xs, s, RegisterUnder(h)) == Ok(s.(registry := Assign(s.registry, SetOf(xs), h)))
  {
    var spec := (ps: set<int>) => s.(registry := Assign(s.registry, ps, h));
    AssignNone(s.registry, h);
    forall i | 0 <= i < |xs| ensures Follows(xs, RegisterUnder(h), spec, i) {
      DistinctPrefix(xs, i);
      AssignOne(s.registry, SetOf(xs[..i]), xs[i], h);
      assert spec(SetOf(xs[..i])).StatusOf(xs[i]) == InFlight;
    }
    LoopFollows(xs, s, RegisterUnder(h), spec);
  }

  lemma {:induction false} MissingOrder(s: Pool, ps: set<int>, o: Order)
    requires PoolInv(s) && Enumerates(o)
    ensures var xs := o(s.Missing(ps));
            && Distinct(xs) && SetOf(xs) == s.Missing(ps)
            && (xs == [] ==> s.Missing(ps) == SetOf<int>([]))
            && forall p :: p in xs ==> s.StatusOf(p) == NotAvailable && p !in s.registry
  {
    var xs := o(s.Missing(ps));
    forall p | p in xs ensures s.StatusOf(p) == NotAvailable && p !in s.registry {
      assert p in SetOf(xs);
      PartitionedIsUnregistered(s, p);
    }
  }

  lemma {:induction false} IssuedFacts(s: Pool, xs: seq<int>, counted: Pool, b: Pool)
    requires forall p :: p in xs ==> s.StatusOf(p) == NotAvailable && p !in s.registry
    requires counted.status == s.status
    requires b.status == Assign(s.status, SetOf(xs), InFlight) && b.registry == s.registry
    ensures forall p :: p in xs ==> counted.StatusOf(p) == NotAvailable
    ensures forall p :: p in xs ==> b.StatusOf(p) == InFlight && p !in b.registry
  {
    forall p | p in xs ensures b.StatusOf(p) == InFlight { assert p in SetOf(xs); }
  }

  /** Gathering raises nothing, in any order. */
  lemma {:induction false} GatherChecks(cfg: Config, s: Pool, ps: set<int>, o: Order)
    requires PoolInv(s) && Enumerates(o)
    ensures CheckedGather(cfg, s, ps, o) == Ok(AllGather(cfg, s, ps))
  {
    hide *;
    MissingOrder(s, ps, o);
    var xs := o(s.Missing(ps));
    if xs == [] {
      GatherNothing(cfg, s, ps);
      NothingIssued(cfg, s, ps, o);
    } else {
      var counted := s.(nAvailable := s.nAvailable + SetSum(s.Missing(ps), cfg.numel));
      var a := counted.(status := Assign(s.status, SetOf(xs), InFlight));
      var b := a.(handles := a.handles + [Handle(Sorted(SetOf(xs)), false)]);
      IssuedFacts(s, xs, counted, b);
      IssueChecks(counted, xs);
      GatherIs(cfg, s, ps, o, a, b);
      RegisterChecks(b, xs, |s.handles|);
      GatherSome(cfg, s, ps, xs, |s.handles|);
    }
  }

  lemma {:induction false} NothingIssued(cfg: Config, s: Pool, ps: set<int>, o: Order)
    requires o(s.Missing(ps)) == []
    ensures CheckedGather(cfg, s, ps, o) == Ok(s)
  {
  }

  lemma {:induction false} GatherIs(cfg: Config, s: Pool, ps: set<int>, o: Order, a: Pool, b: Pool)
    requires var xs := o(s.Missing(ps));
             && xs != []
             && Loop(xs, s.(nAvailable := s.nAvailable + SetSum(s.Missing(ps), cfg.numel)), IssueTurn) == Ok(a)
             && b == a.(handles := a.handles + [Handle(Sorted(SetOf(xs)), false)])
    ensures CheckedGather(cfg, s, ps, o) == Loop(o(s.Missing(ps)), b, RegisterUnder(|a.handles|))
  {
    hide Loop, Sorted, SetOf;
  }

  // -------------------------------------------------------------------- wait

  /** The wait of a coalesced handle, for one parameter. */
  function ArriveTurn(a: Pool, p: int): Result<Pool, Failure>
  {
    if a.StatusOf(p) != InFlight then Err(WaitedNotInFlight)
    else Ok(a.(status := a.status[p := Available]))
  }

  /** The wait of a coalesced handle; only the first does anything. */
  function CheckedWait(a: Pool, h: nat): Result<Pool, Failure>
  {
    if h >= |a.handles| || a.handles[h].complete then Ok(a) else
      match Loop(a.handles[h].params, a, ArriveTurn)
      case Err(f) => Err(f)
      case Ok(b) => Ok(if h < |b.handles| then b.(handles := b.handles[h := b.handles[h].(complete := true)]) else b)
  }

  /** One parameter of the fetch loop: it gets a user and, if registered, is popped and waited for. */
  function UseTurn(a: Pool, p: int, m: int): Result<Pool, Failure>
  {
    var b := a.(active := a.active[p := Users(a.active, p) + {m}]);
    var c := if p in b.registry then CheckedWait(b.(registry := b.registry - {p}), b.registry[p]) else Ok(b);
    match c
    case Err(f) => Err(f)
    case Ok(d) => if d.StatusOf(p) != Available then Err(NotAvailableAfterWait) else Ok(d)
  }

  function UseFor(m: int): Turn
  {
    (a, p) => UseTurn(a, p, m)
  }

  lemma {:induction false} ArriveChecks(s: Pool, xs: seq<int>)
    requires Distinct(xs) && forall p :: p in xs ==> s.StatusOf(p) == InFlight
    ensures Loop(xs, s, ArriveTurn) == Ok(s.(status := Assign(s.status, SetOf(xs), Available)))
  {
    var spec := (ps: set<int>) => s.(status := Assign(s.status, ps, Available));
    AssignNone(s.status, Available);
    forall i | 0 <= i < |xs| ensures Follows(xs, ArriveTurn, spec, i) {
      DistinctPrefix(xs, i);
      AssignOne(s.status, SetOf(xs[..i]), xs[i], Available);
      assert spec(SetOf(xs[..i])).StatusOf(xs[i]) == s.StatusOf(xs[i]);
    }
    LoopFollows(xs, s, ArriveTurn, spec);
  }

  lemma {:induction false} UseTurnChecks(a: Pool, p: int, m: int)
    requires TurnReady(a, p)
    ensures UseTurn(a, p, m) == Ok(TurnDone(a, p, m))
  {
    var b := a.(active := a.active[p := Users(a.active, p) + {m}], registry := a.registry - {p});
    if p in a.registry && !a.handles[a.registry[p]].complete {
      var xs := a.handles[a.registry[p]].params;
      forall i, j | 0 <= i < j < |xs| ensures xs[i] != xs[j] { assert xs[i] < xs[j]; }
      forall q | q in xs ensures b.StatusOf(q) == InFlight { assert a.StatusOf(q) == InFlight; }
      ArriveChecks(b, xs);
      assert p in SetOf(xs);
    } else if p !in a.registry {
      assert a.registry - {p} == a.registry;
    }
    hide Loop;
  }

  /** Waiting raises nothing, in any order. */
  lemma {:induction false} UseChecks(s: Pool, ps: set<int>, m: int, o: Order)
    requires PoolInv(s) && Enumerates(o) && forall p :: p in ps ==> s.Live(p)
    ensures Loop(o(ps), s, UseFor(m)) == Ok(FetchWait(s, ps, m))
  {
    var xs := o(ps);
    var spec := (done: set<int>) => FetchWait(s, done, m);
    WaitNothing(s, m);
    assert SetOf(xs) == ps && Distinct(xs);
    hide FetchWait, PoolInv, UseTurn, Enumerates;
    forall i | 0 <= i < |xs| ensures Follows(xs, UseFor(m), spec, i) {
      DistinctPrefix(xs, i);
      assert xs[i] in SetOf(xs);
      TurnFacts(s, SetOf(xs[..i]), xs[i], m);
      UseTurnChecks(FetchWait(s, SetOf(xs[..i]), m), xs[i], m);
    }
    LoopFollows(xs, s, UseFor(m), spec);
  }

  // ------------------------------------------------------------------- fetch

  /** The first queue loop, with its check. */
  function CheckedDiscard(cfg: Config, t: Trace, m: int): Result<Trace, Failure>
  {
    var expected := NotYetFetched(cfg, t, m);
    var q := t.queue.GetOr([]);
    var discarded := q[..DiscardCount(q, {}, |expected|)];
    if ParamsIn(discarded) != expected then Err(TracingError)
    else if t.queue.None? then Ok(t)
    else Ok(Pop(t, |discarded|))
  }

  /** fetch_sub_module */
  ghost function CheckedFetch(cfg: Config, s: State, m: int, o: Order): Result<State, Failure>
  {
    match CheckedGather(cfg, s.pool, cfg.ParamsOf(m), o)
    case Err(f) => Err(f)
    case Ok(a) =>
      match Loop(o(cfg.ParamsOf(m)), a, UseFor(m))
      case Err(f) => Err(f)
      case Ok(pool) => if s.trace.mode == Complete then CheckedAdvance(cfg, pool, s.trace, m, o)
                       else Ok(State(pool, s.trace.(stepId := s.trace.stepId + 1)))
  }

  /** The part of a fetch only a replay adds. */
  ghost function CheckedAdvance(cfg: Config, pool: Pool, t: Trace, m: int, o: Order): Result<State, Failure>
  {
    match CheckedDiscard(cfg, t, m)
    case Err(f) => Err(f)
    case Ok(u) =>
      if cfg.prefetchBucket <= 0 || u.queue.None? then Ok(State(pool, u.(stepId := u.stepId + 1))) else
        var scan := Scan(cfg, pool, u.queue.value);
        match CheckedGather(cfg, pool, scan.wanted, o)
        case Err(f) => Err(f)
        case Ok(ahead) => Ok(State(ahead, Pop(u, scan.count).(stepId := u.stepId + 1)))
  }

  lemma {:induction false} DiscardChecks(cfg: Config, t: Trace, m: int)
    requires ReplayInv(cfg, t) && t.stepId < |t.moduleOrder| && m == t.moduleOrder[t.stepId]
    ensures t.queue.Some? && CheckedDiscard(cfg, t, m) == Ok(Discarded(cfg, t, m))
  {
    DiscardExact(cfg, t, m);
  }

  /** A replay's part of a fetch, once its loops are known to raise nothing. */
  lemma {:induction false} AdvanceIs(cfg: Config, pool: Pool, t: Trace, m: int, o: Order, u: Trace)
    requires CheckedDiscard(cfg, t, m) == Ok(u) && u.queue.Some?
    ensures cfg.prefetchBucket <= 0 ==> CheckedAdvance(cfg, pool, t, m, o) == Ok(State(pool, u.(stepId := u.stepId + 1)))
    ensures var scan := Scan(cfg, pool, u.queue.value);
            cfg.prefetchBucket > 0 && CheckedGather(cfg, pool, scan.wanted, o) == Ok(AllGather(cfg, pool, scan.wanted)) ==>
              CheckedAdvance(cfg, pool, t, m, o)
              == Ok(State(AllGather(cfg, pool, scan.wanted), Pop(u.(stepId := u.stepId + 1), scan.count)))
  {
    hide CheckedDiscard, CheckedGather, AllGather, Scan, MarkPopped;
  }

  lemma {:induction false} NextIs(cfg: Config, t: Trace, m: int)
    requires t.queue.Some?
    ensures var u := Discarded(cfg, t, m);
            NextTrace(cfg, t, m) == u.(stepId := u.stepId + 1)
  {
  }

  lemma {:induction false} AdvanceChecks(cfg: Config, s: State, m: int, o: Order)
    requires PoolInv(s.pool) && ReplayInv(cfg, s.trace) && Enumerates(o)
    requires s.trace.mode == Complete && s.trace.stepId < |s.trace.moduleOrder| && m == s.trace.moduleOrder[s.trace.stepId]
    ensures s.trace.queue.Some?
    ensures CheckedAdvance(cfg, Fetched(cfg, s.pool, m), s.trace, m, o) == Ok(Fetch(cfg, s, m))
  {
    hide *;
    DiscardChecks(cfg, s.trace, m);
    FetchedReady(cfg, s.pool, m);
    var u, pool := Discarded(cfg, s.trace, m), Fetched(cfg, s.pool, m);
    GatherChecks(cfg, pool, Scan(cfg, pool, u.queue.value).wanted, o);
    AdvanceIs(cfg, pool, s.trace, m, o, u);
    NextIs(cfg, s.trace, m);
    FetchIsPrefetch(cfg, s, m);
  }

  /** Fetching raises nothing, in any order. */
  lemma {:induction false} FetchChecks(cfg: Config, s: State, m: int, o: Order)
    requires PoolInv(s.pool) && Enumerates(o)
    requires s.trace.mode == Complete ==>
               && ReplayInv(cfg, s.trace)
               && s.trace.stepId < |s.trace.moduleOrder| && m == s.trace.moduleOrder[s.trace.stepId]
    ensures s.trace.mode == Complete ==> s.trace.queue.Some?
    ensures CheckedFetch(cfg, s, m, o) == Ok(Fetch(cfg, s, m))
  {
    var ps := cfg.ParamsOf(m);
    GatherChecks(cfg, s.pool, ps, o);
    AllGatherKeeps(cfg, s.pool, ps);
    UseChecks(AllGather(cfg, s.pool, ps), ps, m, o);
    if s.trace.mode == Complete { AdvanceChecks(cfg, s, m, o); } else { PlainFetch(cfg, s, m); }
    assert Fetched(cfg, s.pool, m) == FetchWait(AllGather(cfg, s.pool, ps), ps, m);
    hide Fetched, AllGather, FetchWait, ReplayInv, PoolInv, CheckedGather, CheckedAdvance, Fetch, Loop;
  }

  // ------------------------------------------------------------------- trace

  function CheckedInvalidate(t: Trace): Result<Trace, Failure>
  {
    if t.mode == Invalid then Err(InvalidateTwice) else Ok(Invalidate(t))
  }

  function CheckedRecord(t: Trace, m: int): Result<Trace, Failure>
  {
    if t.mode != Record then Err(RecordOutsideRecording) else Ok(RecordModule(t, m))
  }

  /** trace_prologue, then record_module while recording. */
  function CheckedPrologue(t: Trace, m: int): Result<Trace, Failure>
  {
    var r :=
      if t.mode != Complete then Ok(t)
      else if t.stepId >= |t.moduleOrder| then Err(RunPastTrace)
      else if t.moduleOrder[t.stepId] != m then CheckedInvalidate(t)
      else Ok(t);
    match r
    case Err(f) => Err(f)
    case Ok(u) => if u.mode == Record then CheckedRecord(u, m) else Ok(u)
  }

  lemma {:induction false} PrologueChecks(t: Trace, m: int)
    ensures CheckedPrologue(t, m) == Prologue(t, m)
  {
  }

  /** construct_parameter_trace_from_module_trace, run in the given mode. */
  ghost function CheckedRebuild(cfg: Config, mode: Mode, order: seq<int>, fifos: map<int, seq<int>>): Result<seq<Entry>, Failure>
    decreases |order|
  {
    if order == [] then Ok([])
    else if mode != Record then Err(RecordOutsideRecording)
    else if order[0] !in fifos || fifos[order[0]] == [] then Err(NoStepLeft)
    else
      var q := fifos[order[0]];
      match CheckedRebuild(cfg, mode, order[1..], fifos[order[0] := q[1..]])
      case Err(f) => Err(f)
      case Ok(rest) => Ok(StepEntries(cfg, order[0], q[0]) + rest)
  }

  lemma {:induction false} RebuildChecks(cfg: Config, order: seq<int>, i: nat, fifos: map<int, seq<int>>)
    requires i <= |order| && FifosFrom(order, i, fifos)
    ensures CheckedRebuild(cfg, Record, order[i..], fifos) == Ok(Rebuild(cfg, order[i..], fifos))
    decreases |order| - i
  {
    if i < |order| {
      FifosAdvance(order, i, fifos);
      assert order[i..][0] == order[i] && order[i..][1..] == order[i + 1..];
      RebuildChecks(cfg, order, i + 1, fifos[order[i] := fifos[order[i]][1..]]);
    }
  }

  /** reset_step */
  ghost function CheckedReset(cfg: Config, s: State): Result<State, Failure>
  {
    if s.pool.registry != map[] then Err(StillInFlight) else
      var t := s.trace;
      match (if t.mode == Record then CheckedRebuild(cfg, t.mode, t.moduleOrder, t.fetchedFor) else Ok(t.paramOrder))
      case Err(f) => Err(f)
      case Ok(order) =>
        Ok(State(s.pool.(nAvailable := 0),
                 Trace(0, if t.mode == Invalid then Record else Complete, t.moduleOrder, order, map[], map[], Some(order))))
  }

  lemma {:induction false} ResetChecks(cfg: Config, s: State)
    requires Inv(cfg, s)
    ensures CheckedReset(cfg, s) == Reset(cfg, s)
  {
    if s.trace.mode == Record {
      RecordFifos(cfg, s);
      RebuildChecks(cfg, s.trace.moduleOrder, 0, s.trace.fetchedFor);
      assert s.trace.moduleOrder[0..] == s.trace.moduleOrder;
    }
  }

  // ----------------------------------------------------------------- release

  /** __release_param, with the assert of free_param. */
  function CheckedRelease(cfg: Config, a: Pool, p: int): Result<Pool, Failure>
  {
    if a.StatusOf(p) != Available || Users(a.active, p) != {} then Ok(a)
    else if a.ActiveOf(p) != {} then Err(FreedInUse)
    else Ok(a.(status := a.status[p := NotAvailable], nAvailable := a.nAvailable - cfg.numel(p)))
  }

  function LeaveTurn(cfg: Config, a: Pool, p: int, m: int, toRelease: set<int>): Result<Pool, Failure>
  {
    var b := a.(active := a.active[p := Users(a.active, p) - {m}]);
    if p in toRelease && !cfg.external(p) then CheckedRelease(cfg, b, p) else Ok(b)
  }

  function LeaveFor(cfg: Config, m: int, toRelease: set<int>): Turn
  {
    (a, p) => LeaveTurn(cfg, a, p, m, toRelease)
  }

  function CheckedCandidates(cfg: Config, t: Trace, m: int): Result<set<int>, Failure>
  {
    if t.mode != Complete then Err(NoTraceToReleaseBy) else Ok(ParamsToRelease(cfg, t, m))
  }

  /** release_sub_module */
  function CheckedLeave(cfg: Config, s: State, m: int): Result<State, Failure>
  {
    match (if s.trace.mode == Complete then CheckedCandidates(cfg, s.trace, m) else Ok(cfg.ParamsOf(m)))
    case Err(f) => Err(f)
    case Ok(toRelease) =>
      match Loop(cfg.moduleParams(m), s.pool, LeaveFor(cfg, m, toRelease))
      case Err(f) => Err(f)
      case Ok(pool) => Ok(s.(pool := pool))
  }

  lemma {:induction false} LeaveTurnChecks(cfg: Config, s: Pool, done: set<int>, p: int, m: int, toRelease: set<int>)
    ensures LeaveTurn(cfg, Leave(cfg, s, done, m, toRelease), p, m, toRelease) == Ok(Leave(cfg, s, done + {p}, m, toRelease))
  {
    LeaveOne(cfg, s, done, p, m, toRelease);
    hide Leave;
  }

  lemma {:induction false} LeaveChecks(cfg: Config, s: State, m: int)
    ensures CheckedLeave(cfg, s, m) == Ok(Release(cfg, s, m))
  {
    var xs, rel := cfg.moduleParams(m), ParamsToRelease(cfg, s.trace, m);
    var spec := (done: set<int>) => Leave(cfg, s.pool, done, m, rel);
    LeaveNothing(cfg, s.pool, m, rel);
    hide LeaveTurn, Leave;
    forall i | 0 <= i < |xs| ensures Follows(xs, LeaveFor(cfg, m, rel), spec, i) {
      LeaveTurnChecks(cfg, s.pool, SetOf(xs[..i]), xs[i], m, rel);
    }
    LoopFollows(xs, s.pool, LeaveFor(cfg, m, rel), spec);
    hide Loop;
  }

  function ReleaseAllTurn(cfg: Config, a: Pool, p: int): Result<Pool, Failure>
  {
    if p in a.registry then Err(ReleasedInFlight) else CheckedRelease(cfg, a.(active := a.active[p := {}]), p)
  }

  function ReleaseAny(cfg: Config): Turn
  {
    (a, p) => ReleaseAllTurn(cfg, a, p)
  }

  /** One turn of the closing loop. */
  function PartitionedTurn(a: Pool, p: int): Result<Pool, Failure>
  {
    if a.StatusOf(p) != NotAvailable then Err(NotReleased) else Ok(a)
  }

  /** release_and_reset_all */
  function CheckedReleaseAll(cfg: Config, s: Pool): Result<Pool, Failure>
  {
    match Loop(cfg.allParams, s, ReleaseAny(cfg))
    case Err(f) => Err(f)
    case Ok(a) => Loop(cfg.allParams, a, PartitionedTurn)
  }

  lemma {:induction false} ReleaseAllTurnChecks(cfg: Config, s: Pool, done: set<int>, p: int)
    requires s.registry == map[]
    ensures ReleaseAllTurn(cfg, ReleaseAll(cfg, s, done), p) == Ok(ReleaseAll(cfg, s, done + {p}))
  {
    ReleaseAllOne(cfg, s, done, p);
    ReleaseAllStatus(cfg, s, done, p);
    hide ReleaseAll;
  }

  lemma {:induction false} ReleaseAllChecks(cfg: Config, s: Pool)
    requires PoolInv(s) && s.registry == map[]
    ensures CheckedReleaseAll(cfg, s) == Ok(ReleaseAll(cfg, s, SetOf(cfg.allParams)))
  {
    var xs := cfg.allParams;
    var spec := (done: set<int>) => ReleaseAll(cfg, s, done);
    ReleaseAllNothing(cfg, s);
    ReleaseAllKeeps(cfg, s, SetOf(xs));
    hide ReleaseAll, ReleaseAllTurn, PoolInv;
    forall i | 0 <= i < |xs| ensures Follows(xs, ReleaseAny(cfg), spec, i) {
      ReleaseAllTurnChecks(cfg, s, SetOf(xs[..i]), xs[i]);
    }
    LoopFollows(xs, s, ReleaseAny(cfg), spec);
    var r := ReleaseAll(cfg, s, SetOf(xs));
    var same := (done: set<int>) => r;
    forall i | 0 <= i < |xs| ensures Follows(xs, PartitionedTurn, same, i) {
      assert xs[i] in SetOf(xs);
    }
    LoopFollows(xs, r, PartitionedTurn, same);
    hide Loop;
  }

  // -------------------------------------------------------------------- runs

  ghost function CheckedEnter(cfg: Config, s: State, m: int, o: Order): Result<State, Failure>
  {
    match CheckedPrologue(s.trace, m)
    case Err(f) => Err(f)
    case Ok(t) => CheckedFetch(cfg, State(s.pool, t), m, o)
  }

  ghost function CheckedStep(cfg: Config, s: State, e: Event, o: Order): Result<State, Failure>
  {
    match e
    case Enter(m) => CheckedEnter(cfg, s, m, o)
    case Exit(m) => CheckedLeave(cfg, s, m)
    case EndIteration => CheckedReset(cfg, s)
    case PartitionAll =>
      match CheckedReleaseAll(cfg, s.pool)
      case Err(f) => Err(f)
      case Ok(pool) => Ok(s.(pool := pool))
  }

  /** A run from construction in which the sets of the i-th event are visited in the order orders[i]. */
  ghost function CheckedRun(cfg: Config, es: seq<Event>, orders: seq<Order>): Result<State, Failure>
    requires |orders| == |es|
  {
    if es == [] then Ok(Initial) else
      match CheckedRun(cfg, es[..|es| - 1], orders[..|es| - 1])
      case Err(f) => Err(f)
      case Ok(s) => CheckedStep(cfg, s, es[|es| - 1], orders[|es| - 1])
  }

  lemma {:induction false} EnterChecks(cfg: Config, s: State, m: int, o: Order)
    requires Inv(cfg, s) && Enumerates(o)
    ensures CheckedEnter(cfg, s, m, o) == EnterModule(cfg, s, m)
  {
    PrologueChecks(s.trace, m);
    if Prologue(s.trace, m).Ok? {
      var t := Prologue(s.trace, m).value;
      assert t.mode == Complete ==> t == s.trace;
      FetchChecks(cfg, State(s.pool, t), m, o);
    }
    hide CheckedFetch, Fetch, CheckedPrologue, Prologue, PoolInv, ReplayInv;
  }

  lemma {:induction false} StepChecks(cfg: Config, b: Bracket, s: State, e: Event, o: Order)
    requires RunInv(cfg, b, s) && Allowed(b, e) && Enumerates(o)
    ensures CheckedStep(cfg, s, e, o) == StepRun(cfg, s, e)
  {
    match e
    case Enter(m) => EnterChecks(cfg, s, m, o);
    case Exit(m) => LeaveChecks(cfg, s, m);
    case EndIteration => ResetChecks(cfg, s);
    case PartitionAll => ReleaseAllChecks(cfg, s.pool);
  }

  /** What makes an event fail: the trace runs out in a module entry, or something is registered at the end. */
  ghost predicate Fails(s: State, e: Event)
  {
    || (e.Enter? && s.trace.mode == Complete && s.trace.stepId == |s.trace.moduleOrder|)
    || (e.EndIteration? && s.pool.registry != map[])
  }

  /** The run is fine up to the k-th event, which fails. */
  ghost predicate FailsAt(cfg: Config, es: seq<Event>, k: nat)
    requires k < |es|
  {
    Legal(es[..k]) && Run(cfg, es[..k]).Ok? && Fails(Run(cfg, es[..k]).value, es[k])
  }

  /** On every legal run, and whatever order every set is visited in, the code with all its checks does what
      the specification says... */
  lemma {:induction false} EveryOrderAgrees(cfg: Config, es: seq<Event>, orders: seq<Order>)
    requires Legal(es) && |orders| == |es| && forall o :: o in orders ==> Enumerates(o)
    ensures CheckedRun(cfg, es, orders) == Run(cfg, es)
    decreases |es|
  {
    if es != [] {
      var n := |es| - 1;
      EveryOrderAgrees(cfg, es[..n], orders[..n]);
      if Run(cfg, es[..n]).Ok? {
        StepChecks(cfg, Brackets(es[..n]), Run(cfg, es[..n]).value, es[n], orders[n]);
      }
    }
  }

  lemma {:induction false} StepFails(cfg: Config, b: Bracket, s: State, e: Event)
    requires RunInv(cfg, b, s) && Allowed(b, e)
    ensures StepRun(cfg, s, e).Err? <==> Fails(s, e)
    ensures StepRun(cfg, s, e).Err? ==> StepRun(cfg, s, e).error == if e.Enter? then RunPastTrace else StillInFlight
  {
    if e.Enter? { EnterKeeps(cfg, s, e.m); }
  }

  /** ...so of all its raises and asserts only two can ever fire: the trace runs out in a module entry, or
      something is registered when an iteration ends. */
  lemma {:induction false} OnlyTwoFailures(cfg: Config, es: seq<Event>, orders: seq<Order>)
    requires Legal(es) && |orders| == |es| && forall o :: o in orders ==> Enumerates(o)
    ensures var r := CheckedRun(cfg, es, orders);
            && (r.Err? <==> exists k :: 0 <= k < |es| && FailsAt(cfg, es, k))
            && (r.Err? ==> r.error == RunPastTrace || r.error == StillInFlight)
  {
    EveryOrderAgrees(cfg, es, orders);
    assert es[..|es|] == es;
    hide *;
    FailuresTo(cfg, es, |es|);
  }

  lemma {:induction false} FailuresTo(cfg: Config, es: seq<Event>, n: nat)
    requires n <= |es| && Legal(es[..n])
    ensures var r := Run(cfg, es[..n]);
            && (r.Err? <==> exists k :: 0 <= k < n && FailsAt(cfg, es, k))
            && (r.Err? ==> r.error == RunPastTrace || r.error == StillInFlight)
    decreases n
  {
    hide *;
    if n == 0 {
      RunOfNothing(cfg);
      assert es[..0] == [];
    } else {
      RunTo(cfg, es, n - 1);
      FailuresTo(cfg, es, n - 1);
      FailsAtIs(cfg, es, n - 1);
      var before := Run(cfg, es[..n - 1]);
      if before.Ok? { StepFails(cfg, Brackets(es[..n - 1]), before.value, es[n - 1]); }
    }
  }

  lemma {:induction false} FailsAtIs(cfg: Config, es: seq<Event>, k: nat)
    requires k < |es| && Legal(es[..k])
    ensures FailsAt(cfg, es, k) <==> Run(cfg, es[..k]).Ok? && Fails(Run(cfg, es[..k]).value, es[k])
  {
  }
}
