/** The state of the parameter coordinator and the effect of each of its operations, as values.

    Two halves change almost independently and are kept apart:
    - Pool: where every parameter is (partitioned, in flight, available), which modules use it,
      the in-flight registry and the handles it points to;
    - Trace: the recorded order of module calls and the prefetch queue derived from it.

    Nothing here depends on the order in which a set is iterated. Coordinator.dfy proves that the
    code, which does iterate over sets, always lands in the state these functions name. */
module CoordinatorState {
  import opened Prelude

  datatype Status = NotAvailable | InFlight | Available

  datatype Mode = Record | Complete | Invalid

  /** One asynchronous all-gather: its parameters in wire order, and whether it was waited for. */
  datatype Handle = Handle(params: seq<int>, complete: bool)

  /** A use of a parameter in the recorded trace. */
  datatype Entry = Entry(param: int, step: int)

  /** What never changes: module contents, parameter attributes and the coordinator's limits.
      Modules are named by their id, parameters by their ds_id. */
  datatype Config = Config(
    moduleParams: int -> seq<int>,
    allParams: seq<int>,
    numel: int -> nat,
    persist: int -> bool,
    external: int -> bool,
    prefetchBucket: int,
    maxReuse: int,
    maxAvailable: int)
  {
    function ParamsOf(m: int): set<int> { SetOf(moduleParams(m)) }

    /** The recursive parameter list of the root covers every module. */
    ghost predicate WellFormed()
    {
      forall m: int, p: int :: p in moduleParams(m) ==> p in allParams
    }
  }

  /** The default of the "last fetched for" dictionary. */
  const NEVER: int := -10000000000

  datatype Pool = Pool(
    status: map<int, Status>,
    active: map<int, set<int>>,
    registry: map<int, nat>,
    handles: seq<Handle>,
    nAvailable: int)
  {
    function StatusOf(p: int): Status { if p in status then status[p] else NotAvailable }
    function ActiveOf(p: int): set<int> { Users(active, p) }

    predicate Live(p: int) { StatusOf(p) != NotAvailable }
    function LiveSet(): set<int> { set p | p in status.Keys && status[p] != NotAvailable }
    function Missing(ps: set<int>): set<int> { set p | p in ps && StatusOf(p) == NotAvailable }
  }

  datatype Trace = Trace(
    stepId: nat,
    mode: Mode,
    moduleOrder: seq<int>,
    paramOrder: seq<Entry>,
    mostRecent: map<int, int>,
    fetchedFor: map<int, seq<int>>,
    queue: Option<seq<Entry>>)
  {
    function MostRecent(p: int): int { if p in mostRecent then mostRecent[p] else NEVER }
    function FetchedFor(m: int): seq<int> { if m in fetchedFor then fetchedFor[m] else [] }
  }

  datatype State = State(pool: Pool, trace: Trace)

  const EmptyPool := Pool(map[], map[], map[], [], 0)

  const Initial := State(EmptyPool, Trace(0, Record, [], [], map[], map[], None))

  // ------------------------------------------------------------------ pool

  /** One coalesced gather of those parameters of ps that are partitioned. */
  ghost function AllGather(cfg: Config, s: Pool, ps: set<int>): Pool
  {
    var miss := s.Missing(ps);
    if miss == {} then s else
      s.(status := Assign(s.status, miss, InFlight),
         registry := Assign(s.registry, miss, |s.handles|),
         handles := s.handles + [Handle(Sorted(miss), false)],
         nAvailable := s.nAvailable + SetSum(miss, cfg.numel))
  }

  /** Handles that must be waited for before every parameter of ps is usable. */
  function Waited(s: Pool, ps: set<int>): set<nat>
  {
    set p | p in ps && p in s.registry :: s.registry[p]
  }

  /** Parameters that arrive when the handles hs complete. */
  function Arriving(s: Pool, hs: set<nat>): set<int>
  {
    set q | q in s.registry.Keys && s.registry[q] in hs && s.StatusOf(q) == InFlight
  }

  function Users(active: map<int, set<int>>, p: int): set<int>
  {
    if p in active then active[p] else {}
  }

  function WithUser(active: map<int, set<int>>, ps: set<int>, m: int): map<int, set<int>>
  {
    active + map p | p in ps :: Users(active, p) + {m}
  }

  function WithoutUser(active: map<int, set<int>>, ps: set<int>, m: int): map<int, set<int>>
  {
    active + map p | p in ps :: Users(active, p) - {m}
  }

  function Completed(handles: seq<Handle>, hs: set<nat>): seq<Handle>
  {
    seq(|handles|, i requires 0 <= i < |handles| =>
      if i in hs then handles[i].(complete := true) else handles[i])
  }

  /** Module m becomes a user of ps, and each parameter of ps still registered is popped and waited for. */
  function FetchWait(s: Pool, ps: set<int>, m: int): Pool
  {
    var hs := Waited(s, ps);
    s.(status := Assign(s.status, Arriving(s, hs), Available),
       active := WithUser(s.active, ps, m),
       registry := s.registry - ps,
       handles := Completed(s.handles, hs))
  }

  /** Parameters partitioned again when m stops using ps and may release those in toRelease. */
  function Freed(cfg: Config, s: Pool, ps: set<int>, m: int, toRelease: set<int>): set<int>
  {
    set p | p in ps && p in toRelease && !cfg.external(p) &&
            s.StatusOf(p) == Available && s.ActiveOf(p) - {m} == {}
  }

  ghost function Leave(cfg: Config, s: Pool, ps: set<int>, m: int, toRelease: set<int>): Pool
  {
    var freed := Freed(cfg, s, ps, m, toRelease);
    s.(status := Assign(s.status, freed, NotAvailable),
       active := WithoutUser(s.active, ps, m),
       nAvailable := s.nAvailable - SetSum(freed, cfg.numel))
  }

  function AvailableIn(s: Pool, ps: set<int>): set<int>
  {
    set p | p in ps && s.StatusOf(p) == Available
  }

  /** Every parameter of ps loses its users; the available ones are partitioned. */
  ghost function ReleaseAll(cfg: Config, s: Pool, ps: set<int>): Pool
  {
    var freed := AvailableIn(s, ps);
    s.(status := Assign(s.status, freed, NotAvailable),
       active := Assign(s.active, ps, {}),
       nAvailable := s.nAvailable - SetSum(freed, cfg.numel))
  }

  // ----------------------------------------------------------------- trace

  function Invalidate(t: Trace): Trace
  {
    t.(mode := Invalid, moduleOrder := [], paramOrder := [], mostRecent := map[], queue := None)
  }

  function RecordModule(t: Trace, m: int): Trace
  {
    t.(moduleOrder := t.moduleOrder + [m],
       fetchedFor := t.fetchedFor[m := t.FetchedFor(m) + [t.stepId]])
  }

  /** Marking popped queue entries as fetched, oldest first. */
  function MarkPopped(mr: map<int, int>, es: seq<Entry>): map<int, int>
  {
    if es == [] then mr else
      var before := MarkPopped(mr, es[..|es| - 1]);
      before[es[|es| - 1].param := es[|es| - 1].step]
  }

  /** Parameters of m not yet accounted for at this step. */
  function NotYetFetched(cfg: Config, t: Trace, m: int): set<int>
  {
    set p | p in cfg.ParamsOf(m) && t.MostRecent(p) < t.stepId
  }

  /** How many entries the first loop pops: it stops at the end of the queue or as soon as it has
      seen as many different parameters as expected. */
  function DiscardCount(q: seq<Entry>, seen: set<int>, target: nat): (n: nat)
    ensures n <= |q|
  {
    if q != [] && |seen| < target then 1 + DiscardCount(q[1..], seen + {q[0].param}, target) else 0
  }

  function ParamsIn(es: seq<Entry>): set<int>
  {
    set e | e in es :: e.param
  }

  /** What the prefetch loop does with a queue: entries it pops, parameters it asks for, their size. */
  datatype Prefetched = Prefetched(count: nat, wanted: set<int>, size: nat)

  /** One turn of the prefetch loop, for an entry of parameter p. */
  function ScanStep(cfg: Config, s: Pool, p: int, acc: Prefetched): Prefetched
  {
    if s.StatusOf(p) == NotAvailable && p !in acc.wanted
    then Prefetched(acc.count + 1, acc.wanted + {p}, acc.size + cfg.numel(p))
    else acc.(count := acc.count + 1)
  }

  function PrefetchScan(cfg: Config, s: Pool, q: seq<Entry>, acc: Prefetched, budget: int): Prefetched
    decreases |q|
  {
    if q == [] || acc.size >= budget then acc else
      PrefetchScan(cfg, s, q[1..], ScanStep(cfg, s, q[0].param, acc), budget)
  }

  function Min(a: int, b: int): int { if a < b then a else b }

  /** Popping n entries off the front of the queue. */
  function Pop(t: Trace, n: nat): Trace
    requires t.queue.Some? && n <= |t.queue.value|
  {
    t.(queue := Some(t.queue.value[n..]), mostRecent := MarkPopped(t.mostRecent, t.queue.value[..n]))
  }

  // ------------------------------------------------------------- operations

  /** Every error the code can raise, by its check. */
  datatype Failure =
    | RunPastTrace           // the completed trace has no further module
    | InvalidateTwice        // a trace given up already is given up
    | RecordOutsideRecording // a module or its parameters are recorded in another mode
    | NoStepLeft             // a module's queue of steps runs out
    | GatherNotPartitioned   // a gather of a parameter that is not partitioned
    | IssuedNotInFlight      // a parameter not in flight after its gather was issued
    | AlreadyRegistered      // a parameter registered twice
    | RegisteredNotInFlight  // a parameter registered that is not in flight
    | WaitedNotInFlight      // a gather completes for a parameter that is not in flight
    | NotAvailableAfterWait  // a fetched parameter that is not available
    | TracingError           // the queue holds other parameters than this step expects
    | NoTraceToReleaseBy     // release candidates asked for without a completed trace
    | FreedInUse             // a parameter freed while a module uses it
    | StillInFlight          // an iteration ends with something registered
    | ReleasedInFlight       // a registered parameter among those to release at the end
    | NotReleased            // a parameter not partitioned after everything was released

  /** trace_prologue followed by record_module, as the pre-forward and pre-backward hooks call them. */
  function Prologue(t: Trace, m: int): Result<Trace, Failure>
  {
    if t.mode == Complete && t.stepId >= |t.moduleOrder| then Err(RunPastTrace)
    else if t.mode == Complete && t.moduleOrder[t.stepId] != m then Ok(Invalidate(t))
    else if t.mode == Record then Ok(RecordModule(t, m))
    else Ok(t)
  }

  function Budget(cfg: Config, s: Pool): int
  {
    Min(cfg.maxAvailable - s.nAvailable, cfg.prefetchBucket)
  }

  /** The first queue loop of a fetch: entries of the current step leave the queue. */
  function Discarded(cfg: Config, t: Trace, m: int): (r: Trace)
    requires t.queue.Some?
    ensures r.queue.Some?
  {
    Pop(t, DiscardCount(t.queue.value, {}, |NotYetFetched(cfg, t, m)|))
  }

  lemma ScanCount(cfg: Config, s: Pool, q: seq<Entry>, acc: Prefetched, budget: int)
    ensures acc.count <= PrefetchScan(cfg, s, q, acc, budget).count <= acc.count + |q|
    decreases |q|
  {
  }

  function Scan(cfg: Config, s: Pool, q: seq<Entry>): (r: Prefetched)
    ensures r.count <= |q|
  {
    ScanCount(cfg, s, q, Prefetched(0, {}, 0), Budget(cfg, s));
    PrefetchScan(cfg, s, q, Prefetched(0, {}, 0), Budget(cfg, s))
  }

  /** fetch_sub_module. */
  ghost function Fetch(cfg: Config, s: State, m: int): State
    requires s.trace.mode == Complete ==> s.trace.queue.Some?
  {
    var pool := FetchWait(AllGather(cfg, s.pool, cfg.ParamsOf(m)), cfg.ParamsOf(m), m);
    if s.trace.mode != Complete then
      State(pool, s.trace.(stepId := s.trace.stepId + 1))
    else
      var t := Discarded(cfg, s.trace, m);
      if cfg.prefetchBucket <= 0 then
        State(pool, t.(stepId := t.stepId + 1))
      else
        var scan := Scan(cfg, pool, t.queue.value);
        State(AllGather(cfg, pool, scan.wanted), Pop(t, scan.count).(stepId := t.stepId + 1))
  }

  /** The total size of a parameter list, repetitions counted. */
  function ListSize(cfg: Config, ps: seq<int>): nat
  {
    if ps == [] then 0 else ListSize(cfg, ps[..|ps| - 1]) + cfg.numel(ps[|ps| - 1])
  }

  /** Candidates that do not occur in the modules of the look-ahead window. */
  function LookAhead(cfg: Config, order: seq<int>, traversed: nat, candidates: set<int>): set<int>
  {
    if order == [] || traversed >= cfg.maxReuse then candidates else
      LookAhead(cfg, order[1..], traversed + ListSize(cfg, cfg.moduleParams(order[0])),
                candidates - cfg.ParamsOf(order[0]))
  }

  function ParamsToRelease(cfg: Config, t: Trace, m: int): set<int>
  {
    if t.mode != Complete then cfg.ParamsOf(m) else
      var candidates := set p | p in cfg.ParamsOf(m) && !cfg.persist(p) && t.MostRecent(p) <= t.stepId;
      LookAhead(cfg, if t.stepId <= |t.moduleOrder| then t.moduleOrder[t.stepId..] else [], 0, candidates)
  }

  /** release_sub_module. */
  ghost function Release(cfg: Config, s: State, m: int): State
  {
    s.(pool := Leave(cfg, s.pool, cfg.ParamsOf(m), m, ParamsToRelease(cfg, s.trace, m)))
  }

  /** The trace of parameter uses from step k on: the modules in order, each with its parameters ascending. */
  ghost function StepEntries(cfg: Config, m: int, k: int): seq<Entry>
  {
    var ps := Sorted(cfg.ParamsOf(m));
    seq(|ps|, i requires 0 <= i < |ps| => Entry(ps[i], k))
  }

  ghost function TraceFrom(cfg: Config, order: seq<int>, k: nat): seq<Entry>
    decreases |order| - k
  {
    if k >= |order| then [] else StepEntries(cfg, order[k], k) + TraceFrom(cfg, order, k + 1)
  }

  /** reset_step. A recorded run becomes the trace to replay, rebuilt by popping each module's queue of
      step ids; an invalidated one makes room for recording again. */
  ghost function Reset(cfg: Config, s: State): Result<State, Failure>
  {
    if s.pool.registry != map[] then Err(StillInFlight) else
      Ok(State(s.pool.(nAvailable := 0), NextIteration(cfg, s.trace)))
  }

  ghost function NextIteration(cfg: Config, t: Trace): Trace
  {
    var order := if t.mode == Record then Rebuild(cfg, t.moduleOrder, t.fetchedFor) else t.paramOrder;
    Trace(0, if t.mode == Invalid then Record else Complete, t.moduleOrder, order, map[], map[], Some(order))
  }

  /** construct_parameter_trace_from_module_trace: each module in order takes the oldest step id of its own queue. */
  ghost function Rebuild(cfg: Config, order: seq<int>, fetchedFor: map<int, seq<int>>): seq<Entry>
    decreases |order|
  {
    if order == [] then [] else
      var m := order[0];
      var q := if m in fetchedFor then fetchedFor[m] else [];
      if q == [] then [] else
        StepEntries(cfg, m, q[0]) + Rebuild(cfg, order[1..], fetchedFor[m := q[1..]])
  }
}
