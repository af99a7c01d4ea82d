/** The coordinator itself: its fields are updated in place, its sets are iterated in any order.

    The status and user set of every parameter object live in tables keyed by ds_id. A check of the
    code that raises or asserts, and that can never fire, stands here as an `assert` at the same place;
    those a caller can bring about (running past the trace, ending an iteration or releasing everything with
    gathers in flight) are results.
    Every method ends in exactly the state CoordinatorState names, whatever order its sets were iterated
    in, so ranks that make the same calls issue the same gathers with the same ordered parameters. */
module Coordinator {
  import opened Prelude
  import opened CoordinatorState
  import opened CoordinatorPool
  import opened CoordinatorTrace
  import opened CoordinatorRuns
  import opened CoordinatorLoops

  /** The loop that pops entries until it has seen `target` different parameters. */
  method DiscardLoop(q0: seq<Entry>, mr0: map<int, int>, target: nat)
    returns (q: seq<Entry>, mr: map<int, int>, discarded: set<int>)
    ensures var n := DiscardCount(q0, {}, target);
            q == q0[n..] && mr == MarkPopped(mr0, q0[..n]) && discarded == ParamsIn(q0[..n])
  {
    hide MarkPopped, ParamsIn;
    q, mr, discarded := q0, mr0, {};
    ghost var n: nat := 0;
    assert q0[..0] == [] && q0[0..] == q0;
    MarkNone(mr0);
    while q != [] && |discarded| < target
      invariant n <= |q0| && q == q0[n..]
      invariant discarded == ParamsIn(q0[..n])
      invariant mr == MarkPopped(mr0, q0[..n])
      invariant n + DiscardCount(q, discarded, target) == DiscardCount(q0, {}, target)
      decreases |q|
    {
      var e := q[0];
      MarkOne(mr0, q0, n);
      mr := mr[e.param := e.step];
      q, discarded, n := q[1..], discarded + {e.param}, n + 1;
    }
  }

  /** The entry at n names a step no smaller than what the dictionary holds when it is popped. */
  ghost predicate Fits(mr0: map<int, int>, q: seq<Entry>, n: nat)
    requires n < |q|
  {
    var mr := MarkPopped(mr0, q[..n]);
    q[n].step >= 0 && (q[n].param in mr ==> mr[q[n].param] <= q[n].step)
  }

  /** The loop that pops entries until the prefetch budget is used up. */
  method PrefetchLoop(cfg: Config, s: Pool, q0: seq<Entry>, mr0: map<int, int>)
    returns (q: seq<Entry>, mr: map<int, int>, wanted: set<int>)
    requires forall n :: 0 <= n < |q0| ==> Fits(mr0, q0, n)
    ensures var scan := Scan(cfg, s, q0);
            q == q0[scan.count..] && mr == MarkPopped(mr0, q0[..scan.count]) && wanted == scan.wanted
  {
    hide MarkPopped;
    var budget := Budget(cfg, s);
    q, mr, wanted := q0, mr0, {};
    var size: nat := 0;
    ghost var n: nat := 0;
    assert q0[..0] == [] && q0[0..] == q0;
    MarkNone(mr0);
    while q != [] && size < budget
      invariant n <= |q0| && q == q0[n..]
      invariant mr == MarkPopped(mr0, q0[..n])
      invariant PrefetchScan(cfg, s, q, Prefetched(n, wanted, size), budget) == Scan(cfg, s, q0)
      decreases |q|
    {
      var e := q[0];
      var before := if e.param in mr then mr[e.param] else NEVER;
      assert Fits(mr0, q0, n);
      MarkOne(mr0, q0, n);
      mr := mr[e.param := if before > e.step then before else e.step];
      if s.StatusOf(e.param) == NotAvailable && e.param !in wanted {
        wanted, size := wanted + {e.param}, size + cfg.numel(e.param);
      }
      q, n := q[1..], n + 1;
    }
  }

  lemma MarkNone(mr: map<int, int>)
    ensures MarkPopped(mr, []) == mr && ParamsIn([]) == {}
  {
  }

  lemma MarkOne(mr: map<int, int>, q: seq<Entry>, n: nat)
    requires n < |q|
    ensures MarkPopped(mr, q[..n + 1]) == MarkPopped(mr, q[..n])[q[n].param := q[n].step]
    ensures ParamsIn(q[..n + 1]) == ParamsIn(q[..n]) + {q[n].param}
  {
    assert q[..n + 1] == q[..n] + [q[n]];
    assert q[..n + 1][..n] == q[..n];
  }

  /** During the prefetch the maximum of the old and the new step is always the new one. */
  lemma NextInQueue(cfg: Config, t: Trace, n: nat)
    requires ReplayInv(cfg, t) && n < |t.queue.value|
    ensures Fits(t.mostRecent, t.queue.value, n)
  {
    hide TraceFrom, MarkPopped;
    var es, q := t.paramOrder, t.queue.value;
    var i := |es| - |q| + n;
    PopSlices(es, q, n);
    PopMarks(es, q, t.mostRecent, n);
    TraceStepsRise(cfg, t.moduleOrder, 0);
    assert es[i] == q[n];
    NextIsLargest(es, i);
    TraceEntries(cfg, t.moduleOrder, 0, es[i]);
  }

  lemma AllFit(cfg: Config, t: Trace)
    requires ReplayInv(cfg, t)
    ensures t.queue.Some? && forall n :: 0 <= n < |t.queue.value| ==> Fits(t.mostRecent, t.queue.value, n)
  {
    forall n | 0 <= n < |t.queue.value| ensures Fits(t.mostRecent, t.queue.value, n) {
      NextInQueue(cfg, t, n);
    }
  }

  /** A fetch in two parts, as the code runs it. */
  lemma FetchParts(cfg: Config, s: State, m: int)
    requires PoolInv(s.pool)
    requires s.trace.mode == Complete ==> s.trace.queue.Some?
    ensures PoolInv(Fetched(cfg, s.pool, m))
    ensures s.trace.mode != Complete ==>
              Fetch(cfg, s, m) == State(Fetched(cfg, s.pool, m), s.trace.(stepId := s.trace.stepId + 1))
    ensures s.trace.mode == Complete ==>
              Fetch(cfg, s, m) == Ahead(cfg, Fetched(cfg, s.pool, m), NextTrace(cfg, s.trace, m))
  {
    FetchedReady(cfg, s.pool, m);
    if s.trace.mode == Complete {
      FetchIsPrefetch(cfg, s, m);
    } else {
      PlainFetch(cfg, s, m);
    }
  }

  /** The prefetch of a replayed fetch. */
  ghost function Ahead(cfg: Config, s: Pool, t: Trace): State
    requires t.queue.Some?
  {
    var scan := Scan(cfg, s, t.queue.value);
    if cfg.prefetchBucket <= 0 then State(s, t) else State(AllGather(cfg, s, scan.wanted), Pop(t, scan.count))
  }

  /** The three things a hook can do to the trace before it fetches. */
  lemma PrologueIs(t: Trace, m: int)
    ensures t.mode == Complete && t.stepId >= |t.moduleOrder| <==> Prologue(t, m).Err?
    ensures t.mode == Complete && t.stepId < |t.moduleOrder| && t.moduleOrder[t.stepId] != m ==>
              Prologue(t, m) == Ok(Invalidate(t)) && Invalidate(t).mode == Invalid
    ensures t.mode == Complete && t.stepId < |t.moduleOrder| && t.moduleOrder[t.stepId] == m ==> Prologue(t, m) == Ok(t)
    ensures t.mode == Record ==> Prologue(t, m) == Ok(RecordModule(t, m)) && RecordModule(t, m).mode == Record
    ensures t.mode == Invalid ==> Prologue(t, m) == Ok(t)
  {
  }

  /** What the hook relies on before it fetches. */
  lemma EnterParts(cfg: Config, s: State, m: int)
    requires Inv(cfg, s)
    ensures PoolInv(s.pool)
    ensures s.trace.mode == Complete ==>
              s.trace.queue.Some? && ReplayInv(cfg, s.trace) && s.trace.stepId <= |s.trace.moduleOrder|
    ensures Prologue(s.trace, m).Ok? ==>
              EnterModule(cfg, s, m) == Ok(Fetch(cfg, State(s.pool, Prologue(s.trace, m).value), m))
  {
  }

  /** Whatever of ps is not registered is not in flight either. */
  ghost predicate Landed(s: Pool, ps: seq<int>)
  {
    forall p :: p in ps && p !in s.registry ==> s.StatusOf(p) != InFlight
  }

  lemma UnregisteredIsLanded(s: Pool, ps: seq<int>)
    requires PoolInv(s)
    ensures Landed(s, ps)
  {
  }

  /** __params_to_release: candidates of the module, less those prefetched for later and those the look-ahead meets. */
  method ReleaseCandidates(cfg: Config, t: Trace, m: int) returns (r: set<int>)
    requires t.mode == Complete && t.stepId <= |t.moduleOrder|
    ensures r == ParamsToRelease(cfg, t, m)
  {
    var ps := cfg.moduleParams(m);
    r := set p | p in cfg.ParamsOf(m) && !cfg.persist(p);
    for i := 0 to |ps|
      invariant r == set p | p in cfg.ParamsOf(m) && !cfg.persist(p) && (p in ps[..i] ==> t.MostRecent(p) <= t.stepId)
    {
      assert ps[..i + 1] == ps[..i] + [ps[i]];
      if t.MostRecent(ps[i]) > t.stepId { r := r - {ps[i]}; }
    }
    assert ps[..|ps|] == ps;
    assert r == set p | p in cfg.ParamsOf(m) && !cfg.persist(p) && t.MostRecent(p) <= t.stepId;
    r := LookAheadLoop(cfg, t.moduleOrder[t.stepId..], r);
  }

  /** The look-ahead loop: modules from the current step on, until their parameters add up to the reuse distance. */
  method LookAheadLoop(cfg: Config, order: seq<int>, candidates: set<int>) returns (r: set<int>)
    ensures r == LookAhead(cfg, order, 0, candidates)
  {
    r := candidates;
    var traversed: nat := 0;
    var j := 0;
    assert order[0..] == order;
    while j < |order| && traversed < cfg.maxReuse
      invariant j <= |order|
      invariant LookAhead(cfg, order[j..], traversed, r) == LookAhead(cfg, order, 0, candidates)
    {
      var ps := cfg.moduleParams(order[j]);
      assert order[j..][1..] == order[j + 1..];
      r, traversed := DropParams(cfg, ps, r, traversed);
      j := j + 1;
    }
  }

  method DropParams(cfg: Config, ps: seq<int>, r0: set<int>, t0: nat) returns (r: set<int>, traversed: nat)
    ensures r == r0 - SetOf(ps) && traversed == t0 + ListSize(cfg, ps)
  {
    r, traversed := r0, t0;
    for i := 0 to |ps|
      invariant r == r0 - SetOf(ps[..i]) && traversed == t0 + ListSize(cfg, ps[..i])
    {
      SetOfNext(ps, i);
      assert ps[..i + 1][..i] == ps[..i];
      r, traversed := r - {ps[i]}, traversed + cfg.numel(ps[i]);
    }
    assert ps[..|ps|] == ps;
  }

  /** construct_parameter_trace_from_module_trace: every module takes the oldest step of its own queue. */
  method BuildParamTrace(cfg: Config, order: seq<int>, fifos0: map<int, seq<int>>) returns (trace: seq<Entry>)
    requires FifosFrom(order, 0, fifos0)
    ensures trace == Rebuild(cfg, order, fifos0)
  {
    hide FifosFrom;
    var fifos := fifos0;
    trace := [];
    assert order[0..] == order;
    for i := 0 to |order|
      invariant FifosFrom(order, i, fifos)
      invariant trace + Rebuild(cfg, order[i..], fifos) == Rebuild(cfg, order, fifos0)
    {
      var m := order[i];
      FifosAdvance(order, i, fifos);
      assert order[i..][0] == m && order[i..][1..] == order[i + 1..];
      var step := fifos[m][0];
      var entries := ModuleEntries(cfg, m, step);
      RebuildNext(cfg, order[i..], fifos);
      assert trace + (entries + Rebuild(cfg, order[i + 1..], fifos[m := fifos[m][1..]]))
          == (trace + entries) + Rebuild(cfg, order[i + 1..], fifos[m := fifos[m][1..]]);
      fifos := fifos[m := fifos[m][1..]];
      trace := trace + entries;
    }
    assert order[|order|..] == [];
  }

  lemma RebuildNext(cfg: Config, order: seq<int>, fifos: map<int, seq<int>>)
    requires order != [] && order[0] in fifos && fifos[order[0]] != []
    ensures Rebuild(cfg, order, fifos) == StepEntries(cfg, order[0], fifos[order[0]][0])
                                        + Rebuild(cfg, order[1..], fifos[order[0] := fifos[order[0]][1..]])
  {
  }

  /** record_parameters: the module's parameters, without repetition, in ascending id order. */
  method ModuleEntries(cfg: Config, m: int, step: int) returns (entries: seq<Entry>)
    ensures entries == StepEntries(cfg, m, step)
  {
    var xs := AnyOrder(cfg.ParamsOf(m));
    var ys := SortIds(xs);
    assert ys == Sorted(cfg.ParamsOf(m));
    ghost var es := StepEntries(cfg, m, step);
    assert |es| == |ys| && forall j :: 0 <= j < |ys| ==> es[j] == Entry(ys[j], step);
    hide *;
    entries := [];
    for j := 0 to |ys|
      invariant entries == es[..j]
    {
      entries := entries + [Entry(ys[j], step)];
    }
    assert es[..|es|] == es;
  }

  /** The entry about to be popped names a step no smaller than the dictionary's: max changes nothing. */
  lemma NextIsLargest(es: seq<Entry>, n: nat)
    requires n < |es| && StepsRise(es)
    ensures es[n].param in Marked(es[..n]) ==> Marked(es[..n])[es[n].param] <= es[n].step
  {
    MarkedIsLargest(es[..n], es[n].param);
    if es[n].param in Marked(es[..n]) {
      var e := Entry(es[n].param, Marked(es[..n])[es[n].param]);
      var i :| 0 <= i < n && es[..n][i] == e;
      assert es[i].step <= es[n].step;
    }
  }

  class PartitionedParameterCoordinator {
    const cfg: Config

    var status: map<int, Status>
    var active: map<int, set<int>>
    var registry: map<int, nat>
    var handles: seq<Handle>
    var nAvailable: int

    var stepId: nat
    var mode: Mode
    var moduleOrder: seq<int>
    var paramOrder: seq<Entry>
    var mostRecent: map<int, int>
    var fetchedFor: map<int, seq<int>>
    var queue: Option<seq<Entry>>

    function StatusNow(p: int): Status
      reads this`status
    {
      if p in status then status[p] else NotAvailable
    }

    function PoolState(): Pool
      reads this`status, this`active, this`registry, this`handles, this`nAvailable
    {
      Pool(status, active, registry, handles, nAvailable)
    }

    function TraceState(): Trace
      reads this`stepId, this`mode, this`moduleOrder, this`paramOrder, this`mostRecent, this`fetchedFor, this`queue
    {
      Trace(stepId, mode, moduleOrder, paramOrder, mostRecent, fetchedFor, queue)
    }

    function Abs(): State
      reads this
    {
      State(PoolState(), TraceState())
    }

    ghost predicate Valid()
      reads this
    {
      Inv(cfg, Abs())
    }

    constructor (cfg: Config)
      ensures Valid() && Abs() == Initial && this.cfg == cfg
    {
      this.cfg := cfg;
      status, active, registry, handles, nAvailable := map[], map[], map[], [], 0;
      stepId, mode, moduleOrder, paramOrder := 0, Record, [], [];
      mostRecent, fetchedFor, queue := map[], map[], None;
    }

    // ---------------------------------------------------------------- gather

    /** Marks the parameters in flight, sorts them into wire order and issues the collective. */
    method AllGatherCoalesced(params: seq<int>) returns (handle: nat)
      requires Distinct(params)
      requires forall p :: p in params ==> StatusNow(p) == NotAvailable
      modifies this`status, this`handles
      ensures handle == old(|handles|)
      ensures handles == old(handles) + [Handle(Sorted(SetOf(params)), false)]
      ensures status == Assign(old(status), SetOf(params), InFlight)
    {
      AssignNone(status, InFlight);
      assert SetOf(params[..0]) == {};
      for i := 0 to |params|
        invariant handles == old(handles)
        invariant status == Assign(old(status), SetOf(params[..i]), InFlight)
        invariant forall j :: i <= j < |params| ==> StatusNow(params[j]) == NotAvailable
      {
        var p := params[i];
        assert StatusNow(p) == NotAvailable;
        SetOfNext(params, i);
        AssignOne(old(status), SetOf(params[..i]), p, InFlight);
        status := status[p := InFlight];
      }
      assert params[..|params|] == params;
      var sorted := SortIds(params);
      handle := |handles|;
      handles := handles + [Handle(sorted, false)];
    }

    /** The parameters of a set that are partitioned, counted as available from now on. */
    method CollectPartitioned(params: set<int>) returns (partitioned: seq<int>)
      modifies this`nAvailable
      ensures Distinct(partitioned) && SetOf(partitioned) == old(PoolState()).Missing(params)
      ensures nAvailable == old(nAvailable) + SetSum(old(PoolState()).Missing(params), cfg.numel)
    {
      ghost var s := PoolState();
      partitioned := [];
      var xs := AnyOrder(params);
      assert SetOf(xs[..0]) == {} == s.Missing({}) == SetOf(partitioned);
      for i := 0 to |xs|
        invariant Distinct(partitioned) && SetOf(partitioned) == s.Missing(SetOf(xs[..i]))
        invariant nAvailable == s.nAvailable + SetSum(s.Missing(SetOf(xs[..i])), cfg.numel)
      {
        var p := xs[i];
        SetOfNext(xs, i);
        DistinctPrefix(xs, i);
        MissingSum(cfg, s, SetOf(xs[..i]), p);
        MissingNext(s, SetOf(xs[..i]), p);
        if StatusNow(p) == NotAvailable {
          DistinctNext(partitioned, p);
          partitioned := partitioned + [p];
          nAvailable := nAvailable + cfg.numel(p);
        }
      }
      assert xs[..|xs|] == xs;
    }

    /** Records the handle under every parameter it gathers; none of them is registered already. */
    method Register(params: seq<int>, handle: nat)
      requires Distinct(params)
      requires forall p :: p in params ==> StatusNow(p) == InFlight && p !in registry
      modifies this`registry
      ensures registry == Assign(old(registry), SetOf(params), handle)
    {
      AssignNone(registry, handle);
      assert SetOf(params[..0]) == {};
      for i := 0 to |params|
        invariant registry == Assign(old(registry), SetOf(params[..i]), handle)
      {
        var p := params[i];
        DistinctPrefix(params, i);
        assert StatusNow(p) == InFlight;
        assert p !in registry;
        SetOfNext(params, i);
        AssignOne(old(registry), SetOf(params[..i]), p, handle);
        registry := registry[p := handle];
      }
      assert params[..|params|] == params;
    }

    /** Gathers what CollectPartitioned found, and registers it. */
    method GatherPartitioned(partitioned: seq<int>, ghost s: Pool, ghost params: set<int>)
      requires partitioned != [] && Distinct(partitioned) && SetOf(partitioned) == s.Missing(params)
      requires forall p :: p in partitioned ==> s.StatusOf(p) == NotAvailable && p !in s.registry
      requires PoolState() == s.(nAvailable := s.nAvailable + SetSum(s.Missing(params), cfg.numel))
      modifies this`status, this`registry, this`handles
      ensures PoolState() == AllGather(cfg, s, params)
    {
      hide *;
      PoolParts();
      GatherSome(cfg, s, params, partitioned, |s.handles|);
      forall p | p in partitioned ensures StatusNow(p) == NotAvailable { StatusParts(s, p); }
      var handle := AllGatherCoalesced(partitioned);
      forall p | p in partitioned ensures StatusNow(p) == InFlight { MarkedInFlight(s.status, partitioned, p); }
      Register(partitioned, handle);
      PoolParts();
    }

    lemma MarkedInFlight(before: map<int, Status>, ps: seq<int>, p: int)
      requires p in ps && status == Assign(before, SetOf(ps), InFlight)
      ensures StatusNow(p) == InFlight
    {
      assert p in SetOf(ps);
    }

    lemma StatusParts(s: Pool, p: int)
      requires status == s.status
      ensures StatusNow(p) == s.StatusOf(p)
    {
    }

    /** Gathers whatever of params is partitioned, and registers it. */
    method AllGatherParams(params: set<int>)
      requires PoolInv(PoolState())
      modifies this`status, this`registry, this`handles, this`nAvailable
      ensures PoolState() == AllGather(cfg, old(PoolState()), params)
    {
      hide AllGather;
      ghost var s := PoolState();
      var partitioned := CollectPartitioned(params);
      if partitioned == [] {
        GatherNothing(cfg, s, params);
      } else {
        forall p | p in partitioned ensures s.StatusOf(p) == NotAvailable && p !in s.registry {
          assert p in SetOf(partitioned);
          PartitionedIsUnregistered(s, p);
        }
        hide PoolInv;
        GatherPartitioned(partitioned, s, params);
      }
    }

    /** The wait of a coalesced handle: the first caller makes all its parameters available. */
    method Wait(h: nat)
      requires h < |handles|
      requires !handles[h].complete ==> forall q :: q in handles[h].params ==> StatusNow(q) == InFlight
      requires Ascending(handles[h].params)
      modifies this`status, this`handles
      ensures old(handles[h].complete) ==> status == old(status) && handles == old(handles)
      ensures !old(handles[h].complete) ==>
                && handles == old(handles)[h := old(handles)[h].(complete := true)]
                && status == Assign(old(status), SetOf(old(handles)[h].params), Available)
    {
      if handles[h].complete { return; }
      var params := handles[h].params;
      AssignNone(status, Available);
      assert SetOf(params[..0]) == {};
      for i := 0 to |params|
        invariant handles == old(handles)
        invariant status == Assign(old(status), SetOf(params[..i]), Available)
        invariant forall j :: i <= j < |params| ==> StatusNow(params[j]) == InFlight
      {
        assert StatusNow(params[i]) == InFlight;
        SetOfNext(params, i);
        AssignOne(old(status), SetOf(params[..i]), params[i], Available);
        status := status[params[i] := Available];
      }
      assert params[..|params|] == params;
      handles := handles[h := handles[h].(complete := true)];
    }

    // ----------------------------------------------------------------- fetch

    /** Marks m a user of p and, if p is still registered, pops it and waits for its handle. */
    method UseAndWait(p: int, m: int)
      requires TurnReady(PoolState(), p)
      modifies this`status, this`active, this`registry, this`handles
      ensures PoolState() == TurnDone(old(PoolState()), p, m)
    {
      active := active[p := Users(active, p) + {m}];
      if p in registry {
        var h := registry[p];
        ghost var arrives := handles[h].params;
        registry := registry - {p};
        Wait(h);
        assert p in SetOf(arrives);
      } else {
        assert registry == registry - {p};
      }
      assert StatusNow(p) == Available;
    }

    /** The wait loop of a fetch, over the module's parameters in any order. */
    method UseAll(params: set<int>, m: int)
      requires PoolInv(PoolState())
      requires forall p :: p in params ==> PoolState().Live(p)
      modifies this`status, this`active, this`registry, this`handles
      ensures PoolState() == FetchWait(old(PoolState()), params, m)
    {
      hide FetchWait, PoolInv;
      ghost var s := PoolState();
      var xs := AnyOrder(params);
      WaitNothing(s, m);
      assert SetOf(xs[..0]) == {};
      for i := 0 to |xs|
        invariant PoolState() == FetchWait(s, SetOf(xs[..i]), m)
      {
        assert xs[i] in SetOf(xs);
        SetOfNext(xs, i);
        DistinctPrefix(xs, i);
        UseNext(s, SetOf(xs[..i]), xs[i], m);
      }
      assert xs[..|xs|] == xs;
    }

    /** One turn of the wait loop. */
    method UseNext(ghost s: Pool, ghost done: set<int>, p: int, m: int)
      requires PoolInv(s) && s.Live(p) && p !in done
      requires PoolState() == FetchWait(s, done, m)
      modifies this`status, this`active, this`registry, this`handles
      ensures PoolState() == FetchWait(s, done + {p}, m)
    {
      TurnFacts(s, done, p, m);
      UseAndWait(p, m);
    }

    /** What the first queue loop of a fetch needs to know: the replay is in step with the module. */
    ghost predicate InStep(m: int)
      reads this`stepId, this`mode, this`moduleOrder, this`paramOrder, this`mostRecent, this`fetchedFor, this`queue
    {
      && ReplayInv(cfg, TraceState())
      && stepId < |moduleOrder| && moduleOrder[stepId] == m
    }

    /** The parameters of m whose use at this step was not popped before. */
    method ParamsNotAlreadyFetched(params: set<int>) returns (r: set<int>)
      ensures r == set p | p in params && TraceState().MostRecent(p) < stepId
    {
      r := set p | p in params && (if p in mostRecent then mostRecent[p] else NEVER) < stepId;
    }

    /** The first queue loop: what it discards is what it expected to. */
    method DiscardFromQueue(m: int)
      requires InStep(m)
      modifies this`queue, this`mostRecent
      ensures TraceState() == Discarded(cfg, old(TraceState()), m)
    {
      ghost var t := TraceState();
      DiscardExact(cfg, t, m);
      var notAlready := ParamsNotAlreadyFetched(cfg.ParamsOf(m));
      assert notAlready == NotYetFetched(cfg, t, m);
      var q, mr, discarded := DiscardLoop(queue.value, mostRecent, |notAlready|);
      assert discarded == notAlready;
      queue, mostRecent := Some(q), mr;
    }

    /** The second queue loop: pops entries until the budget is used up, and says what to gather. */
    method Prefetch() returns (wanted: set<int>)
      requires ReplayInv(cfg, TraceState())
      modifies this`queue, this`mostRecent
      ensures var scan := Scan(cfg, PoolState(), old(queue).value);
              && wanted == scan.wanted
              && TraceState() == Pop(old(TraceState()), scan.count)
    {
      hide *;
      ghost var t := TraceState();
      TraceParts();
      AllFit(cfg, t);
      var q, mr;
      q, mr, wanted := PrefetchLoop(cfg, PoolState(), queue.value, mostRecent);
      PopIs(t, Scan(cfg, PoolState(), queue.value).count);
      queue, mostRecent := Some(q), mr;
      TraceParts();
    }

    /** The part of a fetch every mode shares: gather, then use and wait. */
    method FetchOwn(m: int)
      requires PoolInv(PoolState())
      modifies this`status, this`active, this`registry, this`handles, this`nAvailable
      ensures PoolState() == Fetched(cfg, old(PoolState()), m)
    {
      hide AllGather, FetchWait, PoolInv;
      ghost var s := PoolState();
      AllGatherKeeps(cfg, s, cfg.ParamsOf(m));
      AllGatherParams(cfg.ParamsOf(m));
      UseAll(cfg.ParamsOf(m), m);
    }

    /** The part only a replay adds: its entries leave the queue, and what comes next is gathered ahead. */
    method AdvanceAndPrefetch(m: int)
      requires InStep(m) && PoolInv(PoolState())
      modifies this`queue, this`mostRecent, this`stepId, this`status, this`registry, this`handles, this`nAvailable
      ensures Abs() == Ahead(cfg, old(PoolState()), NextTrace(cfg, old(TraceState()), m))
    {
      hide AllGather, PoolInv, Pop, Scan, MovesOn, Discarded;
      ghost var t := TraceState();
      DiscardKeeps(cfg, t, m);
      DiscardFromQueue(m);
      stepId := stepId + 1;
      assert TraceState() == NextTrace(cfg, t, m);
      if cfg.prefetchBucket > 0 {
        var wanted := Prefetch();
        AllGatherParams(wanted);
      }
    }

    /** fetch_sub_module. */
    method FetchSubModule(m: int)
      requires PoolInv(PoolState())
      requires mode == Complete ==> queue.Some? && InStep(m)
      modifies this
      ensures Abs() == Fetch(cfg, old(Abs()), m)
    {
      hide *;
      ghost var s := Abs();
      ghost var p, t := PoolState(), TraceState();
      AbsParts();
      TraceParts();
      FetchParts(cfg, s, m);
      FetchOwn(m);
      assert TraceState() == t;
      if mode == Complete {
        AdvanceAndPrefetch(m);
      } else {
        stepId := stepId + 1;
        AbsParts();
        TraceParts();
      }
    }

    lemma AbsParts()
      ensures Abs() == State(PoolState(), TraceState())
      ensures TraceState().mode == mode && TraceState().queue == queue && TraceState().stepId == stepId
      ensures Valid() <==> Inv(cfg, Abs())
    {
    }

    lemma TraceParts()
      ensures TraceState() == Trace(stepId, mode, moduleOrder, paramOrder, mostRecent, fetchedFor, queue)
    {
    }

    // --------------------------------------------------------------- release

    /** __release_param: partitions an available parameter nobody uses. */
    method ReleaseParam(p: int)
      modifies this`status, this`nAvailable
      ensures var out := old(StatusNow(p)) == Available && Users(active, p) == {};
              && status == (if out then old(status)[p := NotAvailable] else old(status))
              && nAvailable == old(nAvailable) - (if out then cfg.numel(p) else 0)
    {
      if StatusNow(p) == Available && Users(active, p) == {} {
        assert Users(active, p) == {};
        status := status[p := NotAvailable];
        nAvailable := nAvailable - cfg.numel(p);
      }
    }

    /** One parameter of the release loop. */
    method LeaveParam(p: int, m: int, toRelease: set<int>, ghost s: Pool, ghost done: set<int>)
      requires PoolState() == Leave(cfg, s, done, m, toRelease)
      modifies this`status, this`active, this`nAvailable
      ensures PoolState() == Leave(cfg, s, done + {p}, m, toRelease)
    {
      hide Leave;
      LeaveOne(cfg, s, done, p, m, toRelease);
      active := active[p := Users(active, p) - {m}];
      if p in toRelease && !cfg.external(p) {
        ReleaseParam(p);
      }
    }

    method LeaveAll(ps: seq<int>, m: int, toRelease: set<int>)
      modifies this`status, this`active, this`nAvailable
      ensures PoolState() == Leave(cfg, old(PoolState()), SetOf(ps), m, toRelease)
    {
      hide Leave;
      ghost var s := PoolState();
      LeaveNothing(cfg, s, m, toRelease);
      assert SetOf(ps[..0]) == {};
      for i := 0 to |ps|
        invariant PoolState() == Leave(cfg, s, SetOf(ps[..i]), m, toRelease)
      {
        SetOfNext(ps, i);
        LeaveParam(ps[i], m, toRelease, s, SetOf(ps[..i]));
      }
      assert ps[..|ps|] == ps;
    }

    /** release_sub_module, for a module that was fetched and not released since. */
    method ReleaseSubModule(m: int)
      requires Valid()
      requires forall p :: p in cfg.ParamsOf(m) ==> m in Users(active, p)
      modifies this`status, this`active, this`nAvailable
      ensures Abs() == Release(cfg, old(Abs()), m) && Valid()
    {
      assert mode == Complete ==> stepId <= |moduleOrder|;
      ReleaseKeeps(cfg, Abs(), m);
      hide Inv;
      var toRelease := cfg.ParamsOf(m);
      if mode == Complete {
        toRelease := ReleaseCandidates(cfg, TraceState(), m);
      }
      LeaveAll(cfg.moduleParams(m), m, toRelease);
    }

    method ReleaseAllParam(p: int, ghost s: Pool, ghost done: set<int>)
      requires PoolState() == ReleaseAll(cfg, s, done)
      modifies this`status, this`active, this`nAvailable
      ensures PoolState() == ReleaseAll(cfg, s, done + {p})
    {
      hide ReleaseAll;
      ReleaseAllOne(cfg, s, done, p);
      active := active[p := {}];
      ReleaseParam(p);
    }

    /** The releasing loop, which stops at the first parameter still registered. */
    method ReleaseAllParams(ps: seq<int>) returns (r: Option<Failure>)
      modifies this`status, this`active, this`nAvailable
      ensures r.Some? <==> exists p :: p in ps && p in registry
      ensures r.Some? ==> r.value == ReleasedInFlight
      ensures r.None? ==> PoolState() == ReleaseAll(cfg, old(PoolState()), SetOf(ps))
    {
      hide ReleaseAll;
      ghost var s := PoolState();
      ReleaseAllNothing(cfg, s);
      assert SetOf(ps[..0]) == {};
      for i := 0 to |ps|
        invariant PoolState() == ReleaseAll(cfg, s, SetOf(ps[..i]))
        invariant forall j :: 0 <= j < i ==> ps[j] !in registry
      {
        var p := ps[i];
        assert p in ps;
        if p in registry { return Some(ReleasedInFlight); }
        SetOfNext(ps, i);
        ReleaseAllParam(p, s, SetOf(ps[..i]));
      }
      assert ps[..|ps|] == ps;
      return None;
    }

    /** The closing loop: everything listed is partitioned. */
    method CheckPartitioned(ps: seq<int>, ghost s: Pool)
      requires Landed(s, ps) && (forall p :: p in ps ==> p !in s.registry)
      requires PoolState() == ReleaseAll(cfg, s, SetOf(ps))
    {
      hide ReleaseAll;
      for i := 0 to |ps| {
        ReleaseAllStatus(cfg, s, SetOf(ps), ps[i]);
        assert PoolState().StatusOf(ps[i]) == NotAvailable;
      }
    }

    /** release_and_reset_all. It raises at the first parameter still registered; otherwise everything listed
        ends up partitioned, which is what its closing loop checks. */
    method ReleaseAndResetAll() returns (r: Option<Failure>)
      requires Valid()
      modifies this`status, this`active, this`nAvailable
      ensures r.Some? <==> exists p :: p in cfg.allParams && p in registry
      ensures r.Some? ==> r.value == ReleasedInFlight
      ensures r.None? ==> PoolState() == ReleaseAll(cfg, old(PoolState()), SetOf(cfg.allParams))
      ensures r.None? && registry == map[] && mostRecent == map[] ==> Valid()
    {
      ghost var s := Abs();
      if registry == map[] && mostRecent == map[] { PartitionAllKeeps(cfg, s); }
      UnregisteredIsLanded(s.pool, cfg.allParams);
      hide ReleaseAll, Inv;
      r := ReleaseAllParams(cfg.allParams);
      if r.Some? { return; }
      CheckPartitioned(cfg.allParams, s.pool);
    }

    // ----------------------------------------------------------------- reset

    /** What reset_step does to the trace: a recorded one becomes the trace to replay. */
    method RestartTrace()
      requires mode == Record ==> FifosFrom(moduleOrder, 0, fetchedFor)
      modifies this`stepId, this`mode, this`paramOrder, this`mostRecent, this`fetchedFor, this`queue
      ensures TraceState() == NextIteration(cfg, old(TraceState()))
    {
      hide FifosFrom, Rebuild;
      if mode == Record {
        paramOrder := BuildParamTrace(cfg, moduleOrder, fetchedFor);
        mode := Complete;
      } else if mode == Invalid {
        mode := Record;
      }
      queue := Some(paramOrder);
      mostRecent, fetchedFor := map[], map[];
      stepId := 0;
    }

    /** reset_step. */
    method ResetStep() returns (r: Option<Failure>)
      requires Valid()
      modifies this
      ensures r == if old(registry) != map[] then Some(StillInFlight) else None
      ensures r.Some? ==> Abs() == old(Abs())
      ensures r.None? ==> Reset(cfg, old(Abs())) == Ok(Abs()) && Valid()
    {
      if registry != map[] { return Some(StillInFlight); }
      Restart();
      return None;
    }

    /** reset_step with nothing in flight. */
    method Restart()
      requires Valid() && registry == map[]
      modifies this
      ensures Reset(cfg, old(Abs())) == Ok(Abs()) && Valid()
    {
      hide *;
      BeforeReset();
      ghost var p, t := PoolState(), TraceState();
      RestartTrace();
      assert PoolState() == p;
      PoolParts();
      nAvailable := 0;
      PoolParts();
      AbsParts();
    }

    /** The state an iteration restarts from: the code has only to reach it. */
    lemma BeforeReset()
      requires Valid() && registry == map[]
      ensures mode == Record ==> FifosFrom(moduleOrder, 0, fetchedFor)
      ensures var r := State(PoolState().(nAvailable := 0), NextIteration(cfg, TraceState()));
              Reset(cfg, Abs()) == Ok(r) && Inv(cfg, r)
    {
      ResetKeeps(cfg, Abs());
      if mode == Record { RecordFifos(cfg, Abs()); }
    }

    lemma PoolParts()
      ensures PoolState() == Pool(status, active, registry, handles, nAvailable)
    {
    }

    // ------------------------------------------------------------ hook entry

    /** trace_prologue: a replay that meets another module than recorded gives the trace up. */
    method TracePrologue(m: int) returns (r: Option<Failure>)
      modifies this`mode, this`moduleOrder, this`paramOrder, this`mostRecent, this`queue
      ensures r == (if old(mode) == Complete && stepId >= |old(moduleOrder)| then Some(RunPastTrace) else None)
      ensures r.Some? ==> TraceState() == old(TraceState())
      ensures r.None? && old(mode) == Complete && old(moduleOrder)[stepId] != m ==>
                TraceState() == Invalidate(old(TraceState()))
      ensures r.None? && (old(mode) != Complete || old(moduleOrder)[stepId] == m) ==>
                TraceState() == old(TraceState())
    {
      if mode == Complete {
        if stepId >= |moduleOrder| { return Some(RunPastTrace); }
        if m != moduleOrder[stepId] {
          assert mode != Invalid;
          mode := Invalid;
          moduleOrder, paramOrder, mostRecent, queue := [], [], map[], None;
        }
      }
      return None;
    }

    /** record_module. */
    method RecordSubModule(m: int)
      requires mode == Record
      modifies this`moduleOrder, this`fetchedFor
      ensures TraceState() == RecordModule(old(TraceState()), m)
    {
      fetchedFor := fetchedFor[m := (if m in fetchedFor then fetchedFor[m] else []) + [stepId]];
      moduleOrder := moduleOrder + [m];
    }

    /** The pre-forward and pre-backward hook: check or record the module, then fetch it. */
    method PreSubModule(m: int) returns (r: Option<Failure>)
      requires Valid()
      modifies this
      ensures r == (if old(mode) == Complete && old(stepId) == |old(moduleOrder)| then Some(RunPastTrace) else None)
      ensures r.Some? ==> Abs() == old(Abs())
      ensures r.None? ==> EnterModule(cfg, old(Abs()), m) == Ok(Abs()) && Valid()
    {
      hide *;
      ghost var s := Abs();
      AbsParts();
      TraceParts();
      EnterKeeps(cfg, s, m);
      EnterParts(cfg, s, m);
      PrologueIs(s.trace, m);
      r := TracePrologue(m);
      AbsParts();
      if r.Some? { return; }
      if mode == Record {
        RecordSubModule(m);
      }
      AbsParts();
      TraceParts();
      InStepIs(m);
      FetchSubModule(m);
      AbsParts();
    }

    lemma InStepIs(m: int)
      ensures ReplayInv(cfg, TraceState()) && stepId < |moduleOrder| && moduleOrder[stepId] == m ==> InStep(m)
    {
    }

    // ------------------------------------------------------------ whole runs

    /** Runs the method an event stands for. */
    method OnEvent(e: Event, ghost b: Bracket) returns (r: Option<Failure>)
      requires RunInv(cfg, b, Abs()) && Allowed(b, e)
      modifies this
      ensures Inv(cfg, old(Abs()))
      ensures r.None? ==> StepRun(cfg, old(Abs()), e) == Ok(Abs()) && RunInv(cfg, AfterEvent(b, e), Abs())
      ensures r.Some? ==> StepRun(cfg, old(Abs()), e) == Err(r.value)
    {
      StepKeeps(cfg, b, Abs(), e);
      RunParts(b);
      match e
      case Enter(m) => r := OnEnter(m);
      case Exit(m) => OnExit(m); r := None;
      case EndIteration => r := OnEnd();
      case PartitionAll => OnPartition(); r := None;
    }

    lemma RunParts(b: Bracket)
      requires RunInv(cfg, b, Abs())
      ensures Valid()
      ensures forall m, p :: m in b.open && p in cfg.ParamsOf(m) ==> m in Users(active, p)
      ensures b.between ==> registry == map[] && mostRecent == map[]
    {
      forall m, p | m in b.open && p in cfg.ParamsOf(m) ensures m in Users(active, p) {
        assert m in Abs().pool.ActiveOf(p);
      }
    }

    method OnEnter(m: int) returns (r: Option<Failure>)
      requires Valid()
      modifies this
      ensures r.None? ==> StepRun(cfg, old(Abs()), Enter(m)) == Ok(Abs())
      ensures r.Some? ==> StepRun(cfg, old(Abs()), Enter(m)) == Err(r.value)
    {
      EnterRuns(m);
      hide EnterModule, Inv;
      r := PreSubModule(m);
    }

    lemma EnterRuns(m: int)
      requires Valid()
      ensures StepRun(cfg, Abs(), Enter(m)) == EnterModule(cfg, Abs(), m)
      ensures mode == Complete && stepId == |moduleOrder| ==> EnterModule(cfg, Abs(), m) == Err(RunPastTrace)
    {
    }

    method OnExit(m: int)
      requires Valid() && forall p :: p in cfg.ParamsOf(m) ==> m in Users(active, p)
      modifies this
      ensures StepRun(cfg, old(Abs()), Exit(m)) == Ok(Abs())
    {
      hide Inv, Release;
      ReleaseSubModule(m);
    }

    method OnEnd() returns (r: Option<Failure>)
      requires Valid()
      modifies this
      ensures r.None? ==> StepRun(cfg, old(Abs()), EndIteration) == Ok(Abs())
      ensures r.Some? ==> StepRun(cfg, old(Abs()), EndIteration) == Err(r.value)
    {
      hide Inv, NextIteration;
      r := ResetStep();
    }

    method OnPartition()
      requires Valid() && registry == map[] && mostRecent == map[]
      modifies this
      ensures StepRun(cfg, old(Abs()), PartitionAll) == Ok(Abs())
    {
      ghost var s := Abs();
      hide Inv, ReleaseAll;
      var r := ReleaseAndResetAll();
      assert forall p :: p !in registry;
      assert r.None? && TraceState() == s.trace;
    }
  }

  /** The specification is in state s after the first k events. */
  ghost predicate Reaches(cfg: Config, es: seq<Event>, k: nat, s: State)
    requires k <= |es|
  {
    Legal(es[..k]) && Run(cfg, es[..k]) == Ok(s)
  }

  lemma ReachesFirst(cfg: Config, es: seq<Event>)
    ensures Reaches(cfg, es, 0, Initial)
  {
    assert es[..0] == [];
  }

  lemma ReachesNext(cfg: Config, es: seq<Event>, k: nat, s: State)
    requires Legal(es) && k < |es| && Reaches(cfg, es, k, s)
    ensures RunInv(cfg, Brackets(es[..k]), s) && Allowed(Brackets(es[..k]), es[k])
  {
    LegalUpTo(es, k + 1);
    RunTo(cfg, es, k);
  }

  lemma ReachesAfter(cfg: Config, es: seq<Event>, k: nat, s: State)
    requires Legal(es) && k < |es| && Reaches(cfg, es, k, s)
    ensures Inv(cfg, s) && Legal(es[..k + 1]) && Run(cfg, es[..k + 1]) == StepRun(cfg, s, es[k])
    ensures StepRun(cfg, s, es[k]).Ok? ==> Reaches(cfg, es, k + 1, StepRun(cfg, s, es[k]).value)
  {
    LegalUpTo(es, k + 1);
    RunTo(cfg, es, k);
    hide StepRun, Run, Legal;
  }

  /** The states the specification goes through, one for each event before the first failure. */
  ghost predicate IsTrail(cfg: Config, es: seq<Event>, trail: seq<State>)
  {
    0 < |trail| <= |es| + 1 && forall i :: 0 <= i < |trail| ==> Reaches(cfg, es, i, trail[i])
  }

  ghost predicate FailedAfter(cfg: Config, es: seq<Event>, k: nat, f: Failure)
  {
    k <= |es| && Legal(es[..k]) && Run(cfg, es[..k]) == Err(f)
  }

  lemma TrailStarts(cfg: Config, es: seq<Event>)
    ensures IsTrail(cfg, es, [Initial])
  {
    ReachesFirst(cfg, es);
  }

  /** The last state of a trail, and the event that comes next. */
  lemma TrailLast(cfg: Config, es: seq<Event>, trail: seq<State>)
    requires Legal(es) && IsTrail(cfg, es, trail) && |trail| <= |es|
    ensures |trail| > 0 && Reaches(cfg, es, |trail| - 1, trail[|trail| - 1])
  {
    hide Reaches, Legal;
  }

  lemma TrailGrows(cfg: Config, es: seq<Event>, trail: seq<State>, r: State)
    requires IsTrail(cfg, es, trail) && |trail| <= |es| && Reaches(cfg, es, |trail|, r)
    ensures IsTrail(cfg, es, trail + [r])
  {
    hide Reaches;
  }

  lemma FailedIntro(cfg: Config, es: seq<Event>, k: nat, f: Failure)
    requires k <= |es| && Legal(es[..k]) && Run(cfg, es[..k]) == Err(f)
    ensures FailedAfter(cfg, es, k, f)
  {
  }

  /** What the next event needs. */
  lemma TrailNext(cfg: Config, es: seq<Event>, trail: seq<State>)
    requires Legal(es) && IsTrail(cfg, es, trail) && |trail| <= |es|
    ensures var k, s := |trail| - 1, trail[|trail| - 1];
            RunInv(cfg, Brackets(es[..k]), s) && Allowed(Brackets(es[..k]), es[k])
  {
    hide *;
    TrailLast(cfg, es, trail);
    ReachesNext(cfg, es, |trail| - 1, trail[|trail| - 1]);
  }

  /** What it does to the trail. */
  lemma TrailAfter(cfg: Config, es: seq<Event>, trail: seq<State>, r: Result<State, Failure>)
    requires Legal(es) && IsTrail(cfg, es, trail) && 0 < |trail| <= |es|
    requires Inv(cfg, trail[|trail| - 1]) && r == StepRun(cfg, trail[|trail| - 1], es[|trail| - 1])
    ensures r.Ok? ==> IsTrail(cfg, es, trail + [r.value])
    ensures r.Err? ==> FailedAfter(cfg, es, |trail|, r.error)
  {
    hide *;
    TrailLast(cfg, es, trail);
    ReachesAfter(cfg, es, |trail| - 1, trail[|trail| - 1]);
    if r.Ok? { TrailGrows(cfg, es, trail, r.value); } else { FailedIntro(cfg, es, |trail|, r.error); }
  }

  /** One rank's run of a list of events: the states it went through, and the failure that ended it. */
  method RunAll(c: PartitionedParameterCoordinator, es: seq<Event>)
    returns (trail: seq<State>, r: Option<Failure>)
    requires Legal(es) && c.Abs() == Initial
    modifies c
    ensures IsTrail(c.cfg, es, trail) && (r.None? <==> |trail| == |es| + 1)
    ensures r.None? ==> c.Abs() == trail[|es|]
    ensures r.Some? ==> FailedAfter(c.cfg, es, |trail|, r.value)
  {
    trail, r := [c.Abs()], None;
    hide *;
    TrailStarts(c.cfg, es);
    while |trail| <= |es|
      invariant 0 < |trail| <= |es| + 1 && IsTrail(c.cfg, es, trail)
      invariant c.Abs() == trail[|trail| - 1] && r.None?
      decreases |es| - |trail|
    {
      TrailNext(c.cfg, es, trail);
      r := c.OnEvent(es[|trail| - 1], Brackets(es[..|trail| - 1]));
      TrailAfter(c.cfg, es, trail, if r.None? then Ok(c.Abs()) else Err(r.value));
      if r.Some? { return; }
      trail := trail + [c.Abs()];
    }
  }

  /** Ranks agree: two coordinators that handle the same legal list of events fail at the same one with the same
      error or not at all, and after every event are in the same state; in particular they have issued the same
      gathers, each with the same parameters in the same ascending order, however each visits its sets. */
  method RanksAgree(a: PartitionedParameterCoordinator, b: PartitionedParameterCoordinator, es: seq<Event>)
    returns (seenByA: seq<State>, seenByB: seq<State>, ra: Option<Failure>, rb: Option<Failure>)
    requires a != b && a.cfg == b.cfg && a.Abs() == b.Abs() == Initial && Legal(es)
    modifies a, b
    ensures ra == rb && |seenByA| == |seenByB| && (ra.None? <==> |seenByA| == |es| + 1)
    ensures forall i :: 0 <= i < |seenByA| ==> seenByA[i] == seenByB[i]
    ensures forall i, h :: 0 <= i < |seenByA| && 0 <= h < |seenByA[i].pool.handles| ==>
              seenByA[i].pool.handles[h] == seenByB[i].pool.handles[h] && Ascending(seenByA[i].pool.handles[h].params)
    ensures ra.None? ==> a.Abs() == b.Abs() == seenByA[|es|]
  {
    hide *;
    seenByA, ra := RunAll(a, es);
    seenByB, rb := RunAll(b, es);
    SameTrails(a.cfg, es, seenByA, seenByB, ra, rb);
    forall i, h | 0 <= i < |seenByA| && 0 <= h < |seenByA[i].pool.handles|
      ensures Ascending(seenByA[i].pool.handles[h].params)
    {
      TrailOrdered(a.cfg, es, seenByA, i, h);
    }
  }

  lemma TrailOrdered(cfg: Config, es: seq<Event>, trail: seq<State>, i: nat, h: nat)
    requires IsTrail(cfg, es, trail) && i < |trail| && h < |trail[i].pool.handles|
    ensures Ascending(trail[i].pool.handles[h].params)
  {
    assert Reaches(cfg, es, i, trail[i]);
    hide IsTrail, Legal;
    assert Inv(cfg, trail[i]);
    hide TraceInv, Registered;
  }

  /** The specification decides the trail. */
  lemma SameTrails(cfg: Config, es: seq<Event>, xs: seq<State>, ys: seq<State>, rx: Option<Failure>, ry: Option<Failure>)
    requires IsTrail(cfg, es, xs) && (rx.None? <==> |xs| == |es| + 1) && (rx.Some? ==> FailedAfter(cfg, es, |xs|, rx.value))
    requires IsTrail(cfg, es, ys) && (ry.None? <==> |ys| == |es| + 1) && (ry.Some? ==> FailedAfter(cfg, es, |ys|, ry.value))
    ensures xs == ys && rx == ry
  {
    hide Reaches, FailedAfter;
    if |xs| < |ys| { FailsElsewhere(cfg, es, |xs|, ys[|xs|], |xs|, rx.value); }
    if |ys| < |xs| { FailsElsewhere(cfg, es, |ys|, xs[|ys|], |ys|, ry.value); }
    SameStates(cfg, es, xs, ys);
    if rx.Some? { SameFailure(cfg, es, |xs|, rx.value, ry.value); }
  }

  lemma FailsElsewhere(cfg: Config, es: seq<Event>, k: nat, s: State, n: nat, f: Failure)
    requires k <= |es| && Reaches(cfg, es, k, s) && FailedAfter(cfg, es, n, f)
    ensures k != n
  {
  }

  lemma SameFailure(cfg: Config, es: seq<Event>, k: nat, f: Failure, g: Failure)
    requires FailedAfter(cfg, es, k, f) && FailedAfter(cfg, es, k, g)
    ensures f == g
  {
  }

  lemma SameStates(cfg: Config, es: seq<Event>, xs: seq<State>, ys: seq<State>)
    requires IsTrail(cfg, es, xs) && IsTrail(cfg, es, ys) && |xs| == |ys|
    ensures xs == ys
  {
    hide Run, Legal;
    forall i | 0 <= i < |xs| ensures xs[i] == ys[i] {
      assert Reaches(cfg, es, i, xs[i]) && Reaches(cfg, es, i, ys[i]);
    }
  }
}
