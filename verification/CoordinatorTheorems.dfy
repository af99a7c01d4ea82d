/** What the coordinator promises over whole runs. */
module CoordinatorTheorems {
  import opened Prelude
  import opened CoordinatorState
  import opened CoordinatorPool
  import opened CoordinatorTrace
  import opened CoordinatorRuns

  /** From the end of a module's fetch to its release, whatever else is fetched, prefetched or released in
      between, its parameters are available, not registered, and cannot be freed. */
  lemma OpenModulesReady(cfg: Config, es: seq<Event>, m: int, p: int)
    requires Legal(es) && Run(cfg, es).Ok?
    requires m in Brackets(es).open && p in cfg.ParamsOf(m)
    ensures var s := Run(cfg, es).value.pool;
            && s.StatusOf(p) == Available && p !in s.registry
            && forall x, rel: set<int> :: x != m ==> p !in Freed(cfg, s, cfg.ParamsOf(x), x, rel)
  {
    var s := Run(cfg, es).value.pool;
    assert m in s.ActiveOf(p);
    forall x, rel: set<int> | x != m ensures p !in Freed(cfg, s, cfg.ParamsOf(x), x, rel) {
      assert m in s.ActiveOf(p) - {x};
    }
  }

  /** The registry over whole runs: partitioned parameters are never registered, parameters in flight always
      are, and a handle not yet waited for has all its parameters in flight and registered under it. */
  lemma RegistryOverRuns(cfg: Config, es: seq<Event>, p: int, q: int)
    requires Legal(es) && Run(cfg, es).Ok?
    ensures var s := Run(cfg, es).value.pool;
            && (s.StatusOf(p) == NotAvailable ==> p !in s.registry)
            && (s.StatusOf(p) == InFlight ==> p in s.registry)
            && (p in s.registry ==> s.registry[p] < |s.handles|)
            && (p in s.registry && !s.handles[s.registry[p]].complete && q in s.handles[s.registry[p]].params ==>
                  s.StatusOf(q) == InFlight && q in s.registry && s.registry[q] == s.registry[p])
  {
    var s := Run(cfg, es).value.pool;
    assert PoolInv(s);
  }

  // ---------------------------------------------------------------- prefetch

  /** A use popped from the queue ahead of time stays live until its step is current; with a positive reuse
      distance it is still live when that step starts. */
  lemma PromiseKept(cfg: Config, es: seq<Event>, e: Entry)
    requires Legal(es) && Run(cfg, es).Ok?
    requires Run(cfg, es).value.trace.mode == Complete
    requires e in Popped(Run(cfg, es).value.trace)
    ensures var s := Run(cfg, es).value;
            && (e.step > s.trace.stepId ==> s.pool.Live(e.param))
            && (e.step == s.trace.stepId && cfg.maxReuse > 0 ==> s.pool.Live(e.param))
  {
    MostRecentMeans(cfg, Run(cfg, es).value.trace, e.param);
  }

  /** With a positive reuse distance, a fetch gathers only parameters whose use was not prefetched. */
  lemma NothingGatheredTwice(cfg: Config, es: seq<Event>, m: int, p: int)
    requires Legal(es) && Run(cfg, es).Ok? && cfg.maxReuse > 0
    requires var t := Run(cfg, es).value.trace;
             t.mode == Complete && t.stepId < |t.moduleOrder| && t.moduleOrder[t.stepId] == m
    requires p in Run(cfg, es).value.pool.Missing(cfg.ParamsOf(m))
    ensures Entry(p, Run(cfg, es).value.trace.stepId) in Run(cfg, es).value.trace.queue.value
  {
    var t := Run(cfg, es).value.trace;
    var e := Entry(p, t.stepId);
    TraceEntries(cfg, t.moduleOrder, 0, e);
    PoppedOrQueued(cfg, t, e);
    if e in Popped(t) { PromiseKept(cfg, es, e); }
  }

  /** The reuse distance is what keeps the promise at the last moment: when m was p's only user and p's use at
      the coming step has been popped, p survives m's release if and only if the distance is positive
      (or p is never released at all). */
  lemma SurvivesRelease(cfg: Config, s: State, m: int, p: int)
    requires Inv(cfg, s) && s.trace.mode == Complete
    requires p in cfg.ParamsOf(m) && s.pool.ActiveOf(p) == {m}
    requires s.trace.MostRecent(p) == s.trace.stepId
    ensures Release(cfg, s, m).pool.Live(p) <==> cfg.maxReuse > 0 || cfg.persist(p) || cfg.external(p)
  {
    var t := s.trace;
    var toRelease := ParamsToRelease(cfg, t, m);
    MostRecentMeans(cfg, t, p);
    LeaveStatus(cfg, s.pool, cfg.ParamsOf(m), m, toRelease, p);
    var candidates := set x | x in cfg.ParamsOf(m) && !cfg.persist(x) && t.MostRecent(x) <= t.stepId;
    LookAheadShrinks(cfg, t.moduleOrder[t.stepId..], 0, candidates);
    if cfg.maxReuse > 0 {
      ReleaseSparesPromised(cfg, s, m, p);
    }
  }

  // -------------------------------------------------------------- accounting

  /** Live elements when the last iteration ended. */
  ghost function Base(cfg: Config, es: seq<Event>): nat
    requires Legal(es)
  {
    if es == [] then 0 else
      var before := es[..|es| - 1];
      if es[|es| - 1].EndIteration? && Run(cfg, before).Ok? then LiveSize(cfg, Run(cfg, before).value.pool)
      else Base(cfg, before)
  }

  lemma FetchSize(cfg: Config, s: State, m: int)
    requires s.trace.mode == Complete ==> s.trace.queue.Some?
    ensures LiveSize(cfg, Fetch(cfg, s, m).pool) - Fetch(cfg, s, m).pool.nAvailable
         == LiveSize(cfg, s.pool) - s.pool.nAvailable
  {
    AllGatherSize(cfg, s.pool, cfg.ParamsOf(m));
    FetchWaitSize(cfg, AllGather(cfg, s.pool, cfg.ParamsOf(m)), cfg.ParamsOf(m), m);
    if s.trace.mode == Complete {
      FetchIsPrefetch(cfg, s, m);
      var mid := State(Fetched(cfg, s.pool, m), NextTrace(cfg, s.trace, m));
      AllGatherSize(cfg, mid.pool, Scan(cfg, mid.pool, mid.trace.queue.value).wanted);
    }
  }

  lemma StepSize(cfg: Config, s: State, e: Event)
    requires Inv(cfg, s) && StepRun(cfg, s, e).Ok?
    ensures var r := StepRun(cfg, s, e).value.pool;
            var before := if e.EndIteration? then 0 else s.pool.nAvailable;
            LiveSize(cfg, r) - r.nAvailable == LiveSize(cfg, s.pool) - before
  {
    match e
    case Enter(m) => FetchSize(cfg, State(s.pool, Prologue(s.trace, m).value), m);
    case Exit(m) => LeaveSize(cfg, s.pool, cfg.ParamsOf(m), m, ParamsToRelease(cfg, s.trace, m));
    case EndIteration => assert StepRun(cfg, s, e).value.pool.LiveSet() == s.pool.LiveSet();
    case PartitionAll => ReleaseAllSize(cfg, s.pool, SetOf(cfg.allParams));
  }

  /** The counter is the live size less what was live when the last iteration ended. */
  lemma {:induction false} Accounting(cfg: Config, es: seq<Event>)
    requires Legal(es) && Run(cfg, es).Ok?
    ensures Run(cfg, es).value.pool.nAvailable == LiveSize(cfg, Run(cfg, es).value.pool) - Base(cfg, es)
    decreases |es|
  {
    if es == [] {
      assert EmptyPool.LiveSet() == {};
    } else {
      var before := es[..|es| - 1];
      Accounting(cfg, before);
      StepSize(cfg, Run(cfg, before).value, es[|es| - 1]);
    }
  }

  /** A prefetch that takes anything leaves fewer live elements than the configured limit, plus what was live
      when the last iteration ended, plus its last parameter; and it takes less than a bucket plus that parameter. */
  lemma PrefetchLimits(cfg: Config, s: State, base: int)
    requires PoolInv(s.pool) && s.trace.queue.Some?
    requires s.pool.nAvailable == LiveSize(cfg, s.pool) - base
    requires Scan(cfg, s.pool, s.trace.queue.value).wanted != {}
    ensures var scan := Scan(cfg, s.pool, s.trace.queue.value);
            exists p :: p in scan.wanted
              && LiveSize(cfg, AllGather(cfg, s.pool, scan.wanted)) < cfg.maxAvailable + base + cfg.numel(p)
              && SetSum(scan.wanted, cfg.numel) < cfg.prefetchBucket + cfg.numel(p)
  {
    var q := s.trace.queue.value;
    var scan := Scan(cfg, s.pool, q);
    ScanCovers(cfg, s.pool, q);
    var p := TookLast(cfg, s.pool, q, Prefetched(0, {}, 0), Budget(cfg, s.pool));
    assert s.pool.Missing(scan.wanted) == scan.wanted;
    AllGatherSize(cfg, s.pool, scan.wanted);
  }

  /** The parameter that made the prefetch stop, or any parameter it took when the queue ran out. */
  lemma {:induction false} TookLast(cfg: Config, s: Pool, q: seq<Entry>, acc: Prefetched, budget: int) returns (p: int)
    requires PrefetchScan(cfg, s, q, acc, budget).wanted != acc.wanted
    ensures p in PrefetchScan(cfg, s, q, acc, budget).wanted
    ensures PrefetchScan(cfg, s, q, acc, budget).size < budget + cfg.numel(p)
    decreases |q|
  {
    p := q[0].param;
    var next := ScanStep(cfg, s, p, acc);
    if PrefetchScan(cfg, s, q[1..], next, budget).wanted != next.wanted {
      p := TookLast(cfg, s, q[1..], next, budget);
    } else {
      ScanSize(cfg, s, q[1..], next, budget);
    }
  }

  lemma {:induction false} ScanSize(cfg: Config, s: Pool, q: seq<Entry>, acc: Prefetched, budget: int)
    requires PrefetchScan(cfg, s, q, acc, budget).wanted == acc.wanted
    ensures PrefetchScan(cfg, s, q, acc, budget).size == acc.size
    decreases |q|
  {
    if q != [] && acc.size < budget {
      ScanGrows(cfg, s, q[1..], ScanStep(cfg, s, q[0].param, acc), budget);
      ScanSize(cfg, s, q[1..], ScanStep(cfg, s, q[0].param, acc), budget);
    }
  }

  // ------------------------------------------------------- exactly what it picks

  /** The size of the partitioned parameters among the first n queue entries, each counted once. */
  ghost function MissingAmong(cfg: Config, s: Pool, q: seq<Entry>, n: nat): nat
    requires n <= |q|
  {
    SetSum(s.Missing(ParamsIn(q[..n])), cfg.numel)
  }

  /** The prefetch loop after popping r.count entries, none of them needlessly. */
  ghost predicate ScannedTo(cfg: Config, s: Pool, q: seq<Entry>, r: Prefetched, budget: int)
  {
    && r.count <= |q|
    && r.wanted == s.Missing(ParamsIn(q[..r.count]))
    && r.size == SetSum(r.wanted, cfg.numel)
    && forall n :: 0 <= n < r.count ==> MissingAmong(cfg, s, q, n) < budget
  }

  lemma MissingNext(s: Pool, q: seq<Entry>, n: nat)
    requires n < |q|
    ensures s.Missing(ParamsIn(q[..n + 1]))
         == s.Missing(ParamsIn(q[..n])) + if s.StatusOf(q[n].param) == NotAvailable then {q[n].param} else {}
  {
    assert q[..n + 1] == q[..n] + [q[n]];
    assert ParamsIn(q[..n + 1]) == ParamsIn(q[..n]) + {q[n].param};
  }

  lemma ScanStepExact(cfg: Config, s: Pool, q: seq<Entry>, acc: Prefetched, budget: int)
    requires ScannedTo(cfg, s, q, acc, budget) && acc.count < |q| && acc.size < budget
    ensures ScannedTo(cfg, s, q, ScanStep(cfg, s, q[acc.count].param, acc), budget)
  {
    hide ParamsIn, SetSum;
    var p := q[acc.count].param;
    MissingNext(s, q, acc.count);
    if s.StatusOf(p) == NotAvailable && p !in acc.wanted {
      SetSumRemove(acc.wanted + {p}, p, cfg.numel);
      assert acc.wanted + {p} - {p} == acc.wanted;
    }
  }

  lemma {:induction false} ScanStops(cfg: Config, s: Pool, q: seq<Entry>, acc: Prefetched, budget: int)
    requires acc.count <= |q| && ScannedTo(cfg, s, q, acc, budget)
    ensures var r := PrefetchScan(cfg, s, q[acc.count..], acc, budget);
            ScannedTo(cfg, s, q, r, budget) && (r.count == |q| || r.size >= budget)
    decreases |q| - acc.count
  {
    hide ScannedTo;
    var n := acc.count;
    if n < |q| && acc.size < budget {
      assert q[n..][0] == q[n] && q[n..][1..] == q[n + 1..];
      ScanStepExact(cfg, s, q, acc, budget);
      ScanStops(cfg, s, q, ScanStep(cfg, s, q[n].param, acc), budget);
    }
  }

  /** The prefetch loop pops entries until the partitioned parameters among them fill a bucket, or would leave as many
      elements available as are allowed, or no entry is left, and asks for exactly those parameters. */
  lemma ScanExact(cfg: Config, s: Pool, q: seq<Entry>)
    ensures var r := Scan(cfg, s, q);
            && r.wanted == s.Missing(ParamsIn(q[..r.count]))
            && (forall n :: 0 <= n < r.count ==>
                  MissingAmong(cfg, s, q, n) < cfg.prefetchBucket && s.nAvailable + MissingAmong(cfg, s, q, n) < cfg.maxAvailable)
            && (|| r.count == |q|
                || MissingAmong(cfg, s, q, r.count) >= cfg.prefetchBucket
                || s.nAvailable + MissingAmong(cfg, s, q, r.count) >= cfg.maxAvailable)
  {
    assert q[0..] == q && ParamsIn(q[..0]) == {};
    assert s.Missing({}) == {};
    ScanStops(cfg, s, q, Prefetched(0, {}, 0), Budget(cfg, s));
    hide MissingAmong, PrefetchScan, ParamsIn, SetSum;
  }

  /** The size of the modules the look-ahead passes before it reaches the j-th. */
  function Distance(cfg: Config, order: seq<int>, j: nat): nat
    requires j <= |order|
  {
    if j == 0 then 0 else ListSize(cfg, cfg.moduleParams(order[0])) + Distance(cfg, order[1..], j - 1)
  }

  /** Some coming module uses p and lies within the reuse distance. */
  ghost predicate ReusedSoon(cfg: Config, order: seq<int>, traversed: nat, p: int)
  {
    exists j :: 0 <= j < |order| && traversed + Distance(cfg, order, j) < cfg.maxReuse && p in cfg.ParamsOf(order[j])
  }

  lemma ReusedSoonSplits(cfg: Config, order: seq<int>, traversed: nat, p: int)
    requires order != [] && traversed < cfg.maxReuse
    ensures ReusedSoon(cfg, order, traversed, p) <==>
            || p in cfg.ParamsOf(order[0])
            || ReusedSoon(cfg, order[1..], traversed + ListSize(cfg, cfg.moduleParams(order[0])), p)
  {
    var size := ListSize(cfg, cfg.moduleParams(order[0]));
    if p in cfg.ParamsOf(order[0]) {
      assert Distance(cfg, order, 0) == 0;
    }
    if ReusedSoon(cfg, order[1..], traversed + size, p) {
      var j :| 0 <= j < |order[1..]| && traversed + size + Distance(cfg, order[1..], j) < cfg.maxReuse
               && p in cfg.ParamsOf(order[1..][j]);
      assert Distance(cfg, order, j + 1) == size + Distance(cfg, order[1..], j);
      assert order[j + 1] == order[1..][j];
    }
    if ReusedSoon(cfg, order, traversed, p) && p !in cfg.ParamsOf(order[0]) {
      var j :| 0 <= j < |order| && traversed + Distance(cfg, order, j) < cfg.maxReuse && p in cfg.ParamsOf(order[j]);
      assert Distance(cfg, order, j) == size + Distance(cfg, order[1..], j - 1);
      assert order[j] == order[1..][j - 1];
    }
  }

  /** The look-ahead loop removes exactly the candidates that are used again within the reuse distance. */
  lemma {:induction false} LookAheadExact(cfg: Config, order: seq<int>, traversed: nat, candidates: set<int>, p: int)
    ensures p in LookAhead(cfg, order, traversed, candidates) <==>
            p in candidates && !ReusedSoon(cfg, order, traversed, p)
    decreases |order|
  {
    if order != [] && traversed < cfg.maxReuse {
      ReusedSoonSplits(cfg, order, traversed, p);
      LookAheadExact(cfg, order[1..], traversed + ListSize(cfg, cfg.moduleParams(order[0])),
                     candidates - cfg.ParamsOf(order[0]), p);
    }
  }

  /** In a replay, a module may release exactly those of its parameters that are not persistent, have no later
      use already popped by the prefetch, and are not used again within the reuse distance. */
  lemma MayReleaseExactly(cfg: Config, es: seq<Event>, m: int, p: int)
    requires Legal(es) && Run(cfg, es).Ok? && Run(cfg, es).value.trace.mode == Complete
    ensures var t := Run(cfg, es).value.trace;
            p in ParamsToRelease(cfg, t, m) <==>
              && p in cfg.ParamsOf(m) && !cfg.persist(p)
              && (forall e :: e in Popped(t) && e.param == p ==> e.step <= t.stepId)
              && !ReusedSoon(cfg, t.moduleOrder[t.stepId..], 0, p)
  {
    var t := Run(cfg, es).value.trace;
    MostRecentMeans(cfg, t, p);
    var candidates := set x | x in cfg.ParamsOf(m) && !cfg.persist(x) && t.MostRecent(x) <= t.stepId;
    LookAheadExact(cfg, t.moduleOrder[t.stepId..], 0, candidates, p);
    if t.MostRecent(p) > t.stepId {
      assert Entry(p, t.MostRecent(p)) in Popped(t);
    }
  }

  // ----------------------------------------------------------------- replays

  /** The modules entered by a run, in order. */
  function Enters(es: seq<Event>): seq<int>
  {
    if es == [] then [] else
      Enters(es[..|es| - 1]) + (if es[|es| - 1].Enter? then [es[|es| - 1].m] else [])
  }

  /** The hook calls of one forward and backward pass. */
  predicate Body(es: seq<Event>)
  {
    forall i :: 0 <= i < |es| ==> es[i].Enter? || es[i].Exit?
  }

  lemma FetchTrace(cfg: Config, s: State, m: int)
    requires s.trace.mode == Complete && s.trace.queue.Some?
    ensures var t := Fetch(cfg, s, m).trace;
            t.mode == Complete && t.moduleOrder == s.trace.moduleOrder && t.stepId == s.trace.stepId + 1
  {
  }

  lemma StepReplays(cfg: Config, s: State, e: Event)
    requires Inv(cfg, s) && (e.Enter? || e.Exit?)
    requires s.trace.mode == Complete && s.trace.queue.Some?
    requires e.Enter? ==> s.trace.stepId < |s.trace.moduleOrder| && s.trace.moduleOrder[s.trace.stepId] == e.m
    ensures StepRun(cfg, s, e).Ok?
    ensures var t := StepRun(cfg, s, e).value.trace;
            && t.mode == Complete && t.moduleOrder == s.trace.moduleOrder
            && t.stepId == s.trace.stepId + if e.Enter? then 1 else 0
  {
    if e.Enter? {
      assert Prologue(s.trace, e.m) == Ok(s.trace);
      FetchTrace(cfg, s, e.m);
    }
  }

  lemma RunLast(cfg: Config, es: seq<Event>, e: Event)
    requires Legal(es + [e]) && Legal(es) && Run(cfg, es).Ok?
    ensures Allowed(Brackets(es), e)
    ensures Run(cfg, es + [e]) == StepRun(cfg, Run(cfg, es).value, e)
  {
    assert (es + [e])[..|es + [e]| - 1] == es;
  }

  lemma EntersLast(es: seq<Event>)
    requires es != []
    ensures Enters(es) == Enters(es[..|es| - 1]) + (if es[|es| - 1].Enter? then [es[|es| - 1].m] else [])
  {
  }

  ghost predicate Replaying(t: Trace, order: seq<int>, step: nat)
  {
    t.mode == Complete && t.moduleOrder == order && t.stepId == step && t.queue.Some?
  }

  /** A legal run that succeeded and stands at the given step of replaying order. */
  ghost predicate ReplayRun(cfg: Config, es: seq<Event>, order: seq<int>, step: nat)
  {
    Legal(es) && Run(cfg, es).Ok? && Replaying(Run(cfg, es).value.trace, order, step)
  }

  lemma RunReplays(cfg: Config, es: seq<Event>, e: Event, order: seq<int>, step: nat)
    requires Legal(es + [e]) && ReplayRun(cfg, es, order, step) && (e.Enter? || e.Exit?)
    requires e.Enter? ==> step < |order| && order[step] == e.m
    ensures ReplayRun(cfg, es + [e], order, step + if e.Enter? then 1 else 0)
  {
    RunLast(cfg, es, e);
    StepReplays(cfg, Run(cfg, es).value, e);
  }

  lemma EntersPrefix(body: seq<Event>, order: seq<int>)
    requires body != [] && Enters(body) <= order
    ensures var front, e := body[..|body| - 1], body[|body| - 1];
            && Enters(front) <= order
            && |Enters(body)| == |Enters(front)| + (if e.Enter? then 1 else 0)
            && (e.Enter? ==> |Enters(front)| < |order| && order[|Enters(front)|] == e.m)
  {
    EntersLast(body);
  }

  /** Replaying a prefix of the recorded order succeeds and counts the steps. */
  lemma {:induction false} BodyReplays(cfg: Config, pre: seq<Event>, body: seq<Event>, order: seq<int>)
    requires Legal(pre + body) && ReplayRun(cfg, pre, order, 0) && Body(body)
    requires Enters(body) <= order
    ensures ReplayRun(cfg, pre + body, order, |Enters(body)|)
    decreases |body|
  {
    hide ReplayRun, Legal;
    if body == [] {
      assert pre + body == pre;
    } else {
      var front, e := body[..|body| - 1], body[|body| - 1];
      assert pre + body == (pre + front) + [e];
      EntersPrefix(body, order);
      LegalPrefix(pre + front, [e]);
      BodyReplays(cfg, pre, front, order);
      RunReplays(cfg, pre + front, e, order, |Enters(front)|);
    }
  }

  lemma StepRecords(cfg: Config, s: State, e: Event)
    requires Inv(cfg, s) && (e.Enter? || e.Exit?)
    requires s.trace.mode == Record
    ensures StepRun(cfg, s, e).Ok?
    ensures var t := StepRun(cfg, s, e).value.trace;
            && t.mode == Record
            && t.moduleOrder == s.trace.moduleOrder + (if e.Enter? then [e.m] else [])
  {
  }

  /** The first iteration records exactly the modules it enters, and leaves nothing in flight. */
  lemma {:induction false} BodyRecords(cfg: Config, body: seq<Event>)
    requires Legal(body) && Body(body)
    ensures Run(cfg, body).Ok?
    ensures var t := Run(cfg, body).value.trace; t.mode == Record && t.moduleOrder == Enters(body)
    decreases |body|
  {
    if body != [] {
      var n := |body| - 1;
      assert body == body[..n] + [body[n]];
      LegalPrefix(body[..n], [body[n]]);
      EntersLast(body);
      BodyRecords(cfg, body[..n]);
      RunLast(cfg, body[..n], body[n]);
      StepRecords(cfg, Run(cfg, body[..n]).value, body[n]);
    }
  }

  /** A replay that reached the end of its trace has nothing left in flight. */
  lemma FullReplayIsQuiet(cfg: Config, s: State)
    requires Inv(cfg, s) && s.trace.mode == Complete && s.trace.stepId == |s.trace.moduleOrder|
    ensures s.pool.registry == map[]
  {
    forall p ensures p !in s.pool.registry {
      MostRecentMeans(cfg, s.trace, p);
    }
    EmptyMap(s.pool.registry);
  }

  /** Whole training: every iteration is a body, then reset_step, then the partitioning of everything. */
  function Training(bodies: seq<seq<Event>>): seq<Event>
  {
    if bodies == [] then [] else
      Training(bodies[..|bodies| - 1]) + bodies[|bodies| - 1] + [EndIteration] + [PartitionAll]
  }

  ghost predicate BetweenIterations(cfg: Config, s: State, order: seq<int>)
  {
    && Replaying(s.trace, order, 0)
    && (forall p :: p in cfg.allParams ==> s.pool.StatusOf(p) == NotAvailable)
  }

  /** Closing an iteration whose body succeeded and left nothing in flight. */
  lemma CloseIteration(cfg: Config, es: seq<Event>)
    requires Legal(es + [EndIteration] + [PartitionAll]) && Legal(es) && Run(cfg, es).Ok?
    requires Run(cfg, es).value.pool.registry == map[]
    requires Run(cfg, es).value.trace.mode != Invalid
    ensures Run(cfg, es + [EndIteration] + [PartitionAll]).Ok?
    ensures BetweenIterations(cfg, Run(cfg, es + [EndIteration] + [PartitionAll]).value, Run(cfg, es).value.trace.moduleOrder)
  {
    var one := es + [EndIteration];
    LegalPrefix(one, [PartitionAll]);
    RunLast(cfg, es, EndIteration);
    ResetKeeps(cfg, Run(cfg, es).value);
    RunLast(cfg, one, PartitionAll);
    ReleaseAllKeeps(cfg, Run(cfg, one).value.pool, SetOf(cfg.allParams));
    forall p | p in cfg.allParams ensures p in SetOf(cfg.allParams) {}
  }

  lemma {:induction false} LegalPrefix(a: seq<Event>, b: seq<Event>)
    requires Legal(a + b)
    ensures Legal(a)
    decreases |b|
  {
    if b == [] {
      assert a + b == a;
    } else {
      assert (a + b)[..|a + b| - 1] == a + b[..|b| - 1];
      LegalPrefix(a, b[..|b| - 1]);
    }
  }

  /** If every iteration enters the modules in the order the first one did, no iteration ever fails, and between
      iterations every parameter is partitioned. */
  lemma {:induction false} TrainingNeverFails(cfg: Config, bodies: seq<seq<Event>>, order: seq<int>)
    requires Legal(Training(bodies))
    requires forall i :: 0 <= i < |bodies| ==> Body(bodies[i]) && Enters(bodies[i]) == order
    ensures Run(cfg, Training(bodies)).Ok?
    ensures bodies != [] ==> BetweenIterations(cfg, Run(cfg, Training(bodies)).value, order)
    decreases |bodies|
  {
    if bodies != [] {
      var n := |bodies| - 1;
      var pre := Training(bodies[..n]);
      var body := bodies[n];
      assert Training(bodies) == pre + body + [EndIteration] + [PartitionAll];
      assert pre + body + [EndIteration] + [PartitionAll] == (pre + body) + ([EndIteration] + [PartitionAll]);
      LegalPrefix(pre + body, [EndIteration] + [PartitionAll]);
      LegalPrefix(pre, body);
      TrainingNeverFails(cfg, bodies[..n], order);
      if n == 0 {
        assert pre + body == body;
        BodyRecords(cfg, body);
      } else {
        BodyReplays(cfg, pre, body, order);
        FullReplayIsQuiet(cfg, Run(cfg, pre + body).value);
      }
      CloseIteration(cfg, pre + body);
    }
  }

  /** A trace and a queue the code keeps only while replaying: when reset_step compares the recorded parameter
      order across ranks, that order is still empty. */
  lemma ComparedParamOrderIsEmpty(cfg: Config, es: seq<Event>)
    requires Legal(es) && Run(cfg, es).Ok?
    requires Run(cfg, es).value.trace.mode != Complete
    ensures Run(cfg, es).value.trace.paramOrder == []
  {
    assert TraceInv(cfg, Run(cfg, es).value);
  }
}
