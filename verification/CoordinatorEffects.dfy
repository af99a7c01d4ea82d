/** What every hook does, parameter by parameter: relations between the state before and after, in terms of statuses, users,
    registrations, queue entries, sizes and limits alone, and the proof that every step of every legal run obeys them. */
module CoordinatorEffects {
  import opened Prelude
  import opened Blocks
  import opened SubGroups
  import opened CoordinatorState
  import opened CoordinatorPool
  import opened CoordinatorTrace
  import opened CoordinatorRuns
  import opened CoordinatorTheorems

  // -------------------------------------------------------------------- gather

  /** One gather of the partitioned parameters among ps: they are in flight, registered under one new handle that lists
      them in ascending order, and counted. Everything else is as before. */
  ghost predicate Gathers(cfg: Config, s: Pool, r: Pool, ps: set<int>)
  {
    var miss := set p | p in ps && s.StatusOf(p) == NotAvailable;
    && (forall p :: GathersOne(s, r, miss, p))
    && (miss == {} ==> r.handles == s.handles)
    && (miss != {} ==> NewHandle(s, r, miss))
    && r.nAvailable == s.nAvailable + SetSum(miss, cfg.numel)
  }

  ghost predicate GathersOne(s: Pool, r: Pool, miss: set<int>, p: int)
  {
    && r.StatusOf(p) == (if p in miss then InFlight else s.StatusOf(p))
    && r.ActiveOf(p) == s.ActiveOf(p)
    && (p in r.registry <==> p in s.registry || p in miss)
    && (p in r.registry ==> r.registry[p] == if p in miss then |s.handles| else s.registry[p])
  }

  ghost predicate NewHandle(s: Pool, r: Pool, miss: set<int>)
  {
    && |r.handles| == |s.handles| + 1 && r.handles[..|s.handles|] == s.handles
    && Ascending(r.handles[|s.handles|].params) && (forall p :: p in r.handles[|s.handles|].params <==> p in miss)
    && !r.handles[|s.handles|].complete
  }

  lemma {:induction false} AllGatherOne(cfg: Config, s: Pool, ps: set<int>, p: int)
    ensures GathersOne(s, AllGather(cfg, s, ps), s.Missing(ps), p)
  {
    hide SetSum, Sorted, Pool.Missing;
  }

  lemma {:induction false} AllGatherLists(cfg: Config, s: Pool, ps: set<int>)
    ensures s.Missing(ps) != {} ==> NewHandle(s, AllGather(cfg, s, ps), s.Missing(ps))
  {
    var miss := s.Missing(ps);
    SortedAscends(miss);
    forall p ensures p in Sorted(miss) <==> p in miss { SortedMember(miss, p); }
    hide SetSum, Sorted, Ascending, Pool.Missing, Assign;
  }

  lemma {:induction false} AllGatherDoes(cfg: Config, s: Pool, ps: set<int>)
    ensures Gathers(cfg, s, AllGather(cfg, s, ps), ps)
  {
    var r, miss := AllGather(cfg, s, ps), s.Missing(ps);
    assert miss == set p | p in ps && s.StatusOf(p) == NotAvailable;
    AllGatherLists(cfg, s, ps);
    AllGatherCounts(cfg, s, ps);
    hide AllGather, SetSum, GathersOne, NewHandle, Pool.StatusOf, Pool.Missing;
    forall p ensures GathersOne(s, r, miss, p) { AllGatherOne(cfg, s, ps, p); }
  }

  lemma {:induction false} AllGatherCounts(cfg: Config, s: Pool, ps: set<int>)
    ensures var r, miss := AllGather(cfg, s, ps), s.Missing(ps);
            r.nAvailable == s.nAvailable + SetSum(miss, cfg.numel) && (miss == {} ==> r.handles == s.handles)
  {
    hide Pool.Missing, Sorted, Assign;
  }

  // ---------------------------------------------------------------------- wait

  /** Module m becomes a user of ps; the handles its registered parameters wait for complete, all their parameters in
      flight arrive, and those of ps are no longer registered. */
  ghost predicate Waits(s: Pool, r: Pool, ps: set<int>, m: int)
  {
    && (forall p :: WaitsOne(s, r, ps, m, p))
    && |r.handles| == |s.handles|
    && (forall h :: 0 <= h < |s.handles| ==>
          && r.handles[h].params == s.handles[h].params
          && (r.handles[h].complete <==> s.handles[h].complete || AwaitedBy(s, ps, h)))
    && r.nAvailable == s.nAvailable
  }

  ghost predicate AwaitedBy(s: Pool, ps: set<int>, h: int)
  {
    exists q :: q in ps && q in s.registry && s.registry[q] == h
  }

  ghost predicate WaitsOne(s: Pool, r: Pool, ps: set<int>, m: int, p: int)
  {
    && r.StatusOf(p)
       == (if p in s.registry && s.StatusOf(p) == InFlight && AwaitedBy(s, ps, s.registry[p]) then Available else s.StatusOf(p))
    && r.ActiveOf(p) == (if p in ps then s.ActiveOf(p) + {m} else s.ActiveOf(p))
    && (p in r.registry <==> p in s.registry && p !in ps)
    && (p in r.registry ==> r.registry[p] == s.registry[p])
  }

  lemma {:induction false} FetchWaitDoes(s: Pool, ps: set<int>, m: int)
    ensures Waits(s, FetchWait(s, ps, m), ps, m)
  {
    var r, hs := FetchWait(s, ps, m), Waited(s, ps);
    forall h: nat ensures h in hs <==> AwaitedBy(s, ps, h) { }
    forall p ensures WaitsOne(s, r, ps, m, p) { FetchWaitStatus(s, ps, m, p); }
    hide WaitsOne, AwaitedBy;
  }

  // --------------------------------------------------------------------- queue

  /** The dictionary remembers, for every parameter among the entries es that left the queue, the step of the last of
      them; the others' answers are as before. */
  ghost predicate Notes(t: Trace, r: Trace, es: seq<Entry>)
  {
    forall p :: NotesOne(t, r, es, p)
  }

  ghost predicate NotesOne(t: Trace, r: Trace, es: seq<Entry>, p: int)
  {
    && (Absent(es, p) ==> r.MostRecent(p) == t.MostRecent(p))
    && forall i :: LastUse(es, p, i) ==> r.MostRecent(p) == es[i].step
  }

  ghost predicate Absent(es: seq<Entry>, p: int)
  {
    forall i :: 0 <= i < |es| ==> es[i].param != p
  }

  /** The i-th entry is the last one of p. */
  ghost predicate LastUse(es: seq<Entry>, p: int, i: int)
  {
    0 <= i < |es| && es[i].param == p && forall j :: i < j < |es| ==> es[j].param != p
  }

  lemma {:induction false} MarkedAbsent(mr: map<int, int>, es: seq<Entry>, p: int)
    requires Absent(es, p)
    ensures (p in MarkPopped(mr, es) <==> p in mr) && (p in mr ==> MarkPopped(mr, es)[p] == mr[p])
    decreases |es|
  {
    if es != [] {
      var front := es[..|es| - 1];
      assert Absent(front, p) by { assert forall i :: 0 <= i < |front| ==> front[i] == es[i]; }
      assert es[|es| - 1].param != p;
      MarkedAbsent(mr, front, p);
      hide Absent;
    }
  }

  lemma {:induction false} MarkedLast(mr: map<int, int>, es: seq<Entry>, p: int, i: int)
    requires LastUse(es, p, i)
    ensures p in MarkPopped(mr, es) && MarkPopped(mr, es)[p] == es[i].step
    decreases |es|
  {
    var front := es[..|es| - 1];
    if i < |es| - 1 {
      assert LastUse(front, p, i) by { assert forall j :: 0 <= j < |front| ==> front[j] == es[j]; }
      assert es[|es| - 1].param != p && front[i] == es[i];
      MarkedLast(mr, front, p, i);
    }
    hide LastUse;
  }

  lemma {:induction false} PopNotes(t: Trace, n: nat, step: nat)
    requires t.queue.Some? && n <= |t.queue.value|
    ensures Notes(t, Pop(t, n).(stepId := step), t.queue.value[..n])
  {
    forall p ensures NotesOne(t, Pop(t, n).(stepId := step), t.queue.value[..n], p) {
      var es := t.queue.value[..n];
      if Absent(es, p) { MarkedAbsent(t.mostRecent, es, p); }
      forall i | LastUse(es, p, i) ensures p in MarkPopped(t.mostRecent, es) && MarkPopped(t.mostRecent, es)[p] == es[i].step {
        MarkedLast(t.mostRecent, es, p, i);
      }
      hide MarkPopped, Absent, LastUse;
    }
    hide NotesOne, Pop;
  }

  /** n entries left the queue and were noted; nothing else of the trace but the step changed. */
  ghost predicate Pops(t: Trace, r: Trace, n: nat, step: nat)
  {
    && t.queue.Some? && n <= |t.queue.value|
    && r == t.(queue := Some(t.queue.value[n..]), mostRecent := r.mostRecent, stepId := step)
    && Notes(t, r, t.queue.value[..n])
  }

  lemma {:induction false} PopDoes(t: Trace, n: nat, step: nat)
    requires t.queue.Some? && n <= |t.queue.value|
    ensures Pops(t, Pop(t, n).(stepId := step), n, step)
  {
    PopNotes(t, n, step);
    hide Notes, MarkPopped;
  }

  /** The first n entries are those of the current step. */
  ghost predicate Current(t: Trace, n: nat)
  {
    && t.queue.Some? && n <= |t.queue.value|
    && forall i :: 0 <= i < |t.queue.value| ==>
         if i < n then t.queue.value[i].step == t.stepId else t.queue.value[i].step > t.stepId
  }

  lemma {:induction false} LaterSteps(cfg: Config, t: Trace, q: seq<Entry>, e: Entry)
    requires Suffix(q, TraceFrom(cfg, t.moduleOrder, t.stepId + 1)) && e in q
    ensures e.step > t.stepId
  {
    InSuffix(q, TraceFrom(cfg, t.moduleOrder, t.stepId + 1), e);
    TraceEntries(cfg, t.moduleOrder, t.stepId + 1, e);
    hide TraceFrom, Suffix;
  }

  lemma {:induction false} FrontIsCurrent(t: Trace, n: nat)
    requires t.queue.Some? && n <= |t.queue.value|
    requires forall e :: e in t.queue.value[..n] ==> e.step == t.stepId
    requires forall e :: e in t.queue.value[n..] ==> e.step > t.stepId
    ensures Current(t, n)
  {
    var q := t.queue.value;
    forall i | 0 <= i < |q| ensures if i < n then q[i].step == t.stepId else q[i].step > t.stepId {
      if i < n { assert q[i] in q[..n]; } else { assert q[i] in q[n..]; }
    }
  }

  lemma {:induction false} DiscardDoes(cfg: Config, t: Trace, m: int) returns (n: nat)
    requires ReplayInv(cfg, t) && t.stepId < |t.moduleOrder| && m == t.moduleOrder[t.stepId]
    ensures Current(t, n) && Pops(t, NextTrace(cfg, t, m), n, t.stepId + 1)
  {
    n := QueuedNow(cfg, t);
    DiscardIsQueuedNow(cfg, t);
    QueuedNowShape(cfg, t);
    NextIsPop(cfg, t, m, n);
    QueueThere(cfg, t);
    hide *;
    var q := t.queue.value;
    forall e | e in q[n..] ensures e.step > t.stepId { LaterSteps(cfg, t, q[n..], e); }
    FrontIsCurrent(t, n);
    PopDoes(t, n, t.stepId + 1);
  }

  lemma {:induction false} QueueThere(cfg: Config, t: Trace)
    requires ReplayInv(cfg, t)
    ensures t.queue.Some? && QueuedNow(cfg, t) <= |t.queue.value|
  {
    hide TraceFrom;
  }

  lemma {:induction false} NextIsPop(cfg: Config, t: Trace, m: int, n: nat)
    requires t.queue.Some? && t.stepId < |t.moduleOrder| && m == t.moduleOrder[t.stepId] && n <= |t.queue.value|
    requires DiscardCount(t.queue.value, {}, |NotYetFetched(cfg, t, m)|) == n
    ensures NextTrace(cfg, t, m) == Pop(t, n).(stepId := t.stepId + 1)
  {
    hide DiscardCount, NotYetFetched, MarkPopped;
  }

  // ------------------------------------------------------------------ prefetch

  /** The elements a prefetch would gather for the first n entries: partitioned parameters, each counted once. */
  ghost function Asked(cfg: Config, s: Pool, q: seq<Entry>, n: nat): nat
    requires n <= |q|
  {
    SetSum((set e | e in q[..n] && s.StatusOf(e.param) == NotAvailable :: e.param), cfg.numel)
  }

  /** The prefetch goes on as long as there are entries, less than a bucket is asked for, and less would be available
      than allowed. */
  ghost predicate StopsAt(cfg: Config, s: Pool, q: seq<Entry>, n: nat)
  {
    && n <= |q|
    && (n == |q| || Asked(cfg, s, q, n) >= cfg.prefetchBucket || s.nAvailable + Asked(cfg, s, q, n) >= cfg.maxAvailable)
    && forall k :: 0 <= k < n ==>
         Asked(cfg, s, q, k) < cfg.prefetchBucket && s.nAvailable + Asked(cfg, s, q, k) < cfg.maxAvailable
  }

  lemma {:induction false} AskedIs(cfg: Config, s: Pool, q: seq<Entry>, n: nat)
    requires n <= |q|
    ensures Asked(cfg, s, q, n) == MissingAmong(cfg, s, q, n)
  {
    assert (set e | e in q[..n] && s.StatusOf(e.param) == NotAvailable :: e.param) == s.Missing(ParamsIn(q[..n]));
  }

  /** When the prefetch stops, and what it asks for: exactly the partitioned parameters among the entries it popped. */
  lemma {:induction false} ScanStopsExactly(cfg: Config, s: Pool, q: seq<Entry>)
    ensures var r := Scan(cfg, s, q);
            && StopsAt(cfg, s, q, r.count)
            && (forall p :: p in r.wanted <==> s.StatusOf(p) == NotAvailable && exists i :: 0 <= i < r.count && q[i].param == p)
  {
    ScanExact(cfg, s, q);
    var r := Scan(cfg, s, q);
    AskedIs(cfg, s, q, r.count);
    forall k | 0 <= k < r.count
      ensures Asked(cfg, s, q, k) < cfg.prefetchBucket && s.nAvailable + Asked(cfg, s, q, k) < cfg.maxAvailable
    {
      AskedIs(cfg, s, q, k);
    }
    hide Scan, MissingAmong, Asked;
    forall p
      ensures p in r.wanted <==> s.StatusOf(p) == NotAvailable && exists i :: 0 <= i < r.count && q[i].param == p
    {
      InFront(q, r.count, p);
    }
  }

  lemma {:induction false} InFront(q: seq<Entry>, n: nat, p: int)
    requires n <= |q|
    ensures p in ParamsIn(q[..n]) <==> exists i :: 0 <= i < n && q[i].param == p
  {
    if i :| 0 <= i < n && q[i].param == p { assert q[i] in q[..n]; }
    if p in ParamsIn(q[..n]) {
      var e :| e in q[..n] && e.param == p;
      var i :| 0 <= i < n && q[..n][i] == e;
      assert q[i].param == p;
    }
  }

  /** The parameters of the first n entries. */
  function FrontParams(q: seq<Entry>, n: nat): set<int>
    requires n <= |q|
  {
    set e | e in q[..n] :: e.param
  }

  /** One prefetch: entries leave the queue until it stops, are noted, and what is partitioned among them is gathered. */
  ghost predicate Prefetches(cfg: Config, s: State, r: State)
  {
    s.trace.queue.Some? && exists n: nat :: PrefetchesTo(cfg, s, r, n)
  }

  ghost predicate PrefetchesTo(cfg: Config, s: State, r: State, n: nat)
    requires s.trace.queue.Some?
  {
    && StopsAt(cfg, s.pool, s.trace.queue.value, n)
    && Pops(s.trace, r.trace, n, s.trace.stepId)
    && Gathers(cfg, s.pool, r.pool, FrontParams(s.trace.queue.value, n))
  }

  lemma {:induction false} SameGather(cfg: Config, s: Pool, r: Pool, a: set<int>, b: set<int>)
    requires Gathers(cfg, s, r, a)
    requires forall p :: s.StatusOf(p) == NotAvailable ==> (p in a <==> p in b)
    ensures Gathers(cfg, s, r, b)
  {
    assert (set p | p in a && s.StatusOf(p) == NotAvailable) == (set p | p in b && s.StatusOf(p) == NotAvailable);
    hide GathersOne, NewHandle, SetSum, Pool.StatusOf;
  }

  lemma {:induction false} PrefetchDoes(cfg: Config, s: State)
    requires s.trace.queue.Some?
    ensures var scan := Scan(cfg, s.pool, s.trace.queue.value);
            Prefetches(cfg, s, State(AllGather(cfg, s.pool, scan.wanted), Pop(s.trace, scan.count)))
  {
    var q := s.trace.queue.value;
    var scan := Scan(cfg, s.pool, q);
    var r := State(AllGather(cfg, s.pool, scan.wanted), Pop(s.trace, scan.count));
    ScanStopsExactly(cfg, s.pool, q);
    AllGatherDoes(cfg, s.pool, scan.wanted);
    PopDoes(s.trace, scan.count, s.trace.stepId);
    assert Pop(s.trace, scan.count).(stepId := s.trace.stepId) == Pop(s.trace, scan.count);
    hide Scan, Pop, AllGather, StopsAt, Pops, Gathers;
    forall p | s.pool.StatusOf(p) == NotAvailable ensures p in scan.wanted <==> p in FrontParams(q, scan.count) {
      InFront(q, scan.count, p);
      assert FrontParams(q, scan.count) == ParamsIn(q[..scan.count]);
    }
    SameGather(cfg, s.pool, r.pool, scan.wanted, FrontParams(q, scan.count));
    assert PrefetchesTo(cfg, s, r, scan.count);
  }

  // --------------------------------------------------------------------- enter

  /** The trace after a hook outside a replay, by the mode it was in. */
  ghost predicate MovesPlainly(t: Trace, r: Trace, m: int)
  {
    && r.stepId == t.stepId + 1
    && match t.mode
       case Record =>
         && r.mode == Record && r.moduleOrder == t.moduleOrder + [m]
         && (forall x :: r.FetchedFor(x) == t.FetchedFor(x) + if x == m then [t.stepId] else [])
         && r.paramOrder == t.paramOrder && r.mostRecent == t.mostRecent && r.queue == t.queue
       case Invalid => r == t.(stepId := t.stepId + 1)
       case Complete =>
         && r.mode == Invalid && r.moduleOrder == [] && r.paramOrder == [] && r.queue == None && r.fetchedFor == t.fetchedFor
         && (forall p :: r.MostRecent(p) == NEVER)
  }

  /** The module the replay expects at this step. */
  predicate Expected(t: Trace, m: int)
  {
    t.mode == Complete && t.stepId < |t.moduleOrder| && t.moduleOrder[t.stepId] == m
  }

  /** A hook on entry of m: its parameters are gathered, waited for and used. In a replay the entries of the step then leave
      the queue and, if prefetching is on, the prefetch follows; otherwise only the trace moves. */
  ghost predicate EnterDoes(cfg: Config, s: State, r: State, m: int)
  {
    exists g: Pool, w: Pool :: EntersBy(cfg, s, r, m, g, w)
  }

  ghost predicate EntersBy(cfg: Config, s: State, r: State, m: int, g: Pool, w: Pool)
  {
    && Gathers(cfg, s.pool, g, SetOf(cfg.moduleParams(m))) && Waits(g, w, SetOf(cfg.moduleParams(m)), m)
    && if Expected(s.trace, m) then exists d: Trace, n: nat :: ReplaysBy(cfg, s, r, w, d, n)
       else r.pool == w && MovesPlainly(s.trace, r.trace, m)
  }

  ghost predicate ReplaysBy(cfg: Config, s: State, r: State, w: Pool, d: Trace, n: nat)
  {
    && Current(s.trace, n) && Pops(s.trace, d, n, s.trace.stepId + 1)
    && if cfg.prefetchBucket <= 0 then r == State(w, d) else Prefetches(cfg, State(w, d), r)
  }

  lemma {:induction false} FetchedDoes(cfg: Config, s: Pool, m: int)
    ensures var ps := SetOf(cfg.moduleParams(m));
            Gathers(cfg, s, AllGather(cfg, s, ps), ps) && Waits(AllGather(cfg, s, ps), Fetched(cfg, s, m), ps, m)
  {
    AllGatherDoes(cfg, s, SetOf(cfg.moduleParams(m)));
    FetchWaitDoes(AllGather(cfg, s, SetOf(cfg.moduleParams(m))), SetOf(cfg.moduleParams(m)), m);
    hide Gathers, Waits, AllGather, FetchWait, SetOf;
  }

  lemma {:induction false} PlainMoves(t: Trace, m: int)
    requires Prologue(t, m).Ok? && !Expected(t, m)
    ensures var r := Prologue(t, m).value; r.mode != Complete && MovesPlainly(t, r.(stepId := r.stepId + 1), m)
  {
  }

  lemma {:induction false} ExpectedParts(cfg: Config, s: State, m: int)
    requires Inv(cfg, s) && Expected(s.trace, m)
    ensures Prologue(s.trace, m) == Ok(s.trace)
    ensures s.trace.mode == Complete && s.trace.stepId < |s.trace.moduleOrder| && m == s.trace.moduleOrder[s.trace.stepId]
    ensures ReplayInv(cfg, s.trace) && s.trace.queue.Some?
  {
    hide PoolInv, Promise, TraceFrom;
  }

  lemma {:induction false} ReplayIntro(cfg: Config, s: State, r: State, w: Pool, d: Trace, n: nat)
    requires Current(s.trace, n) && Pops(s.trace, d, n, s.trace.stepId + 1)
    requires if cfg.prefetchBucket <= 0 then r == State(w, d) else Prefetches(cfg, State(w, d), r)
    ensures exists d: Trace, n: nat :: ReplaysBy(cfg, s, r, w, d, n)
  {
    hide Current, Pops, Prefetches;
    assert ReplaysBy(cfg, s, r, w, d, n);
  }

  lemma {:induction false} ReplayDoes(cfg: Config, s: State, m: int)
    requires Inv(cfg, s) && Expected(s.trace, m)
    ensures Prologue(s.trace, m) == Ok(s.trace)
    ensures exists d: Trace, n: nat :: ReplaysBy(cfg, s, Fetch(cfg, s, m), Fetched(cfg, s.pool, m), d, n)
  {
    hide *;
    ExpectedParts(cfg, s, m);
    FetchIsPrefetch(cfg, s, m);
    var n := DiscardDoes(cfg, s.trace, m);
    var w, d := Fetched(cfg, s.pool, m), NextTrace(cfg, s.trace, m);
    NextQueued(cfg, s.trace, m);
    if cfg.prefetchBucket > 0 { PrefetchDoes(cfg, State(w, d)); }
    ReplayIntro(cfg, s, Fetch(cfg, s, m), w, d, n);
  }

  lemma {:induction false} NextQueued(cfg: Config, t: Trace, m: int)
    requires t.queue.Some?
    ensures NextTrace(cfg, t, m).queue.Some?
  {
    hide Discarded;
  }

  lemma {:induction false} EnterObeys(cfg: Config, s: State, m: int)
    requires Inv(cfg, s) && EnterModule(cfg, s, m).Ok?
    ensures EnterDoes(cfg, s, EnterModule(cfg, s, m).value, m)
  {
    var t, r := Prologue(s.trace, m).value, EnterModule(cfg, s, m).value;
    FetchedDoes(cfg, s.pool, m);
    if Expected(s.trace, m) {
      ReplayDoes(cfg, s, m);
    } else {
      PlainMoves(s.trace, m);
      PlainFetch(cfg, State(s.pool, t), m);
    }
    hide Inv, Fetch, Fetched, Gathers, Waits, AllGather, Prologue, MovesPlainly, Expected, ReplaysBy;
    assert EntersBy(cfg, s, r, m, AllGather(cfg, s.pool, SetOf(cfg.moduleParams(m))), Fetched(cfg, s.pool, m));
  }

  // ---------------------------------------------------------------------- exit

  function ModuleSize(cfg: Config, m: int): nat
  {
    Total(Sizes(cfg.moduleParams(m), cfg.numel))
  }

  /** The sizes of the modules of a trace. */
  function ModuleSizes(cfg: Config, order: seq<int>): seq<nat>
  {
    seq(|order|, i requires 0 <= i < |order| => ModuleSize(cfg, order[i]))
  }

  /** A coming module uses p, and the modules from the current step up to it are smaller than the reuse distance. */
  ghost predicate UsedSoon(cfg: Config, t: Trace, p: int)
  {
    exists j :: t.stepId <= j < |t.moduleOrder| && UsedAt(cfg, t, p, j)
  }

  ghost predicate UsedAt(cfg: Config, t: Trace, p: int, j: nat)
    requires t.stepId <= j < |t.moduleOrder|
  {
    && p in cfg.moduleParams(t.moduleOrder[j])
    && Off(ModuleSizes(cfg, t.moduleOrder), j) - Off(ModuleSizes(cfg, t.moduleOrder), t.stepId) < cfg.maxReuse
  }

  /** Outside a replay a module may give up all its parameters; in a replay only those that are not persistent, of which no
      later use has left the queue, and that are not used again soon. */
  ghost predicate MayGiveUp(cfg: Config, t: Trace, p: int)
  {
    t.mode == Complete ==>
      && !cfg.persist(p)
      && (t.queue.Some? && |t.queue.value| <= |t.paramOrder| ==>
            forall i :: 0 <= i < |t.paramOrder| - |t.queue.value| && t.paramOrder[i].param == p ==>
              t.paramOrder[i].step <= t.stepId)
      && !UsedSoon(cfg, t, p)
  }

  /** p is partitioned when m is left. */
  ghost predicate Leaves(cfg: Config, s: State, m: int, p: int)
  {
    && p in cfg.moduleParams(m) && !cfg.external(p) && MayGiveUp(cfg, s.trace, p)
    && s.pool.StatusOf(p) == Available && s.pool.ActiveOf(p) <= {m}
  }

  /** A hook on exit of m: it no longer uses its parameters, and those that leave are partitioned and no longer counted. */
  ghost predicate ExitDoes(cfg: Config, s: State, r: State, m: int)
  {
    && (forall p :: ExitsOne(cfg, s, r, m, p))
    && r.pool.nAvailable == s.pool.nAvailable - SetSum((set p | p in cfg.moduleParams(m) && Leaves(cfg, s, m, p)), cfg.numel)
    && r.pool.registry == s.pool.registry && r.pool.handles == s.pool.handles && r.trace == s.trace
  }

  ghost predicate ExitsOne(cfg: Config, s: State, r: State, m: int, p: int)
  {
    && r.pool.ActiveOf(p) == (if p in cfg.moduleParams(m) then s.pool.ActiveOf(p) - {m} else s.pool.ActiveOf(p))
    && r.pool.StatusOf(p) == (if Leaves(cfg, s, m, p) then NotAvailable else s.pool.StatusOf(p))
  }

  lemma {:induction false} ListSizeIs(cfg: Config, ps: seq<int>)
    ensures ListSize(cfg, ps) == Total(Sizes(ps, cfg.numel))
    decreases |ps|
  {
    if ps != [] {
      var n := |ps| - 1;
      ListSizeIs(cfg, ps[..n]);
      assert ps == ps[..n] + [ps[n]];
      GroupSizeOne(ps[..n], ps[n], cfg.numel);
    }
  }

  lemma {:induction false} DistanceIs(cfg: Config, order: seq<int>, from: nat, j: nat)
    requires from + j <= |order|
    ensures Distance(cfg, order[from..], j) == Off(ModuleSizes(cfg, order), from + j) - Off(ModuleSizes(cfg, order), from)
    decreases j
  {
    if j > 0 {
      var sizes := ModuleSizes(cfg, order);
      assert order[from..][0] == order[from] && order[from..][1..] == order[from + 1..];
      DistanceIs(cfg, order, from + 1, j - 1);
      ListSizeIs(cfg, cfg.moduleParams(order[from]));
      BlockFits(sizes, from);
      assert sizes[from] == ModuleSize(cfg, order[from]);
      hide Off, Total, ListSize, ModuleSizes;
    }
  }

  /** The j-th module of the look-ahead window uses p soon enough. */
  ghost predicate ReusedAt(cfg: Config, order: seq<int>, p: int, j: nat)
    requires j < |order|
  {
    0 + Distance(cfg, order, j) < cfg.maxReuse && p in cfg.ParamsOf(order[j])
  }

  lemma {:induction false} AtIs(cfg: Config, t: Trace, p: int, j: nat)
    requires t.stepId + j < |t.moduleOrder|
    ensures ReusedAt(cfg, t.moduleOrder[t.stepId..], p, j) <==> UsedAt(cfg, t, p, t.stepId + j)
  {
    DistanceIs(cfg, t.moduleOrder, t.stepId, j);
    assert t.moduleOrder[t.stepId..][j] == t.moduleOrder[t.stepId + j];
    hide Distance, Off, ModuleSizes;
  }

  lemma {:induction false} ReusedIs(cfg: Config, order: seq<int>, p: int)
    ensures ReusedSoon(cfg, order, 0, p) <==> exists j :: 0 <= j < |order| && ReusedAt(cfg, order, p, j)
  {
    hide Distance, Config.ParamsOf;
    if ReusedSoon(cfg, order, 0, p) {
      var j :| 0 <= j < |order| && 0 + Distance(cfg, order, j) < cfg.maxReuse && p in cfg.ParamsOf(order[j]);
      assert ReusedAt(cfg, order, p, j);
    }
    if j :| 0 <= j < |order| && ReusedAt(cfg, order, p, j) {
      assert 0 + Distance(cfg, order, j) < cfg.maxReuse && p in cfg.ParamsOf(order[j]);
    }
  }

  lemma {:induction false} SoonIs(cfg: Config, t: Trace, p: int)
    requires t.stepId <= |t.moduleOrder|
    ensures ReusedSoon(cfg, t.moduleOrder[t.stepId..], 0, p) <==> UsedSoon(cfg, t, p)
  {
    var order := t.moduleOrder[t.stepId..];
    ReusedIs(cfg, order, p);
    hide ReusedSoon, ReusedAt, UsedAt;
    forall j: nat | j < |order| ensures ReusedAt(cfg, order, p, j) <==> UsedAt(cfg, t, p, t.stepId + j) {
      AtIs(cfg, t, p, j);
    }
    if UsedSoon(cfg, t, p) {
      var j :| t.stepId <= j < |t.moduleOrder| && UsedAt(cfg, t, p, j);
      var i := j - t.stepId;
      assert t.stepId + i == j && 0 <= i < |order|;
      assert ReusedAt(cfg, order, p, i);
    }
  }

  lemma {:induction false} CandidatesAre(cfg: Config, t: Trace, m: int, p: int)
    requires ReplayInv(cfg, t) && t.mode == Complete
    ensures t.queue.Some? && |t.queue.value| <= |t.paramOrder| && t.stepId <= |t.moduleOrder|
    ensures t.MostRecent(p) <= t.stepId <==>
              forall i :: 0 <= i < |t.paramOrder| - |t.queue.value| && t.paramOrder[i].param == p ==> t.paramOrder[i].step <= t.stepId
  {
    MostRecentMeans(cfg, t, p);
    var n := |t.paramOrder| - |t.queue.value|;
    var popped := Popped(t);
    assert popped == t.paramOrder[..n];
    if t.MostRecent(p) <= t.stepId {
      forall i | 0 <= i < n && t.paramOrder[i].param == p ensures t.paramOrder[i].step <= t.stepId {
        assert t.paramOrder[i] in popped;
      }
    } else {
      var e := Entry(p, t.MostRecent(p));
      assert e in popped;
      var i :| 0 <= i < n && popped[i] == e;
      assert t.paramOrder[i] == e;
    }
  }

  /** What a module may give up, in every mode of a run. */
  lemma {:induction false} GivesUp(cfg: Config, s: State, m: int, p: int)
    requires Inv(cfg, s)
    ensures p in ParamsToRelease(cfg, s.trace, m) <==> p in cfg.moduleParams(m) && MayGiveUp(cfg, s.trace, p)
  {
    var t := s.trace;
    if t.mode == Complete {
      CandidatesAre(cfg, t, m, p);
      SoonIs(cfg, t, p);
      var candidates := set x | x in cfg.ParamsOf(m) && !cfg.persist(x) && t.MostRecent(x) <= t.stepId;
      LookAheadExact(cfg, t.moduleOrder[t.stepId..], 0, candidates, p);
      hide LookAhead, UsedSoon, ReusedSoon;
    }
    hide PoolInv, RecordInv, ReplayInv, Promise;
  }

  lemma {:induction false} ExitObeys(cfg: Config, s: State, m: int)
    requires Inv(cfg, s)
    ensures ExitDoes(cfg, s, Release(cfg, s, m), m)
  {
    var r, ps, give := Release(cfg, s, m), cfg.ParamsOf(m), ParamsToRelease(cfg, s.trace, m);
    forall p
      ensures p in Freed(cfg, s.pool, ps, m, give) <==> p in cfg.moduleParams(m) && Leaves(cfg, s, m, p)
      ensures ExitsOne(cfg, s, r, m, p)
    {
      GivesUp(cfg, s, m, p);
      LeaveStatus(cfg, s.pool, ps, m, give, p);
      FreedIs(cfg, s, m, p);
      hide Leave, ParamsToRelease, MayGiveUp, Inv, Freed;
    }
    assert Freed(cfg, s.pool, ps, m, give) == set p | p in cfg.moduleParams(m) && Leaves(cfg, s, m, p);
    hide Freed, Leaves, SetSum, ExitsOne, Inv, ParamsToRelease;
  }

  lemma {:induction false} FreedIs(cfg: Config, s: State, m: int, p: int)
    ensures p in Freed(cfg, s.pool, cfg.ParamsOf(m), m, ParamsToRelease(cfg, s.trace, m)) <==>
              && p in cfg.moduleParams(m) && p in ParamsToRelease(cfg, s.trace, m) && !cfg.external(p)
              && s.pool.StatusOf(p) == Available && s.pool.ActiveOf(p) <= {m}
  {
    hide ParamsToRelease, Pool.StatusOf, Pool.ActiveOf;
    assert s.pool.ActiveOf(p) - {m} == {} <==> s.pool.ActiveOf(p) <= {m};
  }

  // ------------------------------------------------------------ end of iteration

  /** The uses of a recorded order: each module in turn, with each of its parameters once, in ascending order. */
  ghost predicate UsesInOrder(cfg: Config, order: seq<int>, q: seq<Entry>)
  {
    && (forall e :: e in q <==> 0 <= e.step < |order| && e.param in cfg.moduleParams(order[e.step]))
    && forall i, j :: 0 <= i < j < |q| ==> q[i].step < q[j].step || (q[i].step == q[j].step && q[i].param < q[j].param)
  }

  /** A hook at the end of an iteration: the parameters stay, the counter starts again from nothing, and a recorded or
      replayed order is queued for the next iteration; after an abandoned replay the next one records. */
  ghost predicate EndDoes(cfg: Config, s: State, r: State)
  {
    && s.pool.registry == map[] && r.pool == s.pool.(nAvailable := 0)
    && r.trace.stepId == 0 && r.trace.moduleOrder == s.trace.moduleOrder && r.trace.mostRecent == map[]
    && r.trace.fetchedFor == map[] && r.trace.queue == Some(r.trace.paramOrder)
    && if s.trace.mode == Invalid then r.trace.mode == Record && r.trace.paramOrder == []
       else r.trace.mode == Complete && UsesInOrder(cfg, s.trace.moduleOrder, r.trace.paramOrder)
  }

  lemma {:induction false} TraceUses(cfg: Config, order: seq<int>, k: nat)
    ensures forall i, j :: 0 <= i < j < |TraceFrom(cfg, order, k)| ==>
              var q := TraceFrom(cfg, order, k);
              q[i].step < q[j].step || (q[i].step == q[j].step && q[i].param < q[j].param)
    decreases |order| - k
  {
    if k < |order| {
      var here, later := StepEntries(cfg, order[k], k), TraceFrom(cfg, order, k + 1);
      StepEntriesShape(cfg, order[k], k);
      TraceUses(cfg, order, k + 1);
      var q := TraceFrom(cfg, order, k);
      assert q == here + later;
      forall i, j | 0 <= i < j < |q|
        ensures q[i].step < q[j].step || (q[i].step == q[j].step && q[i].param < q[j].param)
      {
        if i < |here| { assert q[i] in here; }
        if j < |here| {
          assert q[j] in here;
        } else {
          assert q[j] in later;
          TraceEntries(cfg, order, k + 1, q[j]);
        }
      }
    }
  }

  lemma {:induction false} UsesAre(cfg: Config, order: seq<int>)
    ensures UsesInOrder(cfg, order, TraceFrom(cfg, order, 0))
  {
    TraceUses(cfg, order, 0);
    forall e ensures e in TraceFrom(cfg, order, 0) <==> 0 <= e.step < |order| && e.param in cfg.moduleParams(order[e.step]) {
      TraceEntries(cfg, order, 0, e);
    }
    hide TraceFrom;
  }

  lemma {:induction false} EndObeys(cfg: Config, s: State)
    requires Inv(cfg, s) && Reset(cfg, s).Ok?
    ensures EndDoes(cfg, s, Reset(cfg, s).value)
  {
    UsesAre(cfg, s.trace.moduleOrder);
    if s.trace.mode == Record { RebuildIsTrace(cfg, s.trace); }
    hide PoolInv, TraceFrom, Rebuild, RecordInv, Promise, UsesInOrder;
  }

  // --------------------------------------------------------------- partition all

  /** The hook that partitions everything: no listed parameter is used, and those available are partitioned. */
  ghost predicate PartitionDoes(cfg: Config, s: State, r: State)
  {
    && (forall p :: PartitionsOne(cfg, s, r, p))
    && r.pool.nAvailable
       == s.pool.nAvailable - SetSum((set p | p in cfg.allParams && s.pool.StatusOf(p) == Available), cfg.numel)
    && r.pool.registry == s.pool.registry && r.pool.handles == s.pool.handles && r.trace == s.trace
  }

  ghost predicate PartitionsOne(cfg: Config, s: State, r: State, p: int)
  {
    && r.pool.ActiveOf(p) == (if p in cfg.allParams then {} else s.pool.ActiveOf(p))
    && r.pool.StatusOf(p)
       == (if p in cfg.allParams && s.pool.StatusOf(p) == Available then NotAvailable else s.pool.StatusOf(p))
  }

  lemma {:induction false} PartitionObeys(cfg: Config, s: State)
    ensures PartitionDoes(cfg, s, s.(pool := ReleaseAll(cfg, s.pool, SetOf(cfg.allParams))))
  {
    var r := s.(pool := ReleaseAll(cfg, s.pool, SetOf(cfg.allParams)));
    forall p ensures PartitionsOne(cfg, s, r, p) { ReleaseAllStatus(cfg, s.pool, SetOf(cfg.allParams), p); }
    assert AvailableIn(s.pool, SetOf(cfg.allParams)) == set p | p in cfg.allParams && s.pool.StatusOf(p) == Available;
    hide PartitionsOne, SetSum;
  }

  // ---------------------------------------------------------------------- runs

  ghost predicate HookDoes(cfg: Config, s: State, r: State, e: Event)
  {
    match e
    case Enter(m) => EnterDoes(cfg, s, r, m)
    case Exit(m) => ExitDoes(cfg, s, r, m)
    case EndIteration => EndDoes(cfg, s, r)
    case PartitionAll => PartitionDoes(cfg, s, r)
  }

  /** Every hook of every legal run does exactly that. */
  lemma {:induction false} HooksObey(cfg: Config, es: seq<Event>, e: Event)
    requires Legal(es + [e]) && Legal(es) && Run(cfg, es + [e]).Ok?
    ensures Run(cfg, es).Ok? && HookDoes(cfg, Run(cfg, es).value, Run(cfg, es + [e]).value, e)
  {
    RunBefore(cfg, es, e);
    var s := Run(cfg, es).value;
    hide Run, Legal, RunInv, EnterDoes, ExitDoes, EndDoes, PartitionDoes, Inv;
    match e
    case Enter(m) => EnterObeys(cfg, s, m);
    case Exit(m) => ExitObeys(cfg, s, m);
    case EndIteration => EndObeys(cfg, s);
    case PartitionAll => PartitionObeys(cfg, s);
  }

  lemma {:induction false} RunBefore(cfg: Config, es: seq<Event>, e: Event)
    requires Legal(es + [e]) && Legal(es) && Run(cfg, es + [e]).Ok?
    ensures Run(cfg, es).Ok? && Inv(cfg, Run(cfg, es).value) && RunInv(cfg, Brackets(es), Run(cfg, es).value)
    ensures Allowed(Brackets(es), e)
    ensures Run(cfg, es + [e]) == StepRun(cfg, Run(cfg, es).value, e)
  {
    assert (es + [e])[..|es|] == es;
    hide StepRun, Inv;
  }

  /** Outside a replay, which is in every first iteration, leaving a module partitions each of its parameters that is not
      external and that no other module uses, persistent or not. */
  lemma {:induction false} RecordingReleases(cfg: Config, es: seq<Event>, m: int, p: int)
    requires Legal(es + [Exit(m)]) && Legal(es) && Run(cfg, es + [Exit(m)]).Ok?
    requires Run(cfg, es).Ok? && Run(cfg, es).value.trace.mode != Complete && p in cfg.moduleParams(m)
    ensures var s, r := Run(cfg, es).value.pool, Run(cfg, es + [Exit(m)]).value.pool;
            && s.StatusOf(p) == Available && m in s.ActiveOf(p) && r.ActiveOf(p) == s.ActiveOf(p) - {m}
            && r.StatusOf(p) == if !cfg.external(p) && s.ActiveOf(p) == {m} then NotAvailable else Available
  {
    ExitAt(cfg, es, m, p);
    var s := Run(cfg, es).value;
    hide Run, Legal, Inv, RunInv, Pool.StatusOf, Pool.ActiveOf;
    LeavesUsed(cfg, s, m, p);
  }

  lemma {:induction false} OpenIsReady(cfg: Config, b: Bracket, s: State, m: int, p: int)
    requires RunInv(cfg, b, s) && Allowed(b, Exit(m)) && p in cfg.moduleParams(m)
    ensures s.pool.StatusOf(p) == Available && m in s.pool.ActiveOf(p)
  {
    assert m in b.open && p in cfg.ParamsOf(m);
    assert m in s.pool.ActiveOf(p);
  }

  /** In a replay leaving a module partitions exactly those of its parameters that no other module uses, are neither external
      nor persistent, have no later use taken off the queue, and are not used again within the reuse distance. */
  lemma {:induction false} ReplayReleases(cfg: Config, es: seq<Event>, m: int, p: int)
    requires Legal(es + [Exit(m)]) && Legal(es) && Run(cfg, es + [Exit(m)]).Ok?
    requires Run(cfg, es).Ok? && Run(cfg, es).value.trace.mode == Complete && p in cfg.moduleParams(m)
    ensures var s, r, t := Run(cfg, es).value.pool, Run(cfg, es + [Exit(m)]).value.pool, Run(cfg, es).value.trace;
            && t.queue.Some? && |t.queue.value| <= |t.paramOrder|
            && r.StatusOf(p)
               == if !cfg.external(p) && s.ActiveOf(p) == {m} && !cfg.persist(p)
                     && (forall i :: 0 <= i < |t.paramOrder| - |t.queue.value| && t.paramOrder[i].param == p ==>
                           t.paramOrder[i].step <= t.stepId)
                     && !UsedSoon(cfg, t, p)
                  then NotAvailable else Available
  {
    ExitAt(cfg, es, m, p);
    RunBefore(cfg, es, Exit(m));
    var s, r := Run(cfg, es).value, Run(cfg, es + [Exit(m)]).value;
    ReplayQueue(cfg, s);
    hide Run, Legal, Inv, RunInv, UsedSoon, Pool.StatusOf, Pool.ActiveOf;
    LeavesUsed(cfg, s, m, p);
  }

  lemma {:induction false} ReplayQueue(cfg: Config, s: State)
    requires Inv(cfg, s) && s.trace.mode == Complete
    ensures s.trace.queue.Some? && |s.trace.queue.value| <= |s.trace.paramOrder|
  {
    hide PoolInv, Promise, TraceFrom;
  }

  /** One parameter of a module that is left. */
  lemma {:induction false} ExitAt(cfg: Config, es: seq<Event>, m: int, p: int)
    requires Legal(es + [Exit(m)]) && Legal(es) && Run(cfg, es + [Exit(m)]).Ok? && p in cfg.moduleParams(m)
    ensures Run(cfg, es).Ok?
    ensures var s, r := Run(cfg, es).value, Run(cfg, es + [Exit(m)]).value;
            && s.pool.StatusOf(p) == Available && m in s.pool.ActiveOf(p) && r.pool.ActiveOf(p) == s.pool.ActiveOf(p) - {m}
            && r.pool.StatusOf(p) == if Leaves(cfg, s, m, p) then NotAvailable else Available
  {
    HooksObey(cfg, es, Exit(m));
    RunBefore(cfg, es, Exit(m));
    var s, r := Run(cfg, es).value, Run(cfg, es + [Exit(m)]).value;
    assert ExitsOne(cfg, s, r, m, p);
    hide Run, Legal, Inv, Leaves, RunInv;
    OpenIsReady(cfg, Brackets(es), s, m, p);
  }

  /** For a module that uses p. */
  lemma {:induction false} LeavesUsed(cfg: Config, s: State, m: int, p: int)
    requires p in cfg.moduleParams(m) && s.pool.StatusOf(p) == Available && m in s.pool.ActiveOf(p)
    ensures Leaves(cfg, s, m, p) <==> !cfg.external(p) && s.pool.ActiveOf(p) == {m} && MayGiveUp(cfg, s.trace, p)
  {
    hide Pool.StatusOf, Pool.ActiveOf, MayGiveUp;
    assert s.pool.ActiveOf(p) <= {m} <==> s.pool.ActiveOf(p) == {m};
  }
}
