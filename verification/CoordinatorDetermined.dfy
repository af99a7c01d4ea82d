/** The relations of CoordinatorEffects leave nothing open: whatever obeys them from one state ends in one state. */
module CoordinatorDetermined {
  import opened Prelude
  import opened CoordinatorState
  import opened CoordinatorRuns
  import opened CoordinatorEffects

  /** The same answers to every question about a parameter, the same handles and the same counter. */
  ghost predicate AlikePools(a: Pool, b: Pool)
  {
    && (forall p :: AlikeOne(a, b, p)) && a.handles == b.handles && a.nAvailable == b.nAvailable
  }

  ghost predicate AlikeOne(a: Pool, b: Pool, p: int)
  {
    && a.StatusOf(p) == b.StatusOf(p) && a.ActiveOf(p) == b.ActiveOf(p)
    && (p in a.registry <==> p in b.registry) && (p in a.registry ==> a.registry[p] == b.registry[p])
  }

  ghost predicate AlikeTraces(a: Trace, b: Trace)
  {
    && a.stepId == b.stepId && a.mode == b.mode && a.moduleOrder == b.moduleOrder && a.paramOrder == b.paramOrder
    && a.queue == b.queue && (forall p :: a.MostRecent(p) == b.MostRecent(p)) && forall m :: a.FetchedFor(m) == b.FetchedFor(m)
  }

  ghost predicate Alike(a: State, b: State)
  {
    AlikePools(a.pool, b.pool) && AlikeTraces(a.trace, b.trace)
  }

  // -------------------------------------------------------------------- gather

  lemma {:induction false} BothEmpty(a: seq<int>, b: seq<int>)
    requires forall x :: x in a <==> x in b
    ensures a == [] <==> b == []
  {
    if a != [] {
      var x := a[0];
      assert x in a;
    }
    if b != [] {
      var x := b[0];
      assert x in b;
    }
  }

  lemma {:induction false} NoUses(a: seq<Entry>, b: seq<Entry>)
    requires forall e :: e in a <==> e in b
    ensures a == [] <==> b == []
  {
    assert a != [] ==> a[0] in b;
    assert b != [] ==> b[0] in a;
  }

  lemma {:induction false} SameAscending(a: seq<int>, b: seq<int>)
    requires Ascending(a) && Ascending(b) && forall x :: x in a <==> x in b
    ensures a == b
    decreases |a|
  {
    hide *;
    BothEmpty(a, b);
    if a != [] {
      var n, k := |a| - 1, |b| - 1;
      SameLast(a, b);
      Front(a);
      Front(b);
      forall x ensures x in a[..n] <==> x in b[..k] {
        FrontHas(a, x);
        FrontHas(b, x);
      }
      SameAscending(a[..n], b[..k]);
      assert a == a[..n] + [a[n]] && b == b[..k] + [b[k]];
    }
  }

  lemma {:induction false} Front(a: seq<int>)
    requires Ascending(a) && a != []
    ensures Ascending(a[..|a| - 1])
  {
  }

  lemma {:induction false} SameLast(a: seq<int>, b: seq<int>)
    requires Ascending(a) && Ascending(b) && a != [] && b != [] && forall x :: x in a <==> x in b
    ensures a[|a| - 1] == b[|b| - 1]
  {
    var x, y := a[|a| - 1], b[|b| - 1];
    assert x in b && y in a;
  }

  lemma {:induction false} FrontHas(a: seq<int>, x: int)
    requires Ascending(a) && a != []
    ensures x in a[..|a| - 1] <==> x in a && x != a[|a| - 1]
  {
    assert a == a[..|a| - 1] + [a[|a| - 1]];
  }

  lemma {:induction false} HandlesDetermined(s: Pool, t: Pool, r: Pool, u: Pool, miss: set<int>)
    requires s.handles == t.handles && NewHandle(s, r, miss) && NewHandle(t, u, miss)
    ensures r.handles == u.handles
  {
    var n := |s.handles|;
    SameAscending(r.handles[n].params, u.handles[n].params);
    assert r.handles == r.handles[..n] + [r.handles[n]] && u.handles == u.handles[..n] + [u.handles[n]];
  }

  lemma {:induction false} GatherOneAlike(s: Pool, t: Pool, r: Pool, u: Pool, miss: set<int>, p: int)
    requires AlikeOne(s, t, p) && GathersOne(s, r, miss, p) && GathersOne(t, u, miss, p) && |s.handles| == |t.handles|
    ensures AlikeOne(r, u, p)
  {
    hide Pool.StatusOf, Pool.ActiveOf;
  }

  lemma {:induction false} SameStatus(s: Pool, t: Pool)
    requires AlikePools(s, t)
    ensures forall p :: s.StatusOf(p) == t.StatusOf(p)
  {
    forall p ensures s.StatusOf(p) == t.StatusOf(p) { assert AlikeOne(s, t, p); }
    hide Pool.StatusOf;
  }

  lemma {:induction false} GatherDetermined(cfg: Config, s: Pool, t: Pool, r: Pool, u: Pool, ps: set<int>)
    requires AlikePools(s, t) && Gathers(cfg, s, r, ps) && Gathers(cfg, t, u, ps)
    ensures AlikePools(r, u)
  {
    hide AlikeOne, GathersOne, NewHandle, SetSum, Pool.StatusOf, Pool.ActiveOf;
    SameStatus(s, t);
    var miss := set p | p in ps && s.StatusOf(p) == NotAvailable;
    assert miss == set p | p in ps && t.StatusOf(p) == NotAvailable;
    if miss != {} { HandlesDetermined(s, t, r, u, miss); }
    forall p ensures AlikeOne(r, u, p) {
      assert AlikeOne(s, t, p) && GathersOne(s, r, miss, p) && GathersOne(t, u, miss, p);
      GatherOneAlike(s, t, r, u, miss, p);
    }
  }

  // ---------------------------------------------------------------------- wait

  lemma {:induction false} AwaitedAlike(s: Pool, t: Pool, ps: set<int>, h: int)
    requires AlikePools(s, t)
    ensures AwaitedBy(s, ps, h) <==> AwaitedBy(t, ps, h)
  {
    if AwaitedBy(s, ps, h) {
      var q :| q in ps && q in s.registry && s.registry[q] == h;
      assert AlikeOne(s, t, q);
    }
    if AwaitedBy(t, ps, h) {
      var q :| q in ps && q in t.registry && t.registry[q] == h;
      assert AlikeOne(s, t, q);
    }
  }

  lemma {:induction false} WaitDetermined(s: Pool, t: Pool, r: Pool, u: Pool, ps: set<int>, m: int)
    requires AlikePools(s, t) && Waits(s, r, ps, m) && Waits(t, u, ps, m)
    ensures AlikePools(r, u)
  {
    forall h | 0 <= h < |s.handles| ensures r.handles[h] == u.handles[h] { AwaitedAlike(s, t, ps, h); }
    assert r.handles == u.handles;
    forall p ensures AlikeOne(r, u, p) {
      assert AlikeOne(s, t, p) && WaitsOne(s, r, ps, m, p) && WaitsOne(t, u, ps, m, p);
      if p in s.registry { AwaitedAlike(s, t, ps, s.registry[p]); }
      hide AwaitedBy;
    }
    hide AlikeOne, WaitsOne, AwaitedBy;
  }

  // --------------------------------------------------------------------- queue

  /** An entry of p that is its last one, if it has any. */
  lemma {:induction false} SomeLastUse(es: seq<Entry>, p: int) returns (i: int)
    ensures Absent(es, p) || LastUse(es, p, i)
    decreases |es|
  {
    i := 0;
    if es != [] {
      var n := |es| - 1;
      if es[n].param == p {
        i := n;
      } else {
        i := SomeLastUse(es[..n], p);
        assert forall j :: 0 <= j < n ==> es[..n][j] == es[j];
      }
    }
  }

  lemma {:induction false} NotesDetermined(t: Trace, u: Trace, r: Trace, v: Trace, es: seq<Entry>, p: int)
    requires t.MostRecent(p) == u.MostRecent(p) && Notes(t, r, es) && Notes(u, v, es)
    ensures r.MostRecent(p) == v.MostRecent(p)
  {
    assert NotesOne(t, r, es, p) && NotesOne(u, v, es, p);
    var i := SomeLastUse(es, p);
    hide Absent, LastUse, Notes;
  }

  lemma {:induction false} PopDetermined(t: Trace, u: Trace, r: Trace, v: Trace, n: nat, step: nat)
    requires AlikeTraces(t, u) && Pops(t, r, n, step) && Pops(u, v, n, step)
    ensures AlikeTraces(r, v)
  {
    forall p ensures r.MostRecent(p) == v.MostRecent(p) { NotesDetermined(t, u, r, v, t.queue.value[..n], p); }
    forall m ensures r.FetchedFor(m) == v.FetchedFor(m) { assert t.FetchedFor(m) == u.FetchedFor(m); }
    hide Notes, Trace.MostRecent;
  }

  lemma {:induction false} CurrentDetermined(t: Trace, u: Trace, n: nat, k: nat)
    requires t.queue == u.queue && t.stepId == u.stepId && Current(t, n) && Current(u, k)
    ensures n == k
  {
    CurrentAt(t, n, k);
    CurrentAt(u, k, n);
  }

  lemma {:induction false} CurrentAt(t: Trace, n: nat, i: nat)
    requires Current(t, n)
    ensures n <= |t.queue.value|
    ensures i < |t.queue.value| ==> (i < n <==> t.queue.value[i].step == t.stepId)
  {
  }

  lemma {:induction false} AskedAlike(cfg: Config, s: Pool, t: Pool, q: seq<Entry>, n: nat)
    requires AlikePools(s, t) && n <= |q|
    ensures Asked(cfg, s, q, n) == Asked(cfg, t, q, n)
  {
    forall p ensures s.StatusOf(p) == t.StatusOf(p) { assert AlikeOne(s, t, p); }
    assert (set e | e in q[..n] && s.StatusOf(e.param) == NotAvailable :: e.param)
        == (set e | e in q[..n] && t.StatusOf(e.param) == NotAvailable :: e.param);
    hide SetSum;
  }

  lemma {:induction false} StopDetermined(cfg: Config, s: Pool, t: Pool, q: seq<Entry>, n: nat, k: nat)
    requires AlikePools(s, t) && StopsAt(cfg, s, q, n) && StopsAt(cfg, t, q, k)
    ensures n == k
  {
    AskedAlike(cfg, s, t, q, n);
    AskedAlike(cfg, s, t, q, k);
    hide Asked, AlikeOne;
  }

  lemma {:induction false} PrefetchDetermined(cfg: Config, s: State, t: State, r: State, u: State)
    requires Alike(s, t) && Prefetches(cfg, s, r) && Prefetches(cfg, t, u)
    ensures Alike(r, u)
  {
    var n: nat :| PrefetchesTo(cfg, s, r, n);
    var k: nat :| PrefetchesTo(cfg, t, u, k);
    var q := s.trace.queue.value;
    hide StopsAt, Pops, Gathers, AlikeOne;
    StopDetermined(cfg, s.pool, t.pool, q, n, k);
    PopDetermined(s.trace, t.trace, r.trace, u.trace, n, s.trace.stepId);
    GatherDetermined(cfg, s.pool, t.pool, r.pool, u.pool, FrontParams(q, n));
  }

  // --------------------------------------------------------------------- hooks

  lemma {:induction false} PlainDetermined(t: Trace, u: Trace, r: Trace, v: Trace, m: int)
    requires AlikeTraces(t, u) && MovesPlainly(t, r, m) && MovesPlainly(u, v, m)
    ensures AlikeTraces(r, v)
  {
    forall p ensures r.MostRecent(p) == v.MostRecent(p) { assert t.MostRecent(p) == u.MostRecent(p); }
    forall x ensures r.FetchedFor(x) == v.FetchedFor(x) { assert t.FetchedFor(x) == u.FetchedFor(x); }
  }

  lemma {:induction false} ReplayDetermined(cfg: Config, s: State, t: State, r: State, u: State, w: Pool, x: Pool,
                                            d: Trace, e: Trace, n: nat, k: nat)
    requires Alike(s, t) && AlikePools(w, x) && ReplaysBy(cfg, s, r, w, d, n) && ReplaysBy(cfg, t, u, x, e, k)
    ensures Alike(r, u)
  {
    hide Current, Pops, Prefetches, AlikeOne;
    CurrentDetermined(s.trace, t.trace, n, k);
    PopDetermined(s.trace, t.trace, d, e, n, s.trace.stepId + 1);
    if cfg.prefetchBucket > 0 { PrefetchDetermined(cfg, State(w, d), State(x, e), r, u); }
  }

  lemma {:induction false} EnterDetermined(cfg: Config, s: State, t: State, r: State, u: State, m: int)
    requires Alike(s, t) && EnterDoes(cfg, s, r, m) && EnterDoes(cfg, t, u, m)
    ensures Alike(r, u)
  {
    var g: Pool, w: Pool :| EntersBy(cfg, s, r, m, g, w);
    var h: Pool, x: Pool :| EntersBy(cfg, t, u, m, h, x);
    hide Gathers, Waits, ReplaysBy, MovesPlainly, AlikePools, SetOf;
    GatherDetermined(cfg, s.pool, t.pool, g, h, SetOf(cfg.moduleParams(m)));
    WaitDetermined(g, h, w, x, SetOf(cfg.moduleParams(m)), m);
    if Expected(s.trace, m) {
      var d: Trace, n: nat :| ReplaysBy(cfg, s, r, w, d, n);
      var e: Trace, k: nat :| ReplaysBy(cfg, t, u, x, e, k);
      ReplayDetermined(cfg, s, t, r, u, w, x, d, e, n, k);
    } else {
      PlainDetermined(s.trace, t.trace, r.trace, u.trace, m);
    }
  }

  lemma {:induction false} LeavesAlike(cfg: Config, s: State, t: State, m: int, p: int)
    requires Alike(s, t)
    ensures Leaves(cfg, s, m, p) <==> Leaves(cfg, t, m, p)
  {
    assert AlikeOne(s.pool, t.pool, p);
    SoonAlike(cfg, s.trace, t.trace, p);
    hide UsedSoon, Pool.StatusOf, Pool.ActiveOf;
  }

  lemma {:induction false} SoonAlike(cfg: Config, a: Trace, b: Trace, p: int)
    requires a.stepId == b.stepId && a.moduleOrder == b.moduleOrder
    ensures UsedSoon(cfg, a, p) <==> UsedSoon(cfg, b, p)
  {
    forall j: nat | a.stepId <= j < |a.moduleOrder| ensures UsedAt(cfg, a, p, j) <==> UsedAt(cfg, b, p, j) { }
    hide UsedAt;
  }

  lemma {:induction false} ExitOneAlike(cfg: Config, s: State, t: State, r: State, u: State, m: int, p: int)
    requires Alike(s, t) && ExitsOne(cfg, s, r, m, p) && ExitsOne(cfg, t, u, m, p)
    requires r.pool.registry == s.pool.registry && u.pool.registry == t.pool.registry
    ensures AlikeOne(r.pool, u.pool, p)
  {
    assert AlikeOne(s.pool, t.pool, p);
    LeavesAlike(cfg, s, t, m, p);
    hide AlikeTraces, Leaves, Pool.StatusOf, Pool.ActiveOf;
  }

  lemma {:induction false} ExitDetermined(cfg: Config, s: State, t: State, r: State, u: State, m: int)
    requires Alike(s, t) && ExitDoes(cfg, s, r, m) && ExitDoes(cfg, t, u, m)
    ensures Alike(r, u)
  {
    hide Leaves, ExitsOne, AlikeOne, SetSum, AlikeTraces;
    forall p ensures Leaves(cfg, s, m, p) <==> Leaves(cfg, t, m, p) { LeavesAlike(cfg, s, t, m, p); }
    assert (set p | p in cfg.moduleParams(m) && Leaves(cfg, s, m, p))
        == (set p | p in cfg.moduleParams(m) && Leaves(cfg, t, m, p));
    forall p ensures AlikeOne(r.pool, u.pool, p) {
      assert ExitsOne(cfg, s, r, m, p) && ExitsOne(cfg, t, u, m, p);
      ExitOneAlike(cfg, s, t, r, u, m, p);
    }
  }

  lemma {:induction false} PartitionOneAlike(cfg: Config, s: State, t: State, r: State, u: State, p: int)
    requires Alike(s, t) && PartitionsOne(cfg, s, r, p) && PartitionsOne(cfg, t, u, p)
    requires r.pool.registry == s.pool.registry && u.pool.registry == t.pool.registry
    ensures AlikeOne(r.pool, u.pool, p) && s.pool.StatusOf(p) == t.pool.StatusOf(p)
  {
    assert AlikeOne(s.pool, t.pool, p);
    hide AlikeTraces, Pool.StatusOf, Pool.ActiveOf;
  }

  lemma {:induction false} PartitionDetermined(cfg: Config, s: State, t: State, r: State, u: State)
    requires Alike(s, t) && PartitionDoes(cfg, s, r) && PartitionDoes(cfg, t, u)
    ensures Alike(r, u)
  {
    hide PartitionsOne, AlikeOne, SetSum, AlikeTraces, Pool.StatusOf;
    forall p ensures AlikeOne(r.pool, u.pool, p) && s.pool.StatusOf(p) == t.pool.StatusOf(p) {
      assert PartitionsOne(cfg, s, r, p) && PartitionsOne(cfg, t, u, p);
      PartitionOneAlike(cfg, s, t, r, u, p);
    }
    assert (set p | p in cfg.allParams && s.pool.StatusOf(p) == Available)
        == (set p | p in cfg.allParams && t.pool.StatusOf(p) == Available);
  }

  lemma {:induction false} SameUses(a: seq<Entry>, b: seq<Entry>)
    requires InOrder(a) && InOrder(b) && forall e :: e in a <==> e in b
    ensures a == b
    decreases |a|
  {
    hide *;
    NoUses(a, b);
    if a != [] {
      var n, k := |a| - 1, |b| - 1;
      LastUses(a, b);
      FrontInOrder(a);
      FrontInOrder(b);
      forall e ensures e in a[..n] <==> e in b[..k] {
        FrontUses(a, e);
        FrontUses(b, e);
      }
      SameUses(a[..n], b[..k]);
      assert a == a[..n] + [a[n]] && b == b[..k] + [b[k]];
    }
  }

  lemma {:induction false} FrontInOrder(a: seq<Entry>)
    requires InOrder(a) && a != []
    ensures InOrder(a[..|a| - 1])
  {
  }

  ghost predicate InOrder(q: seq<Entry>)
  {
    forall i, j :: 0 <= i < j < |q| ==> q[i].step < q[j].step || (q[i].step == q[j].step && q[i].param < q[j].param)
  }

  lemma {:induction false} LastUses(a: seq<Entry>, b: seq<Entry>)
    requires InOrder(a) && InOrder(b) && a != [] && b != [] && forall e :: e in a <==> e in b
    ensures a[|a| - 1] == b[|b| - 1]
  {
    var x, y := a[|a| - 1], b[|b| - 1];
    assert x in a && y in b;
    var i :| 0 <= i < |b| && b[i] == x;
    var j :| 0 <= j < |a| && a[j] == y;
  }

  lemma {:induction false} FrontUses(a: seq<Entry>, e: Entry)
    requires InOrder(a) && a != []
    ensures e in a[..|a| - 1] <==> e in a && e != a[|a| - 1]
  {
    var n := |a| - 1;
    assert a == a[..n] + [a[n]];
    if e in a[..n] {
      var i :| 0 <= i < n && a[..n][i] == e;
      assert a[i] == e;
    }
  }

  lemma {:induction false} EndDetermined(cfg: Config, s: State, t: State, r: State, u: State)
    requires Alike(s, t) && EndDoes(cfg, s, r) && EndDoes(cfg, t, u)
    ensures Alike(r, u)
  {
    if s.trace.mode != Invalid {
      SameUses(r.trace.paramOrder, u.trace.paramOrder);
    }
    forall p ensures AlikeOne(r.pool, u.pool, p) { assert AlikeOne(s.pool, t.pool, p); }
  }

  /** Two states that agree in every answer agree again after a hook, whoever carries it out, as long as what he does is
      what the relations say. */
  lemma {:induction false} HookDetermined(cfg: Config, s: State, t: State, r: State, u: State, e: Event)
    requires Alike(s, t) && HookDoes(cfg, s, r, e) && HookDoes(cfg, t, u, e)
    ensures Alike(r, u)
  {
    hide Alike, EnterDoes, ExitDoes, EndDoes, PartitionDoes, Expected;
    match e
    case Enter(m) => EnterDetermined(cfg, s, t, r, u, m);
    case Exit(m) => ExitDetermined(cfg, s, t, r, u, m);
    case EndIteration => EndDetermined(cfg, s, t, r, u);
    case PartitionAll => PartitionDetermined(cfg, s, t, r, u);
  }
}
