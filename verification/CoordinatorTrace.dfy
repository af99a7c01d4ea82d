/** The recorded trace and the queue replayed from it.

    Recording keeps, per module, a FIFO of the steps at which it ran; rebuilding the parameter
    trace pops those FIFOs. Replaying keeps the queue a suffix of the trace that starts no earlier
    than the current step, so the entries a fetch discards are exactly the parameters it still
    misses: the code's "tracing error" cannot happen. */
module CoordinatorTrace {
  import opened Prelude
  import opened CoordinatorState

  // ------------------------------------------------------------- recording

  /** The steps, counted from `from`, at which module m occurs in order. */
  function StepsOf(order: seq<int>, m: int, from: int): seq<int>
  {
    if order == [] then [] else
      (if order[0] == m then [from] else []) + StepsOf(order[1..], m, from + 1)
  }

  lemma {:induction false} StepsOfAppend(order: seq<int>, x: int, m: int, from: int)
    ensures StepsOf(order + [x], m, from)
         == StepsOf(order, m, from) + (if x == m then [from + |order|] else [])
  {
    StepsOfHead(order + [x], m, from);
    if order == [] {
      assert (order + [x])[1..] == [];
    } else {
      assert (order + [x])[1..] == order[1..] + [x];
      StepsOfHead(order, m, from);
      StepsOfAppend(order[1..], x, m, from + 1);
    }
  }

  /** While recording, each module's FIFO holds exactly the steps at which it ran. */
  ghost predicate RecordInv(t: Trace)
  {
    && t.stepId == |t.moduleOrder|
    && forall m :: t.FetchedFor(m) == StepsOf(t.moduleOrder, m, 0)
  }

  lemma RecordOne(t: Trace, m: int, x: int)
    requires t.stepId == |t.moduleOrder|
    requires t.FetchedFor(x) == StepsOf(t.moduleOrder, x, 0)
    ensures RecordModule(t, m).FetchedFor(x) == StepsOf(t.moduleOrder + [m], x, 0)
  {
    StepsOfAppend(t.moduleOrder, m, x, 0);
    if x != m {
      assert StepsOf(t.moduleOrder, x, 0) + [] == StepsOf(t.moduleOrder, x, 0);
    }
  }

  lemma RecordModuleKeeps(t: Trace, m: int)
    requires RecordInv(t)
    ensures RecordInv(RecordModule(t, m).(stepId := t.stepId + 1))
  {
    var r := RecordModule(t, m).(stepId := t.stepId + 1);
    forall x ensures r.FetchedFor(x) == StepsOf(r.moduleOrder, x, 0) {
      RecordOne(t, m, x);
      assert r.FetchedFor(x) == RecordModule(t, m).FetchedFor(x);
    }
  }

  /** Popping per-module FIFOs recovers the global step of every module call. */
  ghost predicate FifosFrom(order: seq<int>, k: nat, fetchedFor: map<int, seq<int>>)
    requires k <= |order|
  {
    forall m :: (if m in fetchedFor then fetchedFor[m] else []) == StepsOf(order[k..], m, k)
  }

  lemma FifosAdvance(order: seq<int>, k: nat, fetchedFor: map<int, seq<int>>)
    requires k < |order| && FifosFrom(order, k, fetchedFor)
    ensures order[k] in fetchedFor && fetchedFor[order[k]] != [] && fetchedFor[order[k]][0] == k
    ensures FifosFrom(order, k + 1, fetchedFor[order[k] := fetchedFor[order[k]][1..]])
  {
    var m := order[k];
    assert order[k..][1..] == order[k + 1..];
    StepsOfHead(order[k..], m, k);
    assert (if m in fetchedFor then fetchedFor[m] else []) == StepsOf(order[k..], m, k);
    var next := fetchedFor[m := fetchedFor[m][1..]];
    forall x ensures (if x in next then next[x] else []) == StepsOf(order[k + 1..], x, k + 1) {
      StepsOfHead(order[k..], x, k);
      assert (if x in fetchedFor then fetchedFor[x] else []) == StepsOf(order[k..], x, k);
    }
  }

  lemma StepsOfHead(order: seq<int>, m: int, from: int)
    requires order != []
    ensures order[0] == m ==> StepsOf(order, m, from) != [] && StepsOf(order, m, from)[0] == from
                              && StepsOf(order, m, from)[1..] == StepsOf(order[1..], m, from + 1)
    ensures order[0] != m ==> StepsOf(order, m, from) == StepsOf(order[1..], m, from + 1)
  {
  }

  lemma {:induction false} RebuildFrom(cfg: Config, order: seq<int>, k: nat, fetchedFor: map<int, seq<int>>)
    requires k <= |order|
    requires FifosFrom(order, k, fetchedFor)
    ensures Rebuild(cfg, order[k..], fetchedFor) == TraceFrom(cfg, order, k)
    decreases |order| - k
  {
    if k < |order| {
      var m := order[k];
      FifosAdvance(order, k, fetchedFor);
      assert order[k..][0] == m && order[k..][1..] == order[k + 1..];
      RebuildFrom(cfg, order, k + 1, fetchedFor[m := fetchedFor[m][1..]]);
    }
  }

  lemma RebuildIsTrace(cfg: Config, t: Trace)
    requires RecordInv(t)
    ensures Rebuild(cfg, t.moduleOrder, t.fetchedFor) == TraceFrom(cfg, t.moduleOrder, 0)
  {
    assert t.moduleOrder[0..] == t.moduleOrder;
    forall m ensures (if m in t.fetchedFor then t.fetchedFor[m] else []) == StepsOf(t.moduleOrder, m, 0) {
      assert t.FetchedFor(m) == StepsOf(t.moduleOrder, m, 0);
    }
    assert FifosFrom(t.moduleOrder, 0, t.fetchedFor);
    RebuildFrom(cfg, t.moduleOrder, 0, t.fetchedFor);
  }

  // ------------------------------------------------------ the trace's shape

  lemma StepEntriesShape(cfg: Config, m: int, k: int)
    ensures |StepEntries(cfg, m, k)| == |cfg.ParamsOf(m)|
    ensures forall e :: e in StepEntries(cfg, m, k) <==> e.step == k && e.param in cfg.ParamsOf(m)
    ensures forall i, j :: 0 <= i < j < |StepEntries(cfg, m, k)| ==>
              StepEntries(cfg, m, k)[i].param < StepEntries(cfg, m, k)[j].param
  {
    var ps := Sorted(cfg.ParamsOf(m));
    SortedLength(cfg.ParamsOf(m));
    SortedAscends(cfg.ParamsOf(m));
    forall e: Entry ensures e in StepEntries(cfg, m, k) <==> e.step == k && e.param in cfg.ParamsOf(m) {
      SortedMember(cfg.ParamsOf(m), e.param);
      if e.step == k && e.param in ps {
        var i :| 0 <= i < |ps| && ps[i] == e.param;
        assert StepEntries(cfg, m, k)[i] == e;
      }
    }
  }

  /** An entry of the trace from step k names a later-or-equal step and a parameter of that step's module. */
  lemma {:induction false} TraceEntries(cfg: Config, order: seq<int>, k: nat, e: Entry)
    ensures e in TraceFrom(cfg, order, k) <==> k <= e.step < |order| && e.param in cfg.ParamsOf(order[e.step])
    decreases |order| - k
  {
    if k < |order| {
      StepEntriesShape(cfg, order[k], k);
      TraceEntries(cfg, order, k + 1, e);
    }
  }

  ghost predicate Suffix<T>(s: seq<T>, t: seq<T>)
  {
    |s| <= |t| && s == t[|t| - |s|..]
  }

  ghost predicate StepsRise(es: seq<Entry>)
  {
    forall i, j :: 0 <= i <= j < |es| ==> es[i].step <= es[j].step
  }

  lemma {:induction false} TraceStepsRise(cfg: Config, order: seq<int>, k: nat)
    ensures StepsRise(TraceFrom(cfg, order, k))
    decreases |order| - k
  {
    if k < |order| {
      var h: seq<Entry>, r: seq<Entry> := StepEntries(cfg, order[k], k), TraceFrom(cfg, order, k + 1);
      StepEntriesShape(cfg, order[k], k);
      TraceStepsRise(cfg, order, k + 1);
      forall i, j | 0 <= i <= j < |h + r| ensures (h + r)[i].step <= (h + r)[j].step {
        if i < |h| { assert h[i] in h; }
        if j < |h| { assert h[j] in h; } else { assert r[j - |h|] in r; TraceEntries(cfg, order, k + 1, r[j - |h|]); }
      }
    }
  }

  // -------------------------------------------------------- "last fetched for"

  /** The dictionary after popping es from an empty one. */
  function Marked(es: seq<Entry>): map<int, int>
  {
    MarkPopped(map[], es)
  }

  lemma {:induction false} MarkAppend(mr: map<int, int>, a: seq<Entry>, b: seq<Entry>)
    ensures MarkPopped(MarkPopped(mr, a), b) == MarkPopped(mr, a + b)
    decreases |b|
  {
    if b == [] {
      assert a + b == a;
    } else {
      assert (a + b)[..|a + b| - 1] == a + b[..|b| - 1];
      MarkAppend(mr, a, b[..|b| - 1]);
    }
  }

  /** With steps in order, the dictionary holds each parameter's largest popped step. */
  lemma {:induction false} MarkedIsLargest(es: seq<Entry>, p: int)
    requires StepsRise(es)
    ensures p in Marked(es) <==> exists i :: 0 <= i < |es| && es[i].param == p
    ensures p in Marked(es) ==> Entry(p, Marked(es)[p]) in es
    ensures forall i :: 0 <= i < |es| && es[i].param == p ==> p in Marked(es) && es[i].step <= Marked(es)[p]
    decreases |es|
  {
    if es != [] {
      var n := |es| - 1;
      MarkedIsLargest(es[..n], p);
      assert es == es[..n] + [es[n]];
      assert forall i :: 0 <= i < n ==> es[..n][i] == es[i];
      if p in Marked(es[..n]) && es[n].param != p {
        assert Entry(p, Marked(es[..n])[p]) in es[..n];
      }
    }
  }

  // --------------------------------------------------------------- replaying

  /** What has been popped so far. */
  function Popped(t: Trace): seq<Entry>
    requires t.queue.Some? && |t.queue.value| <= |t.paramOrder|
  {
    t.paramOrder[..|t.paramOrder| - |t.queue.value|]
  }

  /** Before step stepId of a replay: the queue is a suffix of the trace, without entries of earlier
      steps, and the dictionary records exactly what was popped. */
  ghost predicate ReplayInv(cfg: Config, t: Trace)
  {
    && t.paramOrder == TraceFrom(cfg, t.moduleOrder, 0)
    && t.stepId <= |t.moduleOrder|
    && t.queue.Some?
    && Suffix(t.queue.value, t.paramOrder)
    && Suffix(t.queue.value, TraceFrom(cfg, t.moduleOrder, t.stepId))
    && t.mostRecent == Marked(Popped(t))
  }

  lemma {:induction false} TraceSuffix(cfg: Config, order: seq<int>, k: nat)
    ensures Suffix(TraceFrom(cfg, order, k), TraceFrom(cfg, order, 0))
    decreases k
  {
    if k > 0 {
      TraceSuffix(cfg, order, k - 1);
      assert Suffix(TraceFrom(cfg, order, k), TraceFrom(cfg, order, k - 1));
      SuffixTrans(TraceFrom(cfg, order, k), TraceFrom(cfg, order, k - 1), TraceFrom(cfg, order, 0));
    }
  }

  lemma SuffixTrans<T>(a: seq<T>, b: seq<T>, c: seq<T>)
    requires Suffix(a, b) && Suffix(b, c)
    ensures Suffix(a, c)
  {
    assert a == b[|b| - |a|..] == c[|c| - |b|..][|b| - |a|..] == c[|c| - |a|..];
  }

  /** An entry of the current or a later step is either popped or still queued. */
  lemma PoppedOrQueued(cfg: Config, t: Trace, e: Entry)
    requires ReplayInv(cfg, t)
    ensures e in t.paramOrder <==> e in Popped(t) || e in t.queue.value
  {
    var i := |t.paramOrder| - |t.queue.value|;
    assert t.paramOrder == t.paramOrder[..i] + t.paramOrder[i..];
  }

  lemma DistinctConcat<T>(a: seq<T>, b: seq<T>)
    requires Distinct(a) && Distinct(b)
    requires forall x :: x in a ==> x !in b
    ensures Distinct(a + b)
  {
    forall i, j | 0 <= i < j < |a + b| ensures (a + b)[i] != (a + b)[j] {
      if i < |a| && |a| <= j {
        assert a[i] in a;
        assert b[j - |a|] in b;
      }
    }
  }

  lemma {:induction false} TraceDistinct(cfg: Config, order: seq<int>, k: nat)
    ensures Distinct(TraceFrom(cfg, order, k))
    decreases |order| - k
  {
    if k < |order| {
      var h, r := StepEntries(cfg, order[k], k), TraceFrom(cfg, order, k + 1);
      StepEntriesShape(cfg, order[k], k);
      TraceDistinct(cfg, order, k + 1);
      forall x | x in h ensures x !in r {
        TraceEntries(cfg, order, k + 1, x);
      }
      DistinctConcat(h, r);
    }
  }

  /** The dictionary names a step at or after stepId exactly for parameters with such an entry popped. */
  lemma MostRecentMeans(cfg: Config, t: Trace, p: int)
    requires ReplayInv(cfg, t)
    ensures t.MostRecent(p) != NEVER ==> Entry(p, t.MostRecent(p)) in Popped(t)
    ensures forall e :: e in Popped(t) && e.param == p ==> e.step <= t.MostRecent(p)
    ensures t.MostRecent(p) >= 0 ==> t.MostRecent(p) < |t.moduleOrder| && p in cfg.ParamsOf(t.moduleOrder[t.MostRecent(p)])
  {
    TraceStepsRise(cfg, t.moduleOrder, 0);
    var es := Popped(t);
    MarkedIsLargest(es, p);
    forall e | e in es && e.param == p ensures e.step <= t.MostRecent(p) {
      var i :| 0 <= i < |es| && es[i] == e;
    }
    if t.MostRecent(p) >= 0 {
      var e := Entry(p, t.MostRecent(p));
      assert e in es && e in t.paramOrder;
      TraceEntries(cfg, t.moduleOrder, 0, e);
    }
  }

  lemma DistinctHalves<T>(es: seq<T>, i: nat, x: T)
    requires Distinct(es) && i <= |es|
    ensures !(x in es[..i] && x in es[i..])
  {
  }

  lemma NeverBoth(cfg: Config, t: Trace, e: Entry)
    requires ReplayInv(cfg, t)
    ensures !(e in Popped(t) && e in t.queue.value)
  {
    TraceDistinct(cfg, t.moduleOrder, 0);
    DistinctHalves(t.paramOrder, |t.paramOrder| - |t.queue.value|, e);
  }

  /** Entries leave the queue in step order: once a later use of p is popped, so is this one. */
  lemma PoppedInOrder(cfg: Config, t: Trace, e: Entry, later: Entry)
    requires ReplayInv(cfg, t)
    requires e in t.paramOrder && later in Popped(t)
    requires later.param == e.param && e.step <= later.step
    ensures e in Popped(t)
  {
    TraceStepsRise(cfg, t.moduleOrder, 0);
    var i := |t.paramOrder| - |t.queue.value|;
    var a :| 0 <= a < i && t.paramOrder[a] == later;
    var b :| 0 <= b < |t.paramOrder| && t.paramOrder[b] == e;
    if i <= b {
      assert t.paramOrder[a].step <= t.paramOrder[b].step;
      assert Popped(t)[a] == e;
    } else {
      assert Popped(t)[b] == e;
    }
  }

  /** The parameters a fetch still has to account for are those whose entry for this step is queued. */
  lemma NotYetFetchedIsQueued(cfg: Config, t: Trace, p: int)
    requires ReplayInv(cfg, t)
    requires t.stepId < |t.moduleOrder|
    ensures p in NotYetFetched(cfg, t, t.moduleOrder[t.stepId]) <==>
            Entry(p, t.stepId) in t.queue.value
  {
    var e := Entry(p, t.stepId);
    TraceEntries(cfg, t.moduleOrder, 0, e);
    PoppedOrQueued(cfg, t, e);
    NeverBoth(cfg, t, e);
    MostRecentMeans(cfg, t, p);
    if e in t.paramOrder && t.MostRecent(p) >= t.stepId {
      PoppedInOrder(cfg, t, e, Entry(p, t.MostRecent(p)));
    }
  }

  // --------------------------------------------------- one step of a replay

  /** How many entries of the current step are still queued. */
  ghost function QueuedNow(cfg: Config, t: Trace): (n: nat)
    requires t.queue.Some?
    ensures n <= |t.queue.value|
  {
    var later := |TraceFrom(cfg, t.moduleOrder, t.stepId + 1)|;
    if |t.queue.value| <= later then 0 else |t.queue.value| - later
  }

  /** The front of a queue that is a suffix of here + later, here having ascending parameters. */
  lemma FrontShape(here: seq<Entry>, later: seq<Entry>, q: seq<Entry>, n: nat)
    requires Suffix(q, here + later)
    requires n == if |q| <= |later| then 0 else |q| - |later|
    requires forall i, j :: 0 <= i < j < |here| ==> here[i].param < here[j].param
    ensures n <= |q| && Suffix(q[n..], later)
    ensures forall e :: e in q[..n] ==> e in here
    ensures |ParamsIn(q[..n])| == n
    ensures forall i, j :: 0 <= i < j < n ==> q[i].param != q[j].param
  {
    CurrentEntries(here, later, q, n);
    forall i, j | 0 <= i < j < n ensures q[i].param != q[j].param {
      assert q[i] == q[..n][i] == here[|here| - n + i];
      assert q[j] == q[..n][j] == here[|here| - n + j];
    }
    CountDistinct(q[..n]);
  }

  /** A queue in step: a suffix of this step's entries followed by the later ones. */
  lemma QueueInStep(cfg: Config, t: Trace)
    requires ReplayInv(cfg, t)
    requires t.stepId < |t.moduleOrder|
    ensures Suffix(t.queue.value, StepEntries(cfg, t.moduleOrder[t.stepId], t.stepId)
                                  + TraceFrom(cfg, t.moduleOrder, t.stepId + 1))
  {
  }

  lemma FrontOfStep(cfg: Config, m: int, k: int, later: seq<Entry>, q: seq<Entry>, n: nat)
    requires Suffix(q, StepEntries(cfg, m, k) + later)
    requires n == if |q| <= |later| then 0 else |q| - |later|
    ensures n <= |q| && Suffix(q[n..], later)
    ensures |ParamsIn(q[..n])| == n
    ensures forall e :: e in q[..n] ==> e.step == k && e.param in cfg.ParamsOf(m)
    ensures forall i, j :: 0 <= i < j < n ==> q[i].param != q[j].param
  {
    StepEntriesShape(cfg, m, k);
    FrontShape(StepEntries(cfg, m, k), later, q, n);
  }

  lemma QueuedNowShape(cfg: Config, t: Trace)
    requires ReplayInv(cfg, t)
    requires t.stepId < |t.moduleOrder|
    ensures var n, q := QueuedNow(cfg, t), t.queue.value;
            && Suffix(q[n..], TraceFrom(cfg, t.moduleOrder, t.stepId + 1))
            && |ParamsIn(q[..n])| == n
            && (forall e :: e in q[..n] ==> e.step == t.stepId && e.param in cfg.ParamsOf(t.moduleOrder[t.stepId]))
            && forall i, j :: 0 <= i < j < n ==> q[i].param != q[j].param
  {
    QueueInStep(cfg, t);
    FrontOfStep(cfg, t.moduleOrder[t.stepId], t.stepId,
                TraceFrom(cfg, t.moduleOrder, t.stepId + 1), t.queue.value, QueuedNow(cfg, t));
  }

  lemma QueuedNowExact(cfg: Config, t: Trace)
    requires ReplayInv(cfg, t)
    requires t.stepId < |t.moduleOrder|
    ensures ParamsIn(t.queue.value[..QueuedNow(cfg, t)]) == NotYetFetched(cfg, t, t.moduleOrder[t.stepId])
  {
    QueuedNowShape(cfg, t);
    forall p ensures p in NotYetFetched(cfg, t, t.moduleOrder[t.stepId])
                 <==> p in ParamsIn(t.queue.value[..QueuedNow(cfg, t)])
    {
      NotYetFetchedIsQueued(cfg, t, p);
      CurrentEntryIsFront(cfg, t, p);
    }
  }

  lemma CurrentEntryIsFront(cfg: Config, t: Trace, p: int)
    requires ReplayInv(cfg, t)
    requires t.stepId < |t.moduleOrder|
    ensures Entry(p, t.stepId) in t.queue.value <==> p in ParamsIn(t.queue.value[..QueuedNow(cfg, t)])
  {
    var e := Entry(p, t.stepId);
    var q, n := t.queue.value, QueuedNow(cfg, t);
    QueuedNowShape(cfg, t);
    TraceEntries(cfg, t.moduleOrder, t.stepId + 1, e);
    if e in q[n..] { InSuffix(q[n..], TraceFrom(cfg, t.moduleOrder, t.stepId + 1), e); }
    FrontOrRest(q, n, e);
  }

  lemma InSuffix<T>(a: seq<T>, b: seq<T>, x: T)
    requires Suffix(a, b) && x in a
    ensures x in b
  {
  }

  lemma FrontOrRest(q: seq<Entry>, n: nat, e: Entry)
    requires n <= |q|
    requires forall x :: x in q[..n] ==> x.step == e.step
    requires e !in q[n..]
    ensures e in q <==> e.param in ParamsIn(q[..n])
  {
    assert q == q[..n] + q[n..];
    if e.param in ParamsIn(q[..n]) {
      var x :| x in q[..n] && x.param == e.param;
      assert x == e;
    }
  }

  lemma StopsAt(q: seq<Entry>, n: nat, missing: set<int>)
    requires n <= |q| && |ParamsIn(q[..n])| == n && ParamsIn(q[..n]) == missing
    requires forall i, j :: 0 <= i < j < n ==> q[i].param != q[j].param
    ensures DiscardCount(q, {}, |missing|) == n
  {
    DiscardStops(q, n, {});
  }

  /** The first queue loop stops exactly after the current step's entries: its target is their number. */
  lemma DiscardIsQueuedNow(cfg: Config, t: Trace)
    requires ReplayInv(cfg, t)
    requires t.stepId < |t.moduleOrder|
    ensures DiscardCount(t.queue.value, {}, |NotYetFetched(cfg, t, t.moduleOrder[t.stepId])|) == QueuedNow(cfg, t)
  {
    QueuedNowExact(cfg, t);
    QueuedNowShape(cfg, t);
    StopsAt(t.queue.value, QueuedNow(cfg, t), NotYetFetched(cfg, t, t.moduleOrder[t.stepId]));
  }

  /** What the first queue loop discards equals what it expected: no tracing error. */
  lemma DiscardExact(cfg: Config, t: Trace, m: int)
    requires ReplayInv(cfg, t)
    requires t.stepId < |t.moduleOrder| && m == t.moduleOrder[t.stepId]
    ensures ParamsIn(t.queue.value[..DiscardCount(t.queue.value, {}, |NotYetFetched(cfg, t, m)|)])
         == NotYetFetched(cfg, t, m)
  {
    DiscardIsQueuedNow(cfg, t);
    QueuedNowExact(cfg, t);
  }

  /** A suffix of here + later splits into its part of here and a suffix of later. */
  lemma CurrentEntries(here: seq<Entry>, later: seq<Entry>, q: seq<Entry>, n: nat)
    requires Suffix(q, here + later)
    requires n == if |q| <= |later| then 0 else |q| - |later|
    ensures n <= |here| && q[..n] == here[|here| - n..]
    ensures Suffix(q[n..], later)
  {
    assert q == (here + later)[|here + later| - |q|..];
  }

  lemma {:induction false} CountDistinct(es: seq<Entry>)
    requires forall i, j :: 0 <= i < j < |es| ==> es[i].param != es[j].param
    ensures |ParamsIn(es)| == |es|
    decreases |es|
  {
    if es != [] {
      var n := |es| - 1;
      CountDistinct(es[..n]);
      assert es == es[..n] + [es[n]];
      assert ParamsIn(es) == ParamsIn(es[..n]) + {es[n].param};
    }
  }

  /** With n new and different parameters at the front of the queue, asking for n more pops exactly n. */
  lemma {:induction false} DiscardStops(q: seq<Entry>, n: nat, seen: set<int>)
    requires n <= |q|
    requires forall i :: 0 <= i < n ==> q[i].param !in seen
    requires forall i, j :: 0 <= i < j < n ==> q[i].param != q[j].param
    ensures DiscardCount(q, seen, |seen| + n) == n
    decreases n
  {
    if n > 0 {
      var next := seen + {q[0].param};
      assert |next| == |seen| + 1;
      forall i | 0 <= i < n - 1 ensures q[1..][i].param !in next {
        assert q[1..][i] == q[i + 1];
      }
      DiscardStops(q[1..], n - 1, next);
    }
  }

  lemma PopSlices<T>(es: seq<T>, q: seq<T>, n: nat)
    requires Suffix(q, es) && n <= |q|
    ensures Suffix(q[n..], es)
    ensures es[..|es| - |q[n..]|] == es[..|es| - |q|] + q[..n]
  {
  }

  lemma PopMarks(es: seq<Entry>, q: seq<Entry>, mr: map<int, int>, n: nat)
    requires Suffix(q, es) && n <= |q|
    requires mr == Marked(es[..|es| - |q|])
    ensures MarkPopped(mr, q[..n]) == Marked(es[..|es| - |q[n..]|])
  {
    PopSlices(es, q, n);
    MarkAppend(map[], es[..|es| - |q|], q[..n]);
  }

  lemma PopTo(cfg: Config, t: Trace, n: nat, r: Trace)
    requires ReplayInv(cfg, t) && n <= |t.queue.value|
    requires r.moduleOrder == t.moduleOrder && r.paramOrder == t.paramOrder
    requires r.queue == Some(t.queue.value[n..])
    requires r.mostRecent == Marked(t.paramOrder[..|t.paramOrder| - |t.queue.value[n..]|])
    requires r.stepId <= |t.moduleOrder|
    requires Suffix(t.queue.value[n..], TraceFrom(cfg, t.moduleOrder, r.stepId))
    requires Suffix(t.queue.value[n..], t.paramOrder)
    ensures ReplayInv(cfg, r)
  {
    hide TraceFrom, Marked, MarkPopped;
  }

  /** The fields of a trace whose queue lost n entries. */
  lemma PopIs(t: Trace, n: nat)
    requires t.queue.Some? && n <= |t.queue.value|
    ensures Pop(t, n) == t.(queue := Some(t.queue.value[n..]), mostRecent := MarkPopped(t.mostRecent, t.queue.value[..n]))
  {
    hide MarkPopped;
  }

  lemma PoppedIs(t: Trace)
    requires t.queue.Some? && |t.queue.value| <= |t.paramOrder|
    ensures Popped(t) == t.paramOrder[..|t.paramOrder| - |t.queue.value|]
  {
  }

  lemma ReplayParts(cfg: Config, t: Trace)
    requires ReplayInv(cfg, t)
    ensures t.queue.Some? && Suffix(t.queue.value, t.paramOrder) && |t.queue.value| <= |t.paramOrder|
    ensures t.mostRecent == Marked(t.paramOrder[..|t.paramOrder| - |t.queue.value|])
  {
    PoppedIs(t);
    hide TraceFrom, Marked, Popped;
  }

  lemma SuffixShorter<T>(q: seq<T>, es: seq<T>)
    requires Suffix(q, es)
    ensures |q| <= |es|
  {
  }

  /** Popping from the queue keeps the dictionary equal to what was popped. */
  lemma PopKeeps(cfg: Config, t: Trace, n: nat, k: nat)
    requires ReplayInv(cfg, t) && n <= |t.queue.value|
    requires k <= |t.moduleOrder|
    requires Suffix(t.queue.value[n..], TraceFrom(cfg, t.moduleOrder, k))
    ensures ReplayInv(cfg, Pop(t, n).(stepId := k))
    ensures Popped(Pop(t, n).(stepId := k)) == Popped(t) + t.queue.value[..n]
  {
    hide *;
    ReplayParts(cfg, t);
    PopIs(t, n);
    PopSlices(t.paramOrder, t.queue.value, n);
    PopMarks(t.paramOrder, t.queue.value, t.mostRecent, n);
    PopTo(cfg, t, n, Pop(t, n).(stepId := k));
    SuffixShorter(t.queue.value[n..], t.paramOrder);
    PoppedIs(t);
    PoppedIs(Pop(t, n).(stepId := k));
  }
}
