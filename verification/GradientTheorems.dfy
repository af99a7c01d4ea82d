/** The deferred pipeline against the synchronous one, over every backward pass and every completion time. */
module GradientTheorems {
  import opened Prelude
  import opened Blocks
  import opened ReduceScatter
  import opened SubGroups
  import opened GradientSpec
  import opened GradientRuns

  // --------------------------------------------------------------- submitting

  ghost predicate BucketFacts(cfg: Config, b: Book, s: Pipe, ps: seq<int>)
  {
    && SetOf(ps) == SetOf(s.bucket) && Ascending(ps) && ps != []
    && forall i :: 0 <= i < |ps| ==>
         ps[i] in cfg.params && ps[i] in b.grads && PlaceOk(cfg, s, ps[i]) && Content(cfg, s, ps[i]) == b.grads[ps[i]]
  }

  lemma {:induction false} BucketIs(cfg: Config, b: Book, s: Pipe)
    requires Inv(cfg, b, s) && s.bucket != []
    ensures BucketFacts(cfg, b, s, Sorted(SetOf(s.bucket)))
    ensures Placed(cfg, s, Sorted(SetOf(s.bucket)))
  {
    SortedBucket(cfg, b, s);
    hide Inv, PlaceOk, Content;
  }

  /** Where the output of a bucket in id order goes, by offsets and sizes. */
  lemma {:induction false} TargetIs(cfg: Config, ps: seq<int>)
    requires ps != []
    ensures Target(cfg, ps)
         == (var last := ps[|ps| - 1];
             if cfg.direct && cfg.offset(ps[0]) + Total(Sizes(ps, cfg.size)) == cfg.offset(last) + cfg.size(last)
             then Direct(cfg.offset(ps[0])) else Fresh)
  {
  }

  /** What submitting does, whatever the gradients are. */
  lemma {:induction false} SubmitShape(cfg: Config, s: Pipe)
    requires cfg.world > 0 && s.bucket != [] && Placed(cfg, s, Sorted(SetOf(s.bucket)))
    ensures var ps, t := Sorted(SetOf(s.bucket)), Submit(cfg, s);
            && ps != [] && t.bucket == [] && t.grad == s.grad && t.fp32 == s.fp32 && t.micro == s.micro
            && |t.buffer| == |s.buffer| && t.pending.Some? && t.pending.value.params == ps
            && t.pending.value.flat.None? && t.pending.value.output == Target(cfg, ps)
            && InputOk(cfg, t, t.pending.value)
  {
    SortedFull(s.bucket);
    var ps := Sorted(SetOf(s.bucket));
    assert PlaceOk(cfg, s, ps[0]);
    forall i | 0 <= i < |ps| ensures |Content(cfg, s, ps[i])| == cfg.numel(ps[i]) { assert PlaceOk(cfg, s, ps[i]); }
    hide Sorted, SetOf, Target, Put;
  }

  lemma {:induction false} SubmitReads(cfg: Config, s: Pipe, i: nat)
    requires cfg.world > 0 && s.bucket != [] && Placed(cfg, s, Sorted(SetOf(s.bucket))) && i < |Sorted(SetOf(s.bucket))|
    ensures var ps, t := Sorted(SetOf(s.bucket)), Submit(cfg, s);
            && t.pending.Some? && t.pending.value.params == ps && InputOk(cfg, t, t.pending.value) && PlaceOk(cfg, s, ps[i])
            && Reads(cfg, t, t.pending.value, i) == Divided(Content(cfg, s, ps[i]), cfg.world)
  {
    SubmitShape(cfg, s);
    var ps := Sorted(SetOf(s.bucket));
    assert PlaceOk(cfg, s, ps[i]);
    if TakesView(cfg, s, ps) {
      var at := s.places[ps[0]].at;
      PutReads(s.buffer, at, Divided(s.buffer[at..at + cfg.numel(ps[0])], cfg.world), at, cfg.numel(ps[0]));
    }
    hide Sorted, SetOf, Target, Put;
  }

  lemma {:induction false} SubmitIs(cfg: Config, b: Book, s: Pipe)
    requires Inv(cfg, b, s) && s.bucket != [] && s.pending.None?
    ensures Placed(cfg, s, Sorted(SetOf(s.bucket)))
    ensures var ps, t := Sorted(SetOf(s.bucket)), Submit(cfg, s);
            && ps != [] && t.bucket == [] && t.grad == s.grad && t.fp32 == s.fp32 && t.micro == s.micro
            && |t.buffer| == |s.buffer| && t.pending.Some? && t.pending.value.params == ps
            && t.pending.value.flat.None? && t.pending.value.output == Target(cfg, ps)
            && InputOk(cfg, t, t.pending.value)
            && forall i :: 0 <= i < |ps| ==> ps[i] in b.grads && Reads(cfg, t, t.pending.value, i) == Divided(b.grads[ps[i]], cfg.world)
  {
    hide *;
    EmptyFacts(cfg, b, s);
    BucketIs(cfg, b, s);
    SubmitShape(cfg, s);
    var ps, t := Sorted(SetOf(s.bucket)), Submit(cfg, s);
    forall i | 0 <= i < |ps|
      ensures ps[i] in b.grads && Reads(cfg, t, t.pending.value, i) == Divided(b.grads[ps[i]], cfg.world)
    {
      SubmitReads(cfg, s, i);
      BucketAt(cfg, b, s, ps, i);
    }
  }

  lemma {:induction false} BucketAt(cfg: Config, b: Book, s: Pipe, ps: seq<int>, i: nat)
    requires BucketFacts(cfg, b, s, ps) && i < |ps|
    ensures ps[i] in b.grads && PlaceOk(cfg, s, ps[i]) && Content(cfg, s, ps[i]) == b.grads[ps[i]]
  {
  }

  /** A reduce-scatter that writes straight into the flat buffer writes every slice to its parameter's place. */
  lemma {:induction false} TargetAligned(cfg: Config, ps: seq<int>, pe: Pending, i: nat)
    requires cfg.Ok() && (cfg.direct ==> cfg.Ascends())
    requires ps != [] && Ascending(ps) && forall k :: 0 <= k < |ps| ==> ps[k] in cfg.params
    requires pe.params == ps && pe.output == Target(cfg, ps) && i < |ps|
    ensures pe.output.Direct? ==> SamePlace(cfg, pe, i) && pe.output.first + GroupSize(ps, cfg.size) <= cfg.total
  {
    if pe.output.Direct? {
      BucketRises(cfg, ps);
      ContiguousIsAligned(cfg, ps, i);
      assert ps[|ps| - 1] in cfg.params;
    }
  }

  lemma {:induction false} AscendingDistinct(ps: seq<int>)
    requires Ascending(ps)
    ensures Distinct(ps)
  {
    forall i, j | 0 <= i < j < |ps| ensures ps[i] != ps[j] { assert ps[i] < ps[j]; }
  }

  lemma {:induction false} SubmitKeeps(cfg: Config, b: Book, s: Pipe)
    requires Inv(cfg, b, s) && s.bucket != [] && s.pending.None? && (cfg.direct ==> cfg.Ascends())
    ensures Placed(cfg, s, Sorted(SetOf(s.bucket)))
    ensures Inv(cfg, b, Submit(cfg, s))
  {
    var ps := Sorted(SetOf(s.bucket));
    SubmitIs(cfg, b, s);
    BucketIs(cfg, b, s);
    var t := Submit(cfg, s);
    hide Submit, Content, PlaceOk, Collected, LandedInv, Target, Sorted, Reads;
    AscendingDistinct(ps);
    SameLanded(cfg, b, s, b, t);
    assert SetOf<int>([]) == {};
    TargetAligned(cfg, ps, t.pending.value, 0);
    assert PendingOk(cfg, t);
    forall i | 0 <= i < |ps| ensures SliceInv(cfg, b, t, i) {
      TargetAligned(cfg, ps, t.pending.value, i);
    }
    hide SliceInv, PendingOk;
  }

  // ------------------------------------------------------------------- passes

  /** A gradient hook fires; the reduce-scatter under way completes; backward ends; the last slices are taken. The
      padding a completion may have to write is part of the event. */
  datatype Event = Hook(p: int, g: seq<real>, junk: Padding)
    | Finish(junk: Padding) | EndBackward(junk: Padding) | Take(junk: Padding)

  /** The deferred and the synchronous way to empty the bucket. */
  ghost function Empty(cfg: Config, deferred: bool, s: Pipe, junk: Padding): Pipe
    requires CanEmpty(cfg, deferred, s)
  {
    if deferred then Reduce(cfg, s, junk) else ReduceNow(cfg, s, junk)
  }

  ghost predicate CanEmpty(cfg: Config, deferred: bool, s: Pipe)
  {
    && CanWait(cfg, s) && Placed(cfg, s, Sorted(SetOf(s.bucket)))
    && (!deferred ==> s.pending.None? && (s.bucket != [] ==> CanWait(cfg, Submit(cfg, s))))
  }

  /** Emptying takes the slices of what was pending, and in the synchronous version of the bucket itself. */
  function Emptied(deferred: bool, b: Book, s: Pipe): Book
  {
    if s.bucket == [] then b else if deferred then Took(b, PendingParams(s)) else b.(landed := b.landed + SetOf(s.bucket))
  }

  lemma {:induction false} DeferredKeeps(cfg: Config, b: Book, s: Pipe, junk: Padding)
    requires Inv(cfg, b, s) && s.micro == 0 && (cfg.direct ==> cfg.Ascends())
    ensures CanEmpty(cfg, true, s) && Inv(cfg, Emptied(true, b, s), Empty(cfg, true, s, junk))
    ensures Empty(cfg, true, s, junk).micro == 0
    ensures Empty(cfg, true, s, junk).bucket == []
  {
    hide *;
    EmptyFacts(cfg, b, s);
    if s.bucket != [] {
      BucketIs(cfg, b, s);
      FirstStepClean(cfg, b, s);
      FlushKeeps(cfg, b, s, junk);
      FlushShape(cfg, s, junk);
      SubmitKeeps(cfg, Took(b, PendingParams(s)), Flush(cfg, s, junk));
      SubmitIs(cfg, Took(b, PendingParams(s)), Flush(cfg, s, junk));
    }
    CanEmptyIntro(cfg, true, s);
    EmptyIs(cfg, true, b, s, junk);
  }

  lemma {:induction false} SynchronousKeeps(cfg: Config, b: Book, s: Pipe, junk: Padding)
    requires Inv(cfg, b, s) && s.micro == 0 && s.pending.None? && (cfg.direct ==> cfg.Ascends())
    ensures CanEmpty(cfg, false, s) && Inv(cfg, Emptied(false, b, s), Empty(cfg, false, s, junk))
    ensures Empty(cfg, false, s, junk).micro == 0
    ensures Empty(cfg, false, s, junk).bucket == [] && Empty(cfg, false, s, junk).pending.None?
  {
    hide *;
    EmptyFacts(cfg, b, s);
    if s.bucket != [] {
      BucketIs(cfg, b, s);
      SubmitKeeps(cfg, b, s);
      SubmitIs(cfg, b, s);
      FirstStepClean(cfg, b, Submit(cfg, s));
      FlushKeeps(cfg, b, Submit(cfg, s), junk);
      FlushShape(cfg, Submit(cfg, s), junk);
      SameBook(cfg, b, s);
    }
    CanEmptyIntro(cfg, false, s);
    EmptyIs(cfg, false, b, s, junk);
  }

  lemma {:induction false} EmptyFacts(cfg: Config, b: Book, s: Pipe)
    requires Inv(cfg, b, s)
    ensures CanWait(cfg, s) && cfg.world > 0
    ensures s.bucket == [] ==> Placed(cfg, s, Sorted(SetOf(s.bucket)))
  {
    InvParams(cfg, b, s);
    assert SetOf<int>([]) == {};
    hide Inv, PlaceOk, CanWait;
  }

  lemma {:induction false} FirstStepClean(cfg: Config, b: Book, s: Pipe)
    requires Inv(cfg, b, s) && s.micro == 0
    ensures AllClean(cfg, s)
  {
    InvParams(cfg, b, s);
    if s.pending.Some? {
      forall i | 0 <= i < |s.pending.value.params|
        ensures cfg.offset(s.pending.value.params[i]) + cfg.Len(s.pending.value.params[i]) <= |s.grad|
      {
        LenFits(cfg, s.pending.value.params[i]);
      }
    }
    hide Inv, PendingOk;
  }

  lemma {:induction false} FlushShape(cfg: Config, s: Pipe, junk: Padding)
    requires CanWait(cfg, s)
    ensures var r := Flush(cfg, s, junk);
            r.pending.None? && r.bucket == s.bucket && r.places == s.places && r.buffer == s.buffer && r.micro == s.micro
    ensures Placed(cfg, s, Sorted(SetOf(s.bucket))) ==> Placed(cfg, Flush(cfg, s, junk), Sorted(SetOf(s.bucket)))
  {
    hide Sorted;
  }

  lemma {:induction false} SameBook(cfg: Config, b: Book, s: Pipe)
    requires Inv(cfg, b, s) && s.bucket != [] && Placed(cfg, s, Sorted(SetOf(s.bucket)))
    ensures PendingParams(Submit(cfg, s)) == Sorted(SetOf(s.bucket))
    ensures Took(b, Sorted(SetOf(s.bucket))) == b.(landed := b.landed + SetOf(s.bucket))
  {
    SortedBucket(cfg, b, s);
    hide Inv, Sorted;
  }

  lemma {:induction false} CanEmptyIntro(cfg: Config, deferred: bool, s: Pipe)
    requires CanWait(cfg, s) && Placed(cfg, s, Sorted(SetOf(s.bucket)))
    requires !deferred ==> s.pending.None? && (s.bucket != [] ==> CanWait(cfg, Submit(cfg, s)))
    ensures CanEmpty(cfg, deferred, s)
  {
  }

  lemma {:induction false} EmptyIs(cfg: Config, deferred: bool, b: Book, s: Pipe, junk: Padding)
    requires CanEmpty(cfg, deferred, s)
    ensures s.bucket == [] ==> Empty(cfg, deferred, s, junk) == s && Emptied(deferred, b, s) == b
    ensures s.bucket != [] && deferred ==>
              && Placed(cfg, Flush(cfg, s, junk), Sorted(SetOf(Flush(cfg, s, junk).bucket)))
              && Empty(cfg, deferred, s, junk) == Submit(cfg, Flush(cfg, s, junk))
              && Emptied(deferred, b, s) == Took(b, PendingParams(s))
    ensures s.bucket != [] && !deferred ==>
              && Placed(cfg, s, Sorted(SetOf(s.bucket)))
              && Empty(cfg, deferred, s, junk) == Flush(cfg, Submit(cfg, s), junk)
              && Emptied(deferred, b, s) == b.(landed := b.landed + SetOf(s.bucket))
  {
    if s.bucket != [] { FlushShape(cfg, s, junk); }
    hide Flush, Submit, Sorted, Placed;
  }

  /** The invariant, and what the two versions rely on besides. */
  ghost predicate Consistent(cfg: Config, deferred: bool, b: Book, s: Pipe)
  {
    Inv(cfg, b, s) && (cfg.direct ==> cfg.Ascends()) && (!deferred ==> s.pending.None?)
  }

  lemma {:induction false} EmptyKeeps(cfg: Config, deferred: bool, b: Book, s: Pipe, junk: Padding)
    requires Inv(cfg, b, s) && s.micro == 0 && (cfg.direct ==> cfg.Ascends()) && (!deferred ==> s.pending.None?)
    ensures CanEmpty(cfg, deferred, s)
    ensures Inv(cfg, Emptied(deferred, b, s), Empty(cfg, deferred, s, junk))
    ensures Empty(cfg, deferred, s, junk).micro == 0 && Empty(cfg, deferred, s, junk).bucket == []
    ensures !deferred ==> Empty(cfg, deferred, s, junk).pending.None?
  {
    hide *;
    if deferred { DeferredKeeps(cfg, b, s, junk); } else { SynchronousKeeps(cfg, b, s, junk); }
  }

  /** The pipeline when p is added: emptied first if p does not fit. */
  ghost function Ready(cfg: Config, deferred: bool, b: Book, s: Pipe, p: int, junk: Padding): (u: Pipe)
    requires Consistent(cfg, deferred, b, s) && s.micro == 0
    ensures |u.buffer| == cfg.bucketSize
  {
    EmptyKeeps(cfg, deferred, b, s, junk);
    if Overflows(cfg, s, p) then Empty(cfg, deferred, s, junk) else s
  }

  /** The discipline of a pass: a hook fires once per parameter, during backward, and does not overwrite what an
      unfinished reduce-scatter still reads; taking slices adds nothing to old values. */
  ghost predicate Guard(cfg: Config, deferred: bool, b: Book, s: Pipe, e: Event)
    requires Consistent(cfg, deferred, b, s)
  {
    match e
    case Hook(p, g, junk) =>
      && s.micro == 0 && p in cfg.params && p !in b.grads && |g| == cfg.numel(p)
      && !Overwrites(cfg, Ready(cfg, deferred, b, s, p, junk), p)
    case Finish(junk) => s.pending.Some?
    case EndBackward(junk) => s.micro == 0
    case Take(junk) => AllClean(cfg, s)
  }

  /** What has fired and landed so far, and the pipeline. */
  datatype Progress = Progress(book: Book, pipe: Pipe)

  ghost function After(cfg: Config, deferred: bool, b: Book, s: Pipe, e: Event): Progress
    requires Consistent(cfg, deferred, b, s) && Guard(cfg, deferred, b, s, e)
  {
    InvParams(cfg, b, s);
    match e
    case Hook(p, g, junk) =>
      Progress((if Overflows(cfg, s, p) then Emptied(deferred, b, s) else b).(grads := b.grads[p := g]),
               Add(cfg, Ready(cfg, deferred, b, s, p, junk), p, g))
    case Finish(junk) => Progress(b, Complete(cfg, s, junk))
    case EndBackward(junk) =>
      EmptyKeeps(cfg, deferred, b, s, junk);
      Progress(Emptied(deferred, b, s), Empty(cfg, deferred, s, junk).(micro := s.micro + 1))
    case Take(junk) => Progress(Took(b, PendingParams(s)), Flush(cfg, s, junk))
  }

  lemma {:induction false} HookKeeps(cfg: Config, deferred: bool, b: Book, s: Pipe, e: Event)
    requires Consistent(cfg, deferred, b, s) && Guard(cfg, deferred, b, s, e) && e.Hook?
    ensures var r := After(cfg, deferred, b, s, e); Consistent(cfg, deferred, r.book, r.pipe)
  {
    EmptyKeeps(cfg, deferred, b, s, e.junk);
    var u := Ready(cfg, deferred, b, s, e.p, e.junk);
    var d := if Overflows(cfg, s, e.p) then Emptied(deferred, b, s) else b;
    assert Inv(cfg, d, u);
    assert d.grads == b.grads by { hide Empty; }
    hide Empty, Inv, Overwrites, Overflows, Emptied, CanEmpty;
    AddKeeps(cfg, d, u, e.p, e.g);
  }

  lemma {:induction false} AnyMicro(cfg: Config, b: Book, s: Pipe, n: nat)
    requires Inv(cfg, b, s)
    ensures Inv(cfg, b, s.(micro := n))
  {
    hide LandedAt;
    SameBucket(cfg, b, s, s.(micro := n));
    SameLanded(cfg, b, s, b, s.(micro := n));
    if s.pending.Some? {
      StillPending(cfg, s, s.(micro := n));
      forall i | 0 <= i < |s.pending.value.params| ensures SliceInv(cfg, b, s.(micro := n), i) {
        SliceFrame(cfg, b, s, b, s.(micro := n), i);
      }
    }
    hide SliceInv, PendingOk, BucketInv, LandedInv;
  }

  /** Every event allowed by the discipline keeps the invariant. */
  lemma {:induction false} StepKeeps(cfg: Config, deferred: bool, b: Book, s: Pipe, e: Event)
    requires Consistent(cfg, deferred, b, s) && Guard(cfg, deferred, b, s, e)
    ensures var r := After(cfg, deferred, b, s, e); Consistent(cfg, deferred, r.book, r.pipe) && r.book.fp0 == b.fp0
  {
    hide Inv, Empty, Complete, Flush;
    match e
    case Hook(_, _, _) => HookKeeps(cfg, deferred, b, s, e);
    case Finish(junk) => CompleteKeeps(cfg, b, s, junk);
    case EndBackward(junk) =>
      EmptyKeeps(cfg, deferred, b, s, junk);
      AnyMicro(cfg, Emptied(deferred, b, s), Empty(cfg, deferred, s, junk), s.micro + 1);
    case Take(junk) => FlushKeeps(cfg, b, s, junk);
  }

  /** The state before the first hook of a pass. */
  ghost predicate Started(cfg: Config, s: Pipe)
  {
    cfg.Ok() && Shaped(cfg, s) && s.bucket == [] && s.pending.None? && s.micro == 0 && (cfg.direct ==> cfg.Ascends())
  }

  lemma {:induction false} StartInv(cfg: Config, s: Pipe)
    requires Started(cfg, s)
    ensures Inv(cfg, Book(map[], {}, s.grad, s.fp32), s)
  {
    assert SetOf<int>([]) == {};
  }

  /** A pass: the outcome of a list of events, or None if one of them broke the discipline. */
  ghost function Pass(cfg: Config, deferred: bool, start: Pipe, es: seq<Event>): (r: Option<Progress>)
    requires Started(cfg, start)
    ensures r.Some? ==> Consistent(cfg, deferred, r.value.book, r.value.pipe) && r.value.book.fp0 == start.fp32
  {
    if es == [] then StartInv(cfg, start); Some(Progress(Book(map[], {}, start.grad, start.fp32), start)) else
      var before := Pass(cfg, deferred, start, es[..|es| - 1]);
      var e := es[|es| - 1];
      if before.None? || !Guard(cfg, deferred, before.value.book, before.value.pipe, e) then None
      else
        StepKeeps(cfg, deferred, before.value.book, before.value.pipe, e);
        Some(After(cfg, deferred, before.value.book, before.value.pipe, e))
  }

  /** The pass is over: nothing is collected and nothing is pending. */
  ghost predicate Finished(cfg: Config, deferred: bool, start: Pipe, es: seq<Event>)
  {
    && Started(cfg, start) && Pass(cfg, deferred, start, es).Some?
    && Pass(cfg, deferred, start, es).value.pipe.bucket == []
    && Pass(cfg, deferred, start, es).value.pipe.pending.None?
  }

  /** One more event of a pass. */
  lemma {:induction false} PassNext(cfg: Config, start: Pipe, es: seq<Event>, e: Event)
    requires Started(cfg, start) && Pass(cfg, true, start, es).Some?
    ensures var r := Pass(cfg, true, start, es).value;
            && Consistent(cfg, true, r.book, r.pipe)
            && Pass(cfg, true, start, es + [e])
               == if Guard(cfg, true, r.book, r.pipe, e) then Some(After(cfg, true, r.book, r.pipe, e)) else None
  {
    assert (es + [e])[..|es|] == es;
    hide Inv, Guard, After, Started;
  }

  /** A hook whose gradient fits, with nothing under way. */
  lemma {:induction false} HookFits(cfg: Config, b: Book, s: Pipe, p: int, g: seq<real>, junk: Padding)
    requires Consistent(cfg, true, b, s) && s.micro == 0 && s.pending.None? && !Overflows(cfg, s, p)
    requires p in cfg.params && p !in b.grads && |g| == cfg.numel(p)
    ensures Guard(cfg, true, b, s, Hook(p, g, junk)) && |s.buffer| == cfg.bucketSize
    ensures After(cfg, true, b, s, Hook(p, g, junk)) == Progress(b.(grads := b.grads[p := g]), Add(cfg, s, p, g))
  {
    hide Overflows, Add, Empty, Emptied;
  }

  /** The end of backward, with nothing under way. */
  lemma {:induction false} EndIs(cfg: Config, b: Book, s: Pipe, junk: Padding)
    requires Consistent(cfg, true, b, s) && s.micro == 0 && s.bucket != [] && s.pending.None?
    ensures CanEmpty(cfg, true, s) && Guard(cfg, true, b, s, EndBackward(junk))
    ensures After(cfg, true, b, s, EndBackward(junk)) == Progress(b.(landed := b.landed + {}), Reduce(cfg, s, junk).(micro := 1))
  {
    EmptyKeeps(cfg, true, b, s, junk);
    assert SetOf<int>([]) == {};
    hide Inv, Reduce, CanEmpty;
  }

  /** The event reduces the bucket: a hook whose gradient does not fit, or the end of backward. */
  predicate Reduces(cfg: Config, s: Pipe, e: Event)
  {
    e.EndBackward? || (e.Hook? && Overflows(cfg, s, e.p))
  }

  /** The tensors of all reduce-scatters of a pass, in the order they were submitted. */
  ghost function Reduced(cfg: Config, deferred: bool, start: Pipe, es: seq<Event>): seq<int>
    requires Started(cfg, start) && Pass(cfg, deferred, start, es).Some?
  {
    if es == [] then [] else
      var s := Pass(cfg, deferred, start, es[..|es| - 1]).value.pipe;
      Reduced(cfg, deferred, start, es[..|es| - 1]) + if Reduces(cfg, s, es[|es| - 1]) then Sorted(SetOf(s.bucket)) else []
  }

  lemma {:induction false} HookBucket(cfg: Config, deferred: bool, b: Book, s: Pipe, e: Event)
    requires Consistent(cfg, deferred, b, s) && Guard(cfg, deferred, b, s, e) && e.Hook?
    ensures var r := After(cfg, deferred, b, s, e);
            && e.p !in b.grads && r.book.grads == b.grads[e.p := e.g]
            && r.pipe.bucket == (if Overflows(cfg, s, e.p) then [] else s.bucket) + [e.p]
  {
    EmptyKeeps(cfg, deferred, b, s, e.junk);
    hide Inv, Empty, Overflows, Overwrites, CanEmpty, Put, Elements;
  }

  lemma {:induction false} OtherBucket(cfg: Config, deferred: bool, b: Book, s: Pipe, e: Event)
    requires Consistent(cfg, deferred, b, s) && Guard(cfg, deferred, b, s, e) && !e.Hook?
    ensures var r := After(cfg, deferred, b, s, e);
            r.book.grads == b.grads && r.pipe.bucket == if e.EndBackward? then [] else s.bucket
  {
    InvParams(cfg, b, s);
    if e.EndBackward? { EmptyKeeps(cfg, deferred, b, s, e.junk); }
    hide Inv, Empty, CanEmpty, Complete, Flush;
  }

  /** What an event does to the bucket and to the set of fired gradients. */
  lemma {:induction false} BucketAfter(cfg: Config, deferred: bool, b: Book, s: Pipe, e: Event)
    requires Consistent(cfg, deferred, b, s) && Guard(cfg, deferred, b, s, e)
    ensures var r := After(cfg, deferred, b, s, e);
            && (e.Hook? ==> e.p !in b.grads)
            && r.book.grads.Keys == b.grads.Keys + (if e.Hook? then {e.p} else {})
            && r.pipe.bucket == (if Reduces(cfg, s, e) then [] else s.bucket) + (if e.Hook? then [e.p] else [])
  {
    hide Consistent, Guard, After, Overflows;
    if e.Hook? { HookBucket(cfg, deferred, b, s, e); } else { OtherBucket(cfg, deferred, b, s, e); }
  }

  lemma {:induction false} JoinDistinct(xs: seq<int>, ps: set<int>)
    requires Distinct(xs) && SetOf(xs) !! ps
    ensures Distinct(xs + Sorted(ps)) && SetOf(xs + Sorted(ps)) == SetOf(xs) + ps
  {
    var ys := Sorted(ps);
    SortedAscends(ps);
    AscendingDistinct(ys);
    forall x ensures x in SetOf(ys) <==> x in ps { SortedMember(ps, x); }
    hide Sorted;
    forall i, j | 0 <= i < j < |xs + ys| ensures (xs + ys)[i] != (xs + ys)[j] {
      if i < |xs| <= j {
        assert xs[i] in SetOf(xs) && ys[j - |xs|] in SetOf(ys);
      }
    }
  }

  /** A pass and its last event. */
  lemma {:induction false} PassTo(cfg: Config, deferred: bool, start: Pipe, es: seq<Event>)
    requires Started(cfg, start) && Pass(cfg, deferred, start, es).Some? && es != []
    ensures Pass(cfg, deferred, start, es[..|es| - 1]).Some?
    ensures var r, e := Pass(cfg, deferred, start, es[..|es| - 1]).value, es[|es| - 1];
            && Consistent(cfg, deferred, r.book, r.pipe) && Guard(cfg, deferred, r.book, r.pipe, e)
            && Inv(cfg, r.book, r.pipe)
            && Pass(cfg, deferred, start, es) == Some(After(cfg, deferred, r.book, r.pipe, e))
            && Reduced(cfg, deferred, start, es)
               == Reduced(cfg, deferred, start, es[..|es| - 1])
                  + if Reduces(cfg, r.pipe, e) then Sorted(SetOf(r.pipe.bucket)) else []
  {
    hide Inv, Guard, After, Reduces, Sorted, SetOf, Started;
  }

  lemma {:induction false} NothingReduced(cfg: Config, deferred: bool, start: Pipe)
    requires Started(cfg, start)
    ensures Pass(cfg, deferred, start, []).Some? && Reduced(cfg, deferred, start, []) == []
    ensures Distinct<int>([]) && SetOf<int>([]) == {} && Pass(cfg, deferred, start, []).value.book.grads == map[]
  {
  }

  /** At every moment the gradients that have fired are those in the bucket and, once each, those reduced. */
  lemma {:induction false} ReducedOnce(cfg: Config, deferred: bool, start: Pipe, es: seq<Event>)
    requires Started(cfg, start) && Pass(cfg, deferred, start, es).Some?
    ensures var r, xs := Pass(cfg, deferred, start, es).value, Reduced(cfg, deferred, start, es);
            Distinct(xs) && SetOf(xs) == r.book.grads.Keys - SetOf(r.pipe.bucket)
    decreases |es|
  {
    hide *;
    if es == [] {
      NothingReduced(cfg, deferred, start);
    } else {
      var front, e := es[..|es| - 1], es[|es| - 1];
      PassTo(cfg, deferred, start, es);
      ReducedOnce(cfg, deferred, start, front);
      var r, xs := Pass(cfg, deferred, start, front).value, Reduced(cfg, deferred, start, front);
      BucketAfter(cfg, deferred, r.book, r.pipe, e);
      BucketFired(cfg, r.book, r.pipe);
      JoinDistinct(xs, SetOf(r.pipe.bucket));
      NextFired(xs, r.book.grads.Keys, r.pipe.bucket, e, Reduces(cfg, r.pipe, e));
      assert xs + [] == xs && SetOf(xs) + {} == SetOf(xs);
    }
  }

  lemma {:induction false} BucketFired(cfg: Config, b: Book, s: Pipe)
    requires Inv(cfg, b, s)
    ensures SetOf(s.bucket) <= b.grads.Keys
  {
  }

  /** The sets of fired, collected and reduced parameters, one event on. */
  lemma {:induction false} NextFired(xs: seq<int>, fired: set<int>, bucket: seq<int>, e: Event, reduces: bool)
    requires SetOf(bucket) <= fired && SetOf(xs) == fired - SetOf(bucket) && (e.Hook? ==> e.p !in fired)
    ensures var next := (if reduces then [] else bucket) + (if e.Hook? then [e.p] else []);
            (SetOf(xs) + if reduces then SetOf(bucket) else {}) == (fired + if e.Hook? then {e.p} else {}) - SetOf(next)
  {
    var next := (if reduces then [] else bucket) + (if e.Hook? then [e.p] else []);
    assert SetOf(next) == (if reduces then {} else SetOf(bucket)) + if e.Hook? then {e.p} else {};
  }

  /** A finished pass, deferred or synchronous: every gradient whose hook fired was reduced exactly once, and nothing
      else was; its slice is in its place of this iteration's fp32 buffer; the rest of the buffer is untouched. */
  lemma {:induction false} PassExact(cfg: Config, deferred: bool, start: Pipe, es: seq<Event>)
    requires Finished(cfg, deferred, start, es)
    ensures var b, s := Pass(cfg, deferred, start, es).value.book, Pass(cfg, deferred, start, es).value.pipe;
            && BookOk(cfg, b) && Shaped(cfg, s) && b.landed == b.grads.Keys
            && (forall p :: p in b.grads ==> LandedAt(cfg, b, s, p))
            && (forall j :: 0 <= j < cfg.total && !Covers(cfg, b.grads.Keys, j) ==> s.fp32[j] == start.fp32[j])
    ensures Distinct(Reduced(cfg, deferred, start, es))
    ensures SetOf(Reduced(cfg, deferred, start, es)) == Pass(cfg, deferred, start, es).value.book.grads.Keys
  {
    ReducedOnce(cfg, deferred, start, es);
    hide Pass, LandedAt, Covers, Reduced;
    assert SetOf<int>([]) == {};
  }

  /** The deferred pipeline leaves the fp32 gradients the synchronous one leaves, for the same gradients in any hook
      order and whenever the collectives complete. */
  lemma {:induction false} DeferredEqualsSynchronous(
      cfg: Config, start: Pipe, es: seq<Event>, syncStart: Pipe, fs: seq<Event>)
    requires Finished(cfg, true, start, es) && Finished(cfg.(direct := false), false, syncStart, fs)
    requires start.fp32 == syncStart.fp32
    requires Pass(cfg, true, start, es).value.book.grads == Pass(cfg.(direct := false), false, syncStart, fs).value.book.grads
    ensures Pass(cfg, true, start, es).value.pipe.fp32 == Pass(cfg.(direct := false), false, syncStart, fs).value.pipe.fp32
  {
    var sync := cfg.(direct := false);
    PassExact(cfg, true, start, es);
    PassExact(sync, false, syncStart, fs);
    var r, q := Pass(cfg, true, start, es).value, Pass(sync, false, syncStart, fs).value;
    hide Pass, Started, Finished;
    SameBuffers(cfg, r.book, r.pipe, q.book, q.pipe, start.fp32);
  }

  lemma {:induction false} SameBuffers(cfg: Config, b: Book, s: Pipe, c: Book, t: Pipe, before: seq<real>)
    requires var sync := cfg.(direct := false);
             && BookOk(cfg, b) && Shaped(cfg, s) && BookOk(sync, c) && Shaped(sync, t) && |before| == cfg.total
             && b.grads == c.grads
             && (forall p :: p in b.grads ==> LandedAt(cfg, b, s, p)) && (forall p :: p in c.grads ==> LandedAt(sync, c, t, p))
             && (forall j :: 0 <= j < cfg.total && !Covers(cfg, b.grads.Keys, j) ==> s.fp32[j] == before[j])
             && (forall j :: 0 <= j < cfg.total && !Covers(sync, c.grads.Keys, j) ==> t.fp32[j] == before[j])
    ensures s.fp32 == t.fp32
  {
    var sync := cfg.(direct := false);
    hide LandedAt, Covers;
    forall j | 0 <= j < cfg.total ensures s.fp32[j] == t.fp32[j] {
      SameCover(cfg, b.grads.Keys, j);
      if Covers(cfg, b.grads.Keys, j) { SameElement(cfg, b, s, c, t, j); }
    }
  }

  lemma {:induction false} SameCover(cfg: Config, ps: set<int>, j: int)
    ensures Covers(cfg, ps, j) <==> Covers(cfg.(direct := false), ps, j)
  {
    var sync := cfg.(direct := false);
    assert forall p: int :: cfg.Len(p) == sync.Len(p);
  }

  lemma {:induction false} SameElement(cfg: Config, b: Book, s: Pipe, c: Book, t: Pipe, j: nat)
    requires var sync := cfg.(direct := false);
             && BookOk(cfg, b) && Shaped(cfg, s) && BookOk(sync, c) && Shaped(sync, t) && b.grads == c.grads
             && (forall p :: p in b.grads ==> LandedAt(cfg, b, s, p)) && (forall p :: p in c.grads ==> LandedAt(sync, c, t, p))
    requires j < cfg.total && Covers(cfg, b.grads.Keys, j)
    ensures s.fp32[j] == t.fp32[j]
  {
    var p :| p in b.grads.Keys && cfg.offset(p) <= j < cfg.offset(p) + cfg.Len(p);
    assert LandedAt(cfg, b, s, p) && LandedAt(cfg.(direct := false), c, t, p);
    SameExpected(cfg, b, c, p);
    hide Expected, BookOk, Seg, Shaped, Covers;
    SegAt(cfg, s.fp32, p, j);
    SegAt(cfg.(direct := false), t.fp32, p, j);
  }

  lemma {:induction false} SegAt(cfg: Config, v: seq<real>, p: int, j: nat)
    requires cfg.offset(p) + cfg.Len(p) <= |v| && cfg.offset(p) <= j < cfg.offset(p) + cfg.Len(p)
    ensures Seg(cfg, v, p)[j - cfg.offset(p)] == v[j]
  {
  }

  lemma {:induction false} SameExpected(cfg: Config, b: Book, c: Book, p: int)
    requires BookOk(cfg, b) && BookOk(cfg.(direct := false), c) && p in b.grads && b.grads == c.grads
    ensures Expected(cfg, b, p) == Expected(cfg.(direct := false), c, p)
  {
  }

  // -------------------------------------------------- where it can go wrong

  /** An unfinished reduce-scatter that reads the bucket buffer survives adding p, whatever gradient p has, if and only
      if adding p does not write where it reads. */
  lemma {:induction false} OverwriteExact(cfg: Config, b: Book, s: Pipe, p: int)
    requires Inv(cfg, b, s) && s.pending.Some? && s.pending.value.flat.None? && |s.pending.value.params| == 1
    ensures InputOk(cfg, s, s.pending.value)
    ensures (forall g: seq<real> :: |g| == cfg.numel(p) ==> ReadsSame(cfg, s, p, g)) <==> !Overwrites(cfg, s, p)
  {
    assert PendingOk(cfg, s);
    if !Overwrites(cfg, s, p) {
      forall g: seq<real> | |g| == cfg.numel(p) ensures ReadsSame(cfg, s, p, g) { Untouched(cfg, s, p, g); }
    } else {
      Spoiled(cfg, s, p);
    }
  }

  /** What is read is the same before and after adding p with gradient g. */
  ghost predicate ReadsSame(cfg: Config, s: Pipe, p: int, g: seq<real>)
    requires s.pending.Some? && |s.pending.value.params| == 1 && InputOk(cfg, s, s.pending.value)
    requires |s.buffer| == cfg.bucketSize
  {
    var t := Add(cfg, s, p, g);
    InputOk(cfg, t, s.pending.value) && Reads(cfg, t, s.pending.value, 0) == Reads(cfg, s, s.pending.value, 0)
  }

  lemma {:induction false} Untouched(cfg: Config, s: Pipe, p: int, g: seq<real>)
    requires s.pending.Some? && s.pending.value.flat.None? && |s.pending.value.params| == 1
    requires InputOk(cfg, s, s.pending.value) && |s.buffer| == cfg.bucketSize
    requires |g| == cfg.numel(p) && !Overwrites(cfg, s, p)
    ensures ReadsSame(cfg, s, p, g)
  {
    if s.pending.value.input.View? && Elements(cfg, s.bucket) + |g| < cfg.bucketSize {
      PutReads(s.buffer, Elements(cfg, s.bucket), g, s.pending.value.input.at, cfg.numel(s.pending.value.params[0]));
    }
    hide Elements, Put;
  }

  lemma {:induction false} Spoiled(cfg: Config, s: Pipe, p: int)
    requires s.pending.Some? && s.pending.value.flat.None? && |s.pending.value.params| == 1
    requires InputOk(cfg, s, s.pending.value) && |s.buffer| == cfg.bucketSize && Overwrites(cfg, s, p)
    ensures exists g: seq<real> :: |g| == cfg.numel(p) && !ReadsSame(cfg, s, p, g)
  {
    var at, e, n := s.pending.value.input.at, Elements(cfg, s.bucket), cfg.numel(p);
    var m := cfg.numel(s.pending.value.params[0]);
    var j := if e < at then at else e;
    var g := seq(n, _ => s.buffer[j] + 1.0);
    var t := Add(cfg, s, p, g);
    assert t.buffer[j] == g[j - e];
    assert at <= j < at + m;
    assert t.buffer[at..at + m][j - at] != s.buffer[at..at + m][j - at];
    assert !ReadsSame(cfg, s, p, g);
  }

  /** Taking a slice leaves the right value in the fp32 buffer if and only if nothing old was added to it: it is the
      first micro step, the reduce-scatter wrote in place, or the place held zeros. */
  lemma {:induction false} TakingIsExact(cfg: Config, b: Book, s: Pipe, i: nat)
    requires BookOk(cfg, b) && Shaped(cfg, s) && PendingOk(cfg, s) && s.pending.value.flat.Some?
    requires i < |s.pending.value.params| && SliceInv(cfg, b, s, i) && s.pending.value.params[i] in cfg.params
    requires !NothingHere(cfg, s.pending.value.params[i])
    ensures var p := s.pending.value.params[i];
            && cfg.offset(p) + cfg.Len(p) <= cfg.total
            && (Seg(cfg, LandOne(cfg, s, i).fp32, p) == Expected(cfg, b, p) <==> Clean(cfg, s.grad, s, i))
  {
    var p := s.pending.value.params[i];
    LenFits(cfg, p);
    hide PendingOk, ReceivedSlice, Slice, Divided;
    if Clean(cfg, s.grad, s, i) {
      LandGrad(cfg, s, i);
      PutReads(s.fp32, cfg.offset(p), Part(cfg, s, i), cfg.offset(p), cfg.Len(p));
    } else {
      var sum := Plus(Seg(cfg, s.grad, p), Part(cfg, s, i));
      PutReads(s.grad, cfg.offset(p), sum, cfg.offset(p), cfg.Len(p));
      PutReads(s.fp32, cfg.offset(p), sum, cfg.offset(p), cfg.Len(p));
      NotZeroAdds(Seg(cfg, s.grad, p), Part(cfg, s, i));
    }
  }

  lemma {:induction false} NotZeroAdds(a: seq<real>, x: seq<real>)
    requires |a| == |x|
    ensures Plus(a, x) == x <==> a == seq(|a|, _ => 0.0)
  {
    if Plus(a, x) == x {
      forall j | 0 <= j < |a| ensures a[j] == 0.0 { assert Plus(a, x)[j] == x[j]; }
    } else if a == seq(|a|, _ => 0.0) {
      PlusZero(x, |x|);
    }
  }

  /** The contiguity test decides exactly when the shards lie in the order the bucket lists them... */
  lemma {:induction false} ContiguityExact(cfg: Config, ps: seq<int>)
    requires ps != [] && LooksContiguous(cfg, ps)
    ensures (forall i :: 0 <= i < |ps| ==> InItsPlace(cfg, ps, i)) <==> Rising(cfg, ps)
  {
    if Rising(cfg, ps) {
      forall i | 0 <= i < |ps| ensures InItsPlace(cfg, ps, i) { ContiguousIsAligned(cfg, ps, i); }
    } else if forall i :: 0 <= i < |ps| ==> InItsPlace(cfg, ps, i) {
      forall i, j | 0 <= i < j < |ps| ensures cfg.offset(ps[i]) + cfg.size(ps[i]) <= cfg.offset(ps[j]) {
        assert InItsPlace(cfg, ps, i) && InItsPlace(cfg, ps, j);
        BlocksDisjoint(Sizes(ps, cfg.size), i, j);
      }
    }
  }

  ghost predicate InItsPlace(cfg: Config, ps: seq<int>, i: nat)
    requires i < |ps|
  {
    cfg.offset(ps[0]) + Off(Sizes(ps, cfg.size), i) == cfg.offset(ps[i])
  }

  /** Four parameters of one element, ids 0, 1, 2, 3, at offsets 0, 2, 1, 3. */
  function Shuffled(): Config
  {
    Config({0, 1, 2, 3}, _ => 1, _ => 1, p => if p == 1 then 2 else if p == 2 then 1 else if p == 3 then 3 else 0,
           4, 1, 0, (_, _) => 0.0, 10, true)
  }

  /** ...and is passed by a bucket whose shards lie in another order. */
  lemma {:induction false} ContiguityFooled()
    ensures Shuffled().Ok() && LooksContiguous(Shuffled(), [0, 1, 2, 3]) && !InItsPlace(Shuffled(), [0, 1, 2, 3], 1)
  {
    ShuffledOk();
    hide Config.Ok;
    assert Sizes([0, 1, 2, 3], Shuffled().size) == [1, 1, 1, 1];
    hide Sizes;
    FourOnes();
  }

  lemma {:induction false} ShuffledOk()
    ensures Shuffled().Ok()
  {
    var offset := Shuffled().offset;
    assert offset(0) == 0 && offset(1) == 2 && offset(2) == 1 && offset(3) == 3;
  }

  lemma {:induction false} FourOnes()
    ensures Off([1, 1, 1, 1], 1) == 1 && Total([1, 1, 1, 1]) == 4
  {
    assert Off([1, 1, 1, 1], 2) == 2;
    assert Off([1, 1, 1, 1], 3) == 3;
  }

  // ---------------------------------------------------------------- the bucket

  /** The bucket holds at most the bucket size, or ends with one gradient that is all of it. */
  ghost predicate Bounded(cfg: Config, bucket: seq<int>)
  {
    Elements(cfg, bucket) <= cfg.bucketSize || (bucket != [] && Elements(cfg, bucket) == cfg.numel(bucket[|bucket| - 1]))
  }

  lemma {:induction false} HookBounds(cfg: Config, deferred: bool, b: Book, s: Pipe, e: Event)
    requires Consistent(cfg, deferred, b, s) && Guard(cfg, deferred, b, s, e) && e.Hook?
    ensures Bounded(cfg, After(cfg, deferred, b, s, e).pipe.bucket)
  {
    EmptyKeeps(cfg, deferred, b, s, e.junk);
    hide Inv, Empty, Overwrites, Emptied, CanEmpty;
    var u := Ready(cfg, deferred, b, s, e.p, e.junk);
    GroupSizeOne(u.bucket, e.p, cfg.numel);
    assert Elements(cfg, []) == 0;
  }

  /** Gradients copied into the bucket buffer occupy disjoint ranges inside it. */
  lemma {:induction false} CopiesDisjoint(cfg: Config, b: Book, s: Pipe, i: nat, j: nat)
    requires Inv(cfg, b, s) && i < j < |s.bucket|
    requires s.bucket[i] in s.places && s.bucket[j] in s.places
    requires s.places[s.bucket[i]].InBucket? && s.places[s.bucket[j]].InBucket?
    ensures s.places[s.bucket[i]].at + cfg.numel(s.bucket[i]) <= s.places[s.bucket[j]].at
    ensures s.places[s.bucket[j]].at + cfg.numel(s.bucket[j]) <= cfg.bucketSize
  {
    assert Collected(cfg, b, s, i) && Collected(cfg, b, s, j);
    BlocksDisjoint(Sizes(s.bucket, cfg.numel), i, j);
  }
}
