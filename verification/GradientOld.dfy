/** What the gradient buffer holds where nothing has landed yet: what it held before the pass. Whether the last flush is
    exact can so be read off the buffer the pass starts with. */
module GradientOld {
  import opened Prelude
  import opened Blocks
  import opened ReduceScatter
  import opened SubGroups
  import opened GradientSpec
  import opened GradientRuns
  import opened GradientTheorems
  import opened GradientAdds

  // ------------------------------------------------------------- one completion

  /** Outputs that lie in their own places. */
  ghost predicate InPlaces(cfg: Config, ps: seq<int>, first: nat)
  {
    forall i :: 0 <= i < |ps| ==>
      ps[i] in cfg.params && first + Off(Sizes(ps, cfg.size), i) == cfg.offset(ps[i])
  }

  lemma {:induction false} NotInside(cfg: Config, ps: seq<int>, first: nat, p: int, j: nat, k: nat)
    requires cfg.Ok() && InPlaces(cfg, ps, first) && p in cfg.params && p !in ps && k <= |ps|
    requires cfg.offset(p) <= j < cfg.offset(p) + cfg.size(p)
    ensures !(first <= j < first + Off(Sizes(ps, cfg.size), k))
    decreases k
  {
    hide *;
    SizesLength(ps, cfg.size);
    OffNext(Sizes(ps, cfg.size), k);
    if k > 0 {
      NotInside(cfg, ps, first, p, j, k - 1);
      PlaceApart(cfg, ps, first, p, k - 1);
    }
  }

  lemma {:induction false} SizesLength(ps: seq<int>, size: int -> nat)
    ensures |Sizes(ps, size)| == |ps|
  {
  }

  lemma {:induction false} OffNext(sizes: seq<nat>, k: nat)
    requires k <= |sizes|
    ensures Off(sizes, k) == if k == 0 then 0 else Off(sizes, k - 1) + sizes[k - 1]
  {
  }

  lemma {:induction false} PlaceApart(cfg: Config, ps: seq<int>, first: nat, p: int, i: nat)
    requires cfg.Ok() && InPlaces(cfg, ps, first) && p in cfg.params && p !in ps && i < |ps|
    ensures |Sizes(ps, cfg.size)| == |ps| && Sizes(ps, cfg.size)[i] == cfg.size(ps[i])
    ensures first + Off(Sizes(ps, cfg.size), i) == cfg.offset(ps[i])
    ensures cfg.offset(p) + cfg.size(p) <= cfg.offset(ps[i]) || cfg.offset(ps[i]) + cfg.size(ps[i]) <= cfg.offset(p)
  {
    hide Off;
    var q := ps[i];
    assert q in ps && q in cfg.params;
  }

  lemma {:induction false} PutElsewhere(v: seq<real>, at: nat, x: seq<real>, j: nat)
    requires at + |x| <= |v| && j < |v| && !(at <= j < at + |x|)
    ensures Put(v, at, x)[j] == v[j]
  {
  }

  lemma {:induction false} PutAround(cfg: Config, v: seq<real>, ps: seq<int>, first: nat, x: seq<real>, p: int)
    requires cfg.Ok() && InPlaces(cfg, ps, first) && p in cfg.params && p !in ps && |v| == cfg.total
    requires |x| == GroupSize(ps, cfg.size) && first + |x| <= |v|
    ensures cfg.offset(p) + cfg.Len(p) <= cfg.total && Seg(cfg, Put(v, first, x), p) == Seg(cfg, v, p)
  {
    LenFits(cfg, p);
    GroupSizeIs(ps, cfg.size);
    hide Put, InPlaces, Config.Ok, Config.Len;
    var w := Put(v, first, x);
    forall j | cfg.offset(p) <= j < cfg.offset(p) + cfg.Len(p) ensures w[j] == v[j] {
      NotInside(cfg, ps, first, p, j, |ps|);
      PutElsewhere(v, first, x, j);
    }
  }

  lemma {:induction false} PendingInPlaces(cfg: Config, b: Book, s: Pipe)
    requires Inv(cfg, b, s) && s.pending.Some? && s.pending.value.output.Direct?
    ensures InPlaces(cfg, s.pending.value.params, s.pending.value.output.first)
  {
    InvParams(cfg, b, s);
    var pe := s.pending.value;
    forall i | 0 <= i < |pe.params|
      ensures pe.params[i] in cfg.params && pe.output.first + Off(Sizes(pe.params, cfg.size), i) == cfg.offset(pe.params[i])
    {
      assert SliceInv(cfg, b, s, i);
    }
    hide Inv, CanWait;
  }

  /** p's place will not be written by what is pending before its slices are taken. */
  predicate Awaits(s: Pipe, p: int)
  {
    s.pending.Some? && s.pending.value.output.Direct? ==> p !in s.pending.value.params
  }

  lemma {:induction false} CompleteAround(cfg: Config, b: Book, s: Pipe, junk: Padding, p: int)
    requires Inv(cfg, b, s) && s.pending.Some? && p in cfg.params && Awaits(s, p)
    ensures cfg.Ok() && Shaped(cfg, s) && PendingOk(cfg, s) && cfg.offset(p) + cfg.Len(p) <= cfg.total
    ensures Seg(cfg, Complete(cfg, s, junk).grad, p) == Seg(cfg, s.grad, p)
  {
    InvParams(cfg, b, s);
    LenFits(cfg, p);
    var pe := s.pending.value;
    if pe.flat.None? && pe.output.Direct? {
      PendingInPlaces(cfg, b, s);
      var flat := Complete(cfg, s, junk).pending.value.flat.value;
      assert Complete(cfg, s, junk).grad == Put(s.grad, pe.output.first, flat) by { hide Inv, Put, Seg, InPlaces; }
      hide *;
      ShapedIs(cfg, s);
      FlatLength(cfg, s, junk);
      PutAround(cfg, s.grad, pe.params, pe.output.first, flat, p);
    } else {
      hide Inv, Seg;
    }
  }

  lemma {:induction false} ShapedIs(cfg: Config, s: Pipe)
    requires Shaped(cfg, s)
    ensures |s.grad| == |s.fp32| == cfg.total
  {
  }

  lemma {:induction false} FlatLength(cfg: Config, s: Pipe, junk: Padding)
    requires cfg.Ok() && Shaped(cfg, s) && PendingOk(cfg, s) && s.pending.value.output.Direct?
    ensures s.pending.Some? && Complete(cfg, s, junk).pending.Some? && Complete(cfg, s, junk).pending.value.flat.Some?
    ensures |Complete(cfg, s, junk).pending.value.flat.value| == GroupSize(s.pending.value.params, cfg.size)
    ensures s.pending.value.output.first + GroupSize(s.pending.value.params, cfg.size) <= |s.grad|
  {
    hide GroupSize, Config.Ok, OutputBlocks, Put;
  }

  // ------------------------------------------------------------------- one flush

  lemma {:induction false} CompletedCanLand(cfg: Config, b: Book, s: Pipe, junk: Padding)
    requires Inv(cfg, b, s) && s.pending.Some?
    ensures cfg.Ok() && Shaped(cfg, s) && PendingOk(cfg, s)
    ensures CanLand(cfg, Complete(cfg, s, junk)) && Complete(cfg, s, junk).pending.value.params == s.pending.value.params
  {
    InvParams(cfg, b, s);
    hide BucketInv, PendingInv, LandedInv, PendingOk, OutputBlocks, Distinct, SetOf;
  }

  lemma {:induction false} NotAmong(xs: seq<int>, p: int)
    requires p !in xs
    ensures forall i :: 0 <= i < |xs| ==> xs[i] != p
  {
  }

  /** A flush leaves the places of all other parameters alone. */
  lemma {:induction false} FlushAround(cfg: Config, b: Book, s: Pipe, junk: Padding, p: int)
    requires Inv(cfg, b, s) && p in cfg.params && p !in PendingParams(s)
    ensures CanWait(cfg, s) && cfg.Ok() && |Flush(cfg, s, junk).grad| == |s.grad| == cfg.total
    ensures cfg.offset(p) + cfg.Len(p) <= cfg.total
    ensures Seg(cfg, Flush(cfg, s, junk).grad, p) == Seg(cfg, s.grad, p)
  {
    InvParams(cfg, b, s);
    FlushIs(cfg, b, s, junk);
    LenFits(cfg, p);
    ShapedIs(cfg, s);
    hide *;
    if s.pending.Some? {
      var c, ps := Complete(cfg, s, junk), s.pending.value.params;
      AwaitsIs(s, p);
      CompletedCanLand(cfg, b, s, junk);
      CompleteAround(cfg, b, s, junk, p);
      NotAmong(ps, p);
      LandsAround(cfg, c, 0, |ps|, p);
      LandNothing(cfg, c);
    }
  }

  lemma {:induction false} AwaitsIs(s: Pipe, p: int)
    requires s.pending.Some? && p !in PendingParams(s)
    ensures p !in s.pending.value.params && Awaits(s, p)
  {
  }

  // -------------------------------------------------------------------- a pass

  /** Where nothing has landed and nothing is being written, the buffer is as it was. */
  ghost predicate Untouched(cfg: Config, start: Pipe, b: Book, s: Pipe)
  {
    forall p :: p in cfg.params && p !in b.landed && Awaits(s, p) ==> OldSame(cfg, start, s, p)
  }

  predicate OldSame(cfg: Config, start: Pipe, s: Pipe, p: int)
  {
    && cfg.offset(p) + cfg.Len(p) <= |start.grad| && cfg.offset(p) + cfg.Len(p) <= |s.grad|
    && Seg(cfg, s.grad, p) == Seg(cfg, start.grad, p)
  }

  lemma {:induction false} ReduceAround(cfg: Config, start: Pipe, b: Book, s: Pipe, junk: Padding)
    requires Consistent(cfg, true, b, s) && s.micro == 0 && Untouched(cfg, start, b, s)
    ensures CanEmpty(cfg, true, s) && Untouched(cfg, start, Emptied(true, b, s), Empty(cfg, true, s, junk))
  {
    EmptyKeeps(cfg, true, b, s, junk);
    hide *;
    var c, t := Emptied(true, b, s), Empty(cfg, true, s, junk);
    EmptyIs(cfg, b, s, junk);
    if s.bucket != [] {
      forall p | p in cfg.params && p !in c.landed && Awaits(t, p) ensures OldSame(cfg, start, t, p) {
        TookLess(b, PendingParams(s), p);
        NotPendingAwaits(s, p);
        UntouchedAt(cfg, start, b, s, p);
        FlushAround(cfg, b, s, junk, p);
        SameNext(cfg, start, s, t, p);
      }
      UntouchedIntro(cfg, start, c, t);
    }
  }

  lemma {:induction false} EmptyIs(cfg: Config, b: Book, s: Pipe, junk: Padding)
    requires Consistent(cfg, true, b, s) && s.micro == 0 && CanEmpty(cfg, true, s)
    ensures Inv(cfg, b, s) && CanWait(cfg, s)
    ensures s.bucket == [] ==> Emptied(true, b, s) == b && Empty(cfg, true, s, junk) == s
    ensures s.bucket != [] ==>
              Emptied(true, b, s) == Took(b, PendingParams(s)) && Empty(cfg, true, s, junk).grad == Flush(cfg, s, junk).grad
  {
    if s.bucket != [] {
      FlushShape(cfg, s, junk);
      SubmitShape(cfg, Flush(cfg, s, junk));
    }
    hide Inv, Flush, Submit, Sorted, SetOf, Placed, CanWait, Took;
  }

  lemma {:induction false} TookLess(b: Book, ps: seq<int>, p: int)
    requires p !in Took(b, ps).landed
    ensures p !in b.landed && p !in ps
  {
  }

  lemma {:induction false} NotPendingAwaits(s: Pipe, p: int)
    requires p !in PendingParams(s)
    ensures Awaits(s, p)
  {
  }

  lemma {:induction false} UntouchedAt(cfg: Config, start: Pipe, b: Book, s: Pipe, p: int)
    requires Untouched(cfg, start, b, s) && p in cfg.params && p !in b.landed && Awaits(s, p)
    ensures OldSame(cfg, start, s, p)
  {
    hide OldSame, Awaits;
  }

  lemma {:induction false} UntouchedIntro(cfg: Config, start: Pipe, b: Book, s: Pipe)
    requires forall p :: p in cfg.params && p !in b.landed && Awaits(s, p) ==> OldSame(cfg, start, s, p)
    ensures Untouched(cfg, start, b, s)
  {
    hide OldSame, Awaits;
  }

  lemma {:induction false} SameNext(cfg: Config, start: Pipe, s: Pipe, t: Pipe, p: int)
    requires OldSame(cfg, start, s, p) && |t.grad| == |s.grad|
    requires cfg.offset(p) + cfg.Len(p) <= |s.grad| && Seg(cfg, t.grad, p) == Seg(cfg, s.grad, p)
    ensures OldSame(cfg, start, t, p)
  {
    hide Seg;
  }

  /** Neither adding a gradient nor counting a micro step touches the buffer. */
  lemma {:induction false} SameBuffer(cfg: Config, start: Pipe, b: Book, s: Pipe, c: Book, t: Pipe)
    requires Untouched(cfg, start, b, s) && t.grad == s.grad && t.pending == s.pending && c.landed == b.landed
    ensures Untouched(cfg, start, c, t)
  {
    hide Seg;
  }

  lemma {:induction false} HookUntouched(cfg: Config, start: Pipe, b: Book, s: Pipe, e: Event)
    requires Consistent(cfg, true, b, s) && Guard(cfg, true, b, s, e) && e.Hook? && Untouched(cfg, start, b, s)
    ensures var r := After(cfg, true, b, s, e); Untouched(cfg, start, r.book, r.pipe)
  {
    hide *;
    HookParts(cfg, b, s, e);
    if Overflows(cfg, s, e.p) { ReduceAround(cfg, start, b, s, e.junk); }
    var r := After(cfg, true, b, s, e);
    var c := if Overflows(cfg, s, e.p) then Emptied(true, b, s) else b;
    SameBuffer(cfg, start, c, Ready(cfg, true, b, s, e.p, e.junk), r.book, r.pipe);
  }

  lemma {:induction false} HookParts(cfg: Config, b: Book, s: Pipe, e: Event)
    requires Consistent(cfg, true, b, s) && Guard(cfg, true, b, s, e) && e.Hook?
    ensures s.micro == 0 && CanEmpty(cfg, true, s)
    ensures var r, u := After(cfg, true, b, s, e), Ready(cfg, true, b, s, e.p, e.junk);
            && u == (if Overflows(cfg, s, e.p) then Empty(cfg, true, s, e.junk) else s)
            && r.book.landed == (if Overflows(cfg, s, e.p) then Emptied(true, b, s) else b).landed
            && r.pipe.grad == u.grad && r.pipe.pending == u.pending
  {
    EmptyKeeps(cfg, true, b, s, e.junk);
    hide Inv, Empty, CanEmpty, Overwrites, Overflows, Emptied, Put, Elements;
  }

  lemma {:induction false} EndUntouched(cfg: Config, start: Pipe, b: Book, s: Pipe, e: Event)
    requires Consistent(cfg, true, b, s) && Guard(cfg, true, b, s, e) && e.EndBackward? && Untouched(cfg, start, b, s)
    ensures var r := After(cfg, true, b, s, e); Untouched(cfg, start, r.book, r.pipe)
  {
    hide *;
    EndParts(cfg, b, s, e);
    ReduceAround(cfg, start, b, s, e.junk);
    var r := After(cfg, true, b, s, e);
    SameBuffer(cfg, start, Emptied(true, b, s), Empty(cfg, true, s, e.junk), r.book, r.pipe);
  }

  lemma {:induction false} EndParts(cfg: Config, b: Book, s: Pipe, e: Event)
    requires Consistent(cfg, true, b, s) && Guard(cfg, true, b, s, e) && e.EndBackward?
    ensures s.micro == 0 && CanEmpty(cfg, true, s)
    ensures var r, u := After(cfg, true, b, s, e), Empty(cfg, true, s, e.junk);
            r.book == Emptied(true, b, s) && r.pipe.grad == u.grad && r.pipe.pending == u.pending
  {
    EmptyKeeps(cfg, true, b, s, e.junk);
    hide Inv, Empty, CanEmpty, Emptied;
  }

  lemma {:induction false} FinishUntouched(cfg: Config, start: Pipe, b: Book, s: Pipe, e: Event)
    requires Consistent(cfg, true, b, s) && Guard(cfg, true, b, s, e) && e.Finish? && Untouched(cfg, start, b, s)
    ensures var r := After(cfg, true, b, s, e); Untouched(cfg, start, r.book, r.pipe)
  {
    hide *;
    FinishParts(cfg, b, s, e);
    var t := Complete(cfg, s, e.junk);
    forall p | p in cfg.params && p !in b.landed && Awaits(t, p) ensures OldSame(cfg, start, t, p) {
      SameAwaits(s, t, p);
      UntouchedAt(cfg, start, b, s, p);
      CompleteAround(cfg, b, s, e.junk, p);
      SameNext(cfg, start, s, t, p);
    }
    UntouchedIntro(cfg, start, b, t);
  }

  lemma {:induction false} SameAwaits(s: Pipe, t: Pipe, p: int)
    requires s.pending.Some? && t.pending.Some?
    requires t.pending.value.params == s.pending.value.params && t.pending.value.output == s.pending.value.output
    ensures Awaits(s, p) <==> Awaits(t, p)
  {
  }

  lemma {:induction false} FinishParts(cfg: Config, b: Book, s: Pipe, e: Event)
    requires Consistent(cfg, true, b, s) && Guard(cfg, true, b, s, e) && e.Finish?
    ensures Inv(cfg, b, s) && s.pending.Some? && cfg.Ok() && Shaped(cfg, s) && PendingOk(cfg, s)
    ensures After(cfg, true, b, s, e) == Progress(b, Complete(cfg, s, e.junk))
    ensures var t := Complete(cfg, s, e.junk);
            && t.pending.Some? && t.pending.value.params == s.pending.value.params
            && t.pending.value.output == s.pending.value.output && |t.grad| == |s.grad| == cfg.total
  {
    InvParams(cfg, b, s);
    hide Inv, PendingOk, OutputBlocks, Put, Config.Ok;
  }

  lemma {:induction false} TakeUntouched(cfg: Config, start: Pipe, b: Book, s: Pipe, e: Event)
    requires Consistent(cfg, true, b, s) && Guard(cfg, true, b, s, e) && e.Take? && Untouched(cfg, start, b, s)
    ensures var r := After(cfg, true, b, s, e); Untouched(cfg, start, r.book, r.pipe)
  {
    hide *;
    TakeParts(cfg, b, s, e);
    var r := After(cfg, true, b, s, e);
    forall p | p in cfg.params && p !in r.book.landed && Awaits(r.pipe, p) ensures OldSame(cfg, start, r.pipe, p) {
      TookLess(b, PendingParams(s), p);
      NotPendingAwaits(s, p);
      UntouchedAt(cfg, start, b, s, p);
      FlushAround(cfg, b, s, e.junk, p);
      SameNext(cfg, start, s, r.pipe, p);
    }
    UntouchedIntro(cfg, start, r.book, r.pipe);
  }

  lemma {:induction false} TakeParts(cfg: Config, b: Book, s: Pipe, e: Event)
    requires Consistent(cfg, true, b, s) && Guard(cfg, true, b, s, e) && e.Take?
    ensures Inv(cfg, b, s) && CanWait(cfg, s)
    ensures After(cfg, true, b, s, e) == Progress(Took(b, PendingParams(s)), Flush(cfg, s, e.junk))
  {
    InvParams(cfg, b, s);
    hide Inv, CanWait, AllClean;
  }

  lemma {:induction false} UntouchedYet(cfg: Config, start: Pipe)
    requires Started(cfg, start)
    ensures Pass(cfg, true, start, []).Some?
    ensures Untouched(cfg, start, Pass(cfg, true, start, []).value.book, Pass(cfg, true, start, []).value.pipe)
  {
    forall p | p in cfg.params ensures OldSame(cfg, start, start, p) { LenFits(cfg, p); }
    hide OldSame, Awaits, Config.Ok;
  }

  lemma {:induction false} PassUntouched(cfg: Config, start: Pipe, es: seq<Event>)
    requires Started(cfg, start) && Pass(cfg, true, start, es).Some?
    ensures var r := Pass(cfg, true, start, es).value; Untouched(cfg, start, r.book, r.pipe)
    decreases |es|
  {
    hide *;
    if es == [] {
      UntouchedYet(cfg, start);
    } else {
      var front, e := es[..|es| - 1], es[|es| - 1];
      PassTo(cfg, true, start, es);
      PassUntouched(cfg, start, front);
      var r := Pass(cfg, true, start, front).value;
      match e
      case Hook(_, _, _) => HookUntouched(cfg, start, r.book, r.pipe, e);
      case Finish(_) => FinishUntouched(cfg, start, r.book, r.pipe, e);
      case EndBackward(_) => EndUntouched(cfg, start, r.book, r.pipe, e);
      case Take(_) => TakeUntouched(cfg, start, r.book, r.pipe, e);
    }
  }

  // ---------------------------------------------------------------- the last flush

  /** The buffer held zeros at p's place before the pass. */
  ghost predicate ZeroAt(cfg: Config, start: Pipe, p: int)
  {
    cfg.offset(p) + cfg.Len(p) <= |start.grad| && Seg(cfg, start.grad, p) == seq(cfg.Len(p), _ => 0.0)
  }

  /** The pending slices are reduced in place or land on zeros. */
  ghost predicate StartsClean(cfg: Config, start: Pipe, pe: Pending)
  {
    pe.output.Direct? || forall i :: 0 <= i < |pe.params| ==> ZeroAt(cfg, start, pe.params[i])
  }

  lemma {:induction false} CleanIs(cfg: Config, start: Pipe, b: Book, s: Pipe, i: nat)
    requires Inv(cfg, b, s) && s.pending.Some? && i < |s.pending.value.params| && Untouched(cfg, start, b, s)
    requires |start.grad| == cfg.total
    ensures var p := s.pending.value.params[i];
            && cfg.offset(p) + cfg.Len(p) <= |s.grad|
            && (Clean(cfg, s.grad, s, i) <==> s.micro == 0 || s.pending.value.output.Direct? || ZeroAt(cfg, start, p))
  {
    UncleanParts(cfg, b, s, i);
    var p := s.pending.value.params[i];
    NotLanded(cfg, b, s, i);
    assert SliceInv(cfg, b, s, i);
    if s.pending.value.output.Fresh? {
      assert Awaits(s, p);
      UntouchedAt(cfg, start, b, s, p);
    }
    hide Inv, Seg, NothingHere, PendingOk;
  }

  lemma {:induction false} NotLanded(cfg: Config, b: Book, s: Pipe, i: nat)
    requires Inv(cfg, b, s) && s.pending.Some? && i < |s.pending.value.params|
    ensures s.pending.value.params[i] !in b.landed
  {
    assert s.pending.value.params[i] in SetOf(PendingParams(s));
  }

  /** In every pass, whether a flush adds to old values is decided by where its bucket is reduced and by the buffer the
      pass starts with: from the end of backward on, the bucket must be reduced in place or land on zeros. */
  lemma {:induction false} OldValuesDecide(cfg: Config, start: Pipe, es: seq<Event>)
    requires Started(cfg, start) && Pass(cfg, true, start, es).Some?
    requires Pass(cfg, true, start, es).value.pipe.pending.Some?
    ensures var s := Pass(cfg, true, start, es).value.pipe;
            AllClean(cfg, s) <==> s.micro == 0 || StartsClean(cfg, start, s.pending.value)
  {
    PassUntouched(cfg, start, es);
    var b, s := Pass(cfg, true, start, es).value.book, Pass(cfg, true, start, es).value.pipe;
    assert Inv(cfg, b, s);
    hide Pass, Inv, Untouched, Clean, ZeroAt, Config.Ok, Config.Ascends, Consistent, Seg, Config.Len;
    forall i | 0 <= i < |s.pending.value.params|
      ensures var p := s.pending.value.params[i];
              && cfg.offset(p) + cfg.Len(p) <= |s.grad|
              && (Clean(cfg, s.grad, s, i) <==> s.micro == 0 || s.pending.value.output.Direct? || ZeroAt(cfg, start, p))
    {
      CleanIs(cfg, start, b, s, i);
    }
  }

  /** So the last flush of a pass is exact if and only if its bucket is reduced in place or lands on zeros. */
  lemma {:induction false} LastFlushFromStart(cfg: Config, start: Pipe, es: seq<Event>, junk: Padding)
    requires Started(cfg, start) && Pass(cfg, true, start, es).Some?
    requires Pass(cfg, true, start, es).value.pipe.pending.Some? && Pass(cfg, true, start, es).value.pipe.micro > 0
    ensures var b, s := Pass(cfg, true, start, es).value.book, Pass(cfg, true, start, es).value.pipe;
            && CanWait(cfg, s)
            && ((forall i :: 0 <= i < |s.pending.value.params| ==>
                   TakenRight(cfg, b, Flush(cfg, s, junk), s.pending.value.params[i]))
                <==> StartsClean(cfg, start, s.pending.value))
  {
    hide *;
    LastFlushExact(cfg, start, es, junk);
    OldValuesDecide(cfg, start, es);
  }

  /** A pass that starts with a buffer of zeros, as the first one does, never adds to old values. */
  lemma {:induction false} ZerosAllowed(cfg: Config, start: Pipe, es: seq<Event>)
    requires Started(cfg, start) && Pass(cfg, true, start, es).Some? && start.grad == seq(cfg.total, _ => 0.0)
    ensures AllClean(cfg, Pass(cfg, true, start, es).value.pipe)
  {
    var b, s := Pass(cfg, true, start, es).value.book, Pass(cfg, true, start, es).value.pipe;
    if s.pending.Some? {
      assert Inv(cfg, b, s);
      InvParams(cfg, b, s);
      forall i | 0 <= i < |s.pending.value.params| ensures ZeroAt(cfg, start, s.pending.value.params[i]) {
        LenFits(cfg, s.pending.value.params[i]);
      }
      OldValuesDecide(cfg, start, es);
    }
    hide Pass, Inv, ZeroAt, Clean, Started;
  }
}
