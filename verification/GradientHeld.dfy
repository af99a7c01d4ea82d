/** What the flat fp16 gradient buffer holds where slices have been taken: what was copied to the fp32 buffer. That is what
    the next pass finds there. */
module GradientHeld {
  import opened Prelude
  import opened Blocks
  import opened ReduceScatter
  import opened SubGroups
  import opened GradientSpec
  import opened GradientRuns
  import opened GradientTheorems
  import opened GradientAdds
  import opened GradientOld

  ghost predicate HeldAt(cfg: Config, s: Pipe, p: int)
  {
    && cfg.offset(p) + cfg.Len(p) <= |s.grad| && cfg.offset(p) + cfg.Len(p) <= |s.fp32|
    && Seg(cfg, s.grad, p) == Seg(cfg, s.fp32, p)
  }

  /** Every landed slice is in both buffers. */
  ghost predicate Held(cfg: Config, b: Book, s: Pipe)
  {
    forall p :: p in b.landed ==> p in cfg.params && HeldAt(cfg, s, p)
  }

  // ------------------------------------------------------------------- one slice

  lemma {:induction false} LandOneHolds(cfg: Config, s: Pipe, n: nat)
    requires CanLand(cfg, s) && n < |s.pending.value.params|
    ensures HeldAt(cfg, LandOne(cfg, s, n), s.pending.value.params[n])
  {
    var p := s.pending.value.params[n];
    SegFits(cfg, s, p);
    if NothingHere(cfg, p) {
      NothingHereIsEmpty(cfg, p);
      assert Seg(cfg, s.grad, p) == [] == Seg(cfg, s.fp32, p);
    } else {
      var grad := LandedGrad(cfg, s, n);
      PutReads(s.fp32, cfg.offset(p), Seg(cfg, grad, p), cfg.offset(p), cfg.Len(p));
    }
    hide CanLand, LandedGrad, Put, NothingHere, PendingOk, Config.Ok, Config.Len;
  }

  lemma {:induction false} HeldSame(cfg: Config, s: Pipe, t: Pipe, p: int)
    requires HeldAt(cfg, s, p) && |t.grad| == |s.grad| && |t.fp32| == |s.fp32|
    requires cfg.offset(p) + cfg.Len(p) <= |s.grad| && cfg.offset(p) + cfg.Len(p) <= |s.fp32|
    requires Seg(cfg, t.grad, p) == Seg(cfg, s.grad, p) && Seg(cfg, t.fp32, p) == Seg(cfg, s.fp32, p)
    ensures HeldAt(cfg, t, p)
  {
    hide Seg;
  }

  /** After all slices are taken the i-th one is still in both buffers. */
  lemma {:induction false} LandHolds(cfg: Config, s: Pipe, i: nat)
    requires CanLand(cfg, s) && i < |s.pending.value.params|
    ensures HeldAt(cfg, Land(cfg, s, |s.pending.value.params|), s.pending.value.params[i])
  {
    hide *;
    CanLandParts(cfg, s);
    var ps := s.pending.value.params;
    DistinctParams(cfg, s, i);
    LandNext(cfg, s, i);
    LandOneHolds(cfg, Land(cfg, s, i), i);
    LandsAround(cfg, s, i + 1, |ps|, ps[i]);
    HeldSame(cfg, Land(cfg, s, i + 1), Land(cfg, s, |ps|), ps[i]);
  }

  lemma {:induction false} DistinctParams(cfg: Config, s: Pipe, i: nat)
    requires CanLand(cfg, s) && i < |s.pending.value.params|
    ensures forall j :: 0 <= j < |s.pending.value.params| && j != i ==> s.pending.value.params[j] != s.pending.value.params[i]
  {
    OthersDiffer(s.pending.value.params, i);
    hide PendingOk, Config.Ok;
  }

  // --------------------------------------------------------------------- one flush

  lemma {:induction false} FlushGives(cfg: Config, b: Book, s: Pipe, junk: Padding, i: nat)
    requires Inv(cfg, b, s) && s.pending.Some? && i < |s.pending.value.params|
    ensures CanWait(cfg, s) && HeldAt(cfg, Flush(cfg, s, junk), s.pending.value.params[i])
  {
    InvParams(cfg, b, s);
    FlushIs(cfg, b, s, junk);
    CompletedCanLand(cfg, b, s, junk);
    hide *;
    LandHolds(cfg, Complete(cfg, s, junk), i);
    SameHeld(cfg, Land(cfg, Complete(cfg, s, junk), |s.pending.value.params|), Flush(cfg, s, junk), s.pending.value.params[i]);
  }

  lemma {:induction false} SameHeld(cfg: Config, s: Pipe, t: Pipe, p: int)
    requires HeldAt(cfg, s, p) && t.grad == s.grad && t.fp32 == s.fp32
    ensures HeldAt(cfg, t, p)
  {
    hide Seg;
  }

  lemma {:induction false} FlushKeepsFp32(cfg: Config, b: Book, s: Pipe, junk: Padding, p: int)
    requires Inv(cfg, b, s) && p in cfg.params && p !in PendingParams(s)
    ensures CanWait(cfg, s) && |Flush(cfg, s, junk).fp32| == |s.fp32| == cfg.total
    ensures cfg.offset(p) + cfg.Len(p) <= cfg.total
    ensures Seg(cfg, Flush(cfg, s, junk).fp32, p) == Seg(cfg, s.fp32, p)
  {
    InvParams(cfg, b, s);
    FlushIs(cfg, b, s, junk);
    LenFits(cfg, p);
    ShapedIs(cfg, s);
    hide *;
    if s.pending.Some? {
      var c, ps := Complete(cfg, s, junk), s.pending.value.params;
      AwaitsIs(s, p);
      CompletedCanLand(cfg, b, s, junk);
      CompletedFp32(cfg, s, junk);
      NotAmong(ps, p);
      LandsAround(cfg, c, 0, |ps|, p);
      LandNothing(cfg, c);
    }
  }

  lemma {:induction false} CompletedFp32(cfg: Config, s: Pipe, junk: Padding)
    requires cfg.Ok() && Shaped(cfg, s) && PendingOk(cfg, s)
    ensures Complete(cfg, s, junk).fp32 == s.fp32
  {
    hide OutputBlocks, Put, Config.Ok;
  }

  lemma {:induction false} FlushHolds(cfg: Config, b: Book, s: Pipe, junk: Padding)
    requires Inv(cfg, b, s) && Held(cfg, b, s)
    ensures CanWait(cfg, s) && Held(cfg, Took(b, PendingParams(s)), Flush(cfg, s, junk))
  {
    InvParams(cfg, b, s);
    hide *;
    var c, t := Took(b, PendingParams(s)), Flush(cfg, s, junk);
    forall p | p in c.landed ensures p in cfg.params && HeldAt(cfg, t, p) {
      if p in PendingParams(s) {
        var i := PendingAt(s, p);
        FlushGives(cfg, b, s, junk, i);
      } else {
        TookOnly(b, PendingParams(s), p);
        HeldPart(cfg, b, s, p);
        FlushAround(cfg, b, s, junk, p);
        FlushKeepsFp32(cfg, b, s, junk, p);
        HeldSame(cfg, s, t, p);
      }
    }
    HeldIntro(cfg, c, t);
  }

  lemma {:induction false} PendingAt(s: Pipe, p: int) returns (i: nat)
    requires p in PendingParams(s)
    ensures s.pending.Some? && i < |s.pending.value.params| && s.pending.value.params[i] == p
  {
    i :| 0 <= i < |s.pending.value.params| && s.pending.value.params[i] == p;
  }

  lemma {:induction false} TookOnly(b: Book, ps: seq<int>, p: int)
    requires p in Took(b, ps).landed && p !in ps
    ensures p in b.landed
  {
  }

  lemma {:induction false} HeldPart(cfg: Config, b: Book, s: Pipe, p: int)
    requires Held(cfg, b, s) && p in b.landed
    ensures p in cfg.params && HeldAt(cfg, s, p)
  {
    hide HeldAt;
  }

  lemma {:induction false} HeldIntro(cfg: Config, b: Book, s: Pipe)
    requires forall p :: p in b.landed ==> p in cfg.params && HeldAt(cfg, s, p)
    ensures Held(cfg, b, s)
  {
    hide HeldAt;
  }

  // ----------------------------------------------------------------------- a pass

  lemma {:induction false} SameBuffers(cfg: Config, b: Book, s: Pipe, c: Book, t: Pipe)
    requires Held(cfg, b, s) && t.grad == s.grad && t.fp32 == s.fp32 && c.landed == b.landed
    ensures Held(cfg, c, t)
  {
    hide Seg;
  }

  lemma {:induction false} ReduceHolds(cfg: Config, b: Book, s: Pipe, junk: Padding)
    requires Consistent(cfg, true, b, s) && s.micro == 0 && Held(cfg, b, s)
    ensures CanEmpty(cfg, true, s) && Held(cfg, Emptied(true, b, s), Empty(cfg, true, s, junk))
  {
    EmptyKeeps(cfg, true, b, s, junk);
    hide *;
    GradientOld.EmptyIs(cfg, b, s, junk);
    if s.bucket != [] {
      FlushHolds(cfg, b, s, junk);
      EmptyFp32(cfg, s, junk);
      SameBuffers(cfg, Took(b, PendingParams(s)), Flush(cfg, s, junk), Emptied(true, b, s), Empty(cfg, true, s, junk));
    }
  }

  lemma {:induction false} EmptyFp32(cfg: Config, s: Pipe, junk: Padding)
    requires CanEmpty(cfg, true, s) && s.bucket != []
    ensures CanWait(cfg, s) && Empty(cfg, true, s, junk).fp32 == Flush(cfg, s, junk).fp32
  {
    FlushShape(cfg, s, junk);
    SubmitShape(cfg, Flush(cfg, s, junk));
    hide Flush, Submit, Sorted, SetOf, Placed, CanWait;
  }

  lemma {:induction false} HookFp32(cfg: Config, b: Book, s: Pipe, e: Event)
    requires Consistent(cfg, true, b, s) && Guard(cfg, true, b, s, e) && (e.Hook? || e.EndBackward?)
    ensures s.micro == 0
    ensures CanEmpty(cfg, true, s)
    ensures var r := After(cfg, true, b, s, e).pipe;
            r.fp32 == (if e.EndBackward? || Overflows(cfg, s, e.p) then Empty(cfg, true, s, e.junk) else s).fp32
  {
    EmptyKeeps(cfg, true, b, s, e.junk);
    hide Inv, Empty, CanEmpty, Overwrites, Overflows, Emptied, Put, Elements;
  }

  lemma {:induction false} EventHolds(cfg: Config, b: Book, s: Pipe, e: Event)
    requires Consistent(cfg, true, b, s) && Guard(cfg, true, b, s, e) && Held(cfg, b, s)
    ensures var r := After(cfg, true, b, s, e); Held(cfg, r.book, r.pipe)
  {
    hide *;
    var r := After(cfg, true, b, s, e);
    match e
    case Hook(_, _, _) =>
      HookParts(cfg, b, s, e);
      HookFp32(cfg, b, s, e);
      if Overflows(cfg, s, e.p) {
        ReduceHolds(cfg, b, s, e.junk);
        SameBuffers(cfg, Emptied(true, b, s), Empty(cfg, true, s, e.junk), r.book, r.pipe);
      } else {
        SameBuffers(cfg, b, s, r.book, r.pipe);
      }
    case EndBackward(_) =>
      EndParts(cfg, b, s, e);
      HookFp32(cfg, b, s, e);
      ReduceHolds(cfg, b, s, e.junk);
      SameBuffers(cfg, Emptied(true, b, s), Empty(cfg, true, s, e.junk), r.book, r.pipe);
    case Finish(_) => FinishHolds(cfg, b, s, e);
    case Take(_) =>
      TakeParts(cfg, b, s, e);
      FlushHolds(cfg, b, s, e.junk);
  }

  lemma {:induction false} FinishHolds(cfg: Config, b: Book, s: Pipe, e: Event)
    requires Consistent(cfg, true, b, s) && Guard(cfg, true, b, s, e) && e.Finish? && Held(cfg, b, s)
    ensures var r := After(cfg, true, b, s, e); Held(cfg, r.book, r.pipe)
  {
    hide *;
    FinishParts(cfg, b, s, e);
    var t := Complete(cfg, s, e.junk);
    CompletedFp32(cfg, s, e.junk);
    forall p | p in b.landed ensures p in cfg.params && HeldAt(cfg, t, p) {
      HeldPart(cfg, b, s, p);
      LandedNotPending(cfg, b, s, p);
      CompleteAround(cfg, b, s, e.junk, p);
      HeldLengths(cfg, s, p);
      HeldSame(cfg, s, t, p);
    }
    HeldIntro(cfg, b, t);
  }

  lemma {:induction false} HeldLengths(cfg: Config, s: Pipe, p: int)
    requires HeldAt(cfg, s, p)
    ensures cfg.offset(p) + cfg.Len(p) <= |s.grad| && cfg.offset(p) + cfg.Len(p) <= |s.fp32|
  {
  }

  lemma {:induction false} LandedNotPending(cfg: Config, b: Book, s: Pipe, p: int)
    requires Inv(cfg, b, s) && p in b.landed
    ensures Awaits(s, p)
  {
    assert SetOf(PendingParams(s)) !! b.landed;
    if s.pending.Some? {
      var ps := s.pending.value.params;
      assert forall i :: 0 <= i < |ps| ==> ps[i] in SetOf(PendingParams(s));
    }
    hide Inv;
  }

  lemma {:induction false} PassHolds(cfg: Config, start: Pipe, es: seq<Event>)
    requires Started(cfg, start) && Pass(cfg, true, start, es).Some?
    ensures var r := Pass(cfg, true, start, es).value; Held(cfg, r.book, r.pipe)
    decreases |es|
  {
    hide *;
    if es == [] {
      NothingHeld(cfg, start);
    } else {
      var front, e := es[..|es| - 1], es[|es| - 1];
      PassTo(cfg, true, start, es);
      PassHolds(cfg, start, front);
      EventHolds(cfg, Pass(cfg, true, start, front).value.book, Pass(cfg, true, start, front).value.pipe, e);
    }
  }

  lemma {:induction false} NothingHeld(cfg: Config, start: Pipe)
    requires Started(cfg, start)
    ensures Pass(cfg, true, start, []).Some?
    ensures Held(cfg, Pass(cfg, true, start, []).value.book, Pass(cfg, true, start, []).value.pipe)
  {
    hide HeldAt;
  }

  /** After a finished pass the flat fp16 buffer holds, at the place of every parameter that fired, the slice that went into
      the fp32 buffer, and elsewhere what it held before: this is the buffer the next pass starts with. */
  lemma {:induction false} PassLeaves(cfg: Config, start: Pipe, es: seq<Event>, p: int)
    requires Finished(cfg, true, start, es) && p in cfg.params
    ensures var b, s := Pass(cfg, true, start, es).value.book, Pass(cfg, true, start, es).value.pipe;
            && BookOk(cfg, b) && cfg.offset(p) + cfg.Len(p) <= |s.grad| == |start.grad|
            && Seg(cfg, s.grad, p) == if p in b.grads then Expected(cfg, b, p) else Seg(cfg, start.grad, p)
  {
    PassExact(cfg, true, start, es);
    PassHolds(cfg, start, es);
    PassUntouched(cfg, start, es);
    var b, s := Pass(cfg, true, start, es).value.book, Pass(cfg, true, start, es).value.pipe;
    LenFits(cfg, p);
    assert s.pending.None? && Shaped(cfg, start) && Shaped(cfg, s);
    hide Pass, Finished, Started, GradientTheorems.Reduced, Seg, Expected, Config.Ok, Config.Len;
    if p in b.grads {
      assert p in b.landed && HeldAt(cfg, s, p) && LandedAt(cfg, b, s, p);
    } else {
      assert Awaits(s, p) && OldSame(cfg, start, s, p);
    }
  }
}
