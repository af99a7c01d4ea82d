/** When the last flush of a pass adds to old values: for a pass, and for a model. */
module GradientAdds {
  import opened Prelude
  import opened Blocks
  import opened ReduceScatter
  import opened SubGroups
  import opened GradientSpec
  import opened GradientRuns
  import opened GradientTheorems

  // -------------------------------------------------------------------- a flush

  /** What can be taken from a completed reduce-scatter. */
  ghost predicate CanLand(cfg: Config, s: Pipe)
  {
    && cfg.Ok() && Shaped(cfg, s) && PendingOk(cfg, s) && s.pending.value.flat.Some?
    && Distinct(s.pending.value.params)
    && forall i :: 0 <= i < |s.pending.value.params| ==> s.pending.value.params[i] in cfg.params
  }

  /** Taking one slice touches no other parameter's place. */
  lemma {:induction false} LandsElsewhere(cfg: Config, s: Pipe, n: nat, p: int)
    requires CanLand(cfg, s) && n < |s.pending.value.params| && p in cfg.params && p != s.pending.value.params[n]
    ensures cfg.offset(p) + cfg.Len(p) <= cfg.total
    ensures var t := LandOne(cfg, s, n);
            Seg(cfg, t.grad, p) == Seg(cfg, s.grad, p) && Seg(cfg, t.fp32, p) == Seg(cfg, s.fp32, p)
  {
    var q := s.pending.value.params[n];
    LenFits(cfg, p);
    LenFits(cfg, q);
    Apart(cfg, p, q);
    if !NothingHere(cfg, q) {
      var grad := LandedGrad(cfg, s, n);
      PutReads(s.fp32, cfg.offset(q), Seg(cfg, grad, q), cfg.offset(p), cfg.Len(p));
      LandedElsewhere(cfg, s, n, p);
    }
    hide LandedGrad, Part, PendingOk, Put, NothingHere, Config.Ok, Distinct;
  }

  lemma {:induction false} LandedElsewhere(cfg: Config, s: Pipe, n: nat, p: int)
    requires CanLand(cfg, s) && n < |s.pending.value.params| && p in cfg.params && p != s.pending.value.params[n]
    requires var q := s.pending.value.params[n];
             cfg.offset(p) + cfg.Len(p) <= cfg.total && cfg.offset(q) + cfg.Len(q) <= cfg.total
    requires var q := s.pending.value.params[n];
             cfg.offset(p) + cfg.Len(p) <= cfg.offset(q) || cfg.offset(q) + cfg.Len(q) <= cfg.offset(p)
    ensures Seg(cfg, LandedGrad(cfg, s, n), p) == Seg(cfg, s.grad, p)
  {
    var q := s.pending.value.params[n];
    PutReads(s.grad, cfg.offset(q), Part(cfg, s, n), cfg.offset(p), cfg.Len(p));
    PutReads(s.grad, cfg.offset(q), Plus(Seg(cfg, s.grad, q), Part(cfg, s, n)), cfg.offset(p), cfg.Len(p));
    hide Part, PendingOk, Put, Plus, SamePlace, Config.Ok, Distinct;
  }

  lemma {:induction false} CanLandOn(cfg: Config, s: Pipe, n: nat)
    requires CanLand(cfg, s) && n <= |s.pending.value.params|
    ensures Land(cfg, s, n).pending == s.pending && CanLand(cfg, Land(cfg, s, n))
    ensures Land(cfg, s, n).micro == s.micro
  {
    var t := Land(cfg, s, n);
    assert |t.grad| == |s.grad|;
    hide Land, Distinct, Config.Ok;
  }

  lemma {:induction false} LandNothing(cfg: Config, s: Pipe)
    requires CanLand(cfg, s)
    ensures Land(cfg, s, 0) == s
  {
    hide PendingOk, Config.Ok;
  }

  lemma {:induction false} LandNext(cfg: Config, s: Pipe, n: nat)
    requires CanLand(cfg, s) && n < |s.pending.value.params|
    ensures CanLand(cfg, Land(cfg, s, n)) && Land(cfg, s, n).pending == s.pending
    ensures Land(cfg, s, n + 1) == LandOne(cfg, Land(cfg, s, n), n)
  {
    CanLandOn(cfg, s, n);
    hide CanLand, LandOne;
  }

  lemma {:induction false} CanLandParts(cfg: Config, s: Pipe)
    requires CanLand(cfg, s)
    ensures cfg.Ok() && Shaped(cfg, s) && PendingOk(cfg, s) && s.pending.Some? && s.pending.value.flat.Some?
    ensures forall i :: 0 <= i < |s.pending.value.params| ==> s.pending.value.params[i] in cfg.params
  {
  }

  lemma {:induction false} SegFits(cfg: Config, s: Pipe, p: int)
    requires CanLand(cfg, s) && p in cfg.params
    ensures cfg.offset(p) + cfg.Len(p) <= cfg.total == |s.grad| == |s.fp32|
  {
    LenFits(cfg, p);
  }

  /** Taking slices from the k-th up to the n-th leaves p alone if p is not among them. */
  lemma {:induction false} LandsAround(cfg: Config, s: Pipe, k: nat, n: nat, p: int)
    requires CanLand(cfg, s) && k <= n <= |s.pending.value.params| && p in cfg.params
    requires forall i :: k <= i < n ==> s.pending.value.params[i] != p
    ensures CanLand(cfg, Land(cfg, s, n)) && CanLand(cfg, Land(cfg, s, k))
    ensures cfg.offset(p) + cfg.Len(p) <= cfg.total
    ensures |Land(cfg, s, n).grad| == |Land(cfg, s, n).fp32| == |Land(cfg, s, k).grad| == |Land(cfg, s, k).fp32| == cfg.total
    ensures Seg(cfg, Land(cfg, s, n).grad, p) == Seg(cfg, Land(cfg, s, k).grad, p)
    ensures Seg(cfg, Land(cfg, s, n).fp32, p) == Seg(cfg, Land(cfg, s, k).fp32, p)
    decreases n
  {
    hide *;
    CanLandParts(cfg, s);
    CanLandOn(cfg, s, n);
    CanLandOn(cfg, s, k);
    SegFits(cfg, Land(cfg, s, n), p);
    SegFits(cfg, Land(cfg, s, k), p);
    if k < n {
      LandsAround(cfg, s, k, n - 1, p);
      LandNext(cfg, s, n - 1);
      LandsElsewhere(cfg, Land(cfg, s, n - 1), n - 1, p);
    }
  }

  lemma {:induction false} OthersDiffer(xs: seq<int>, i: nat)
    requires Distinct(xs) && i < |xs|
    ensures forall j :: 0 <= j < |xs| && j != i ==> xs[j] != xs[i]
  {
  }

  /** In new storage, past the first micro step, the i-th slice ends up right if and only if its place held zeros. */
  lemma {:induction false} TakenExactly(cfg: Config, b: Book, s: Pipe, i: nat)
    requires BookOk(cfg, b) && CanLand(cfg, s) && s.pending.value.output == Fresh && i < |s.pending.value.params|
    requires SliceInv(cfg, b, s, i) && !NothingHere(cfg, s.pending.value.params[i])
    ensures var p := s.pending.value.params[i];
            && cfg.offset(p) + cfg.Len(p) <= cfg.total
            && (Seg(cfg, Land(cfg, s, |s.pending.value.params|).fp32, p) == Expected(cfg, b, p) <==> Clean(cfg, s.grad, s, i))
  {
    var ps := s.pending.value.params;
    var p := ps[i];
    var before := Land(cfg, s, i);
    OthersDiffer(ps, i);
    LandNothing(cfg, s);
    LandNext(cfg, s, i);
    CanLandOn(cfg, s, i);
    LandsAround(cfg, s, 0, i, p);
    LandsAround(cfg, s, i + 1, |ps|, p);
    SliceFrame(cfg, b, s, b, before, i);
    hide LandOne, Land, Seg, Expected, NothingHere;
    TakingIsExact(cfg, b, before, i);
    CleanSame(cfg, s, before, i);
  }

  lemma {:induction false} CleanSame(cfg: Config, s: Pipe, t: Pipe, i: nat)
    requires s.pending.Some? && t.pending == s.pending && t.micro == s.micro && i < |s.pending.value.params|
    requires var p := s.pending.value.params[i];
             && cfg.offset(p) + cfg.Len(p) <= |s.grad| && |t.grad| == |s.grad| && Seg(cfg, t.grad, p) == Seg(cfg, s.grad, p)
    ensures Clean(cfg, t.grad, t, i) <==> Clean(cfg, s.grad, s, i)
  {
    hide Seg;
  }

  /** p's slice is where it belongs in the fp32 buffer. */
  ghost predicate TakenRight(cfg: Config, b: Book, s: Pipe, p: int)
  {
    && cfg.world > 0 && p in b.grads && |b.grads[p]| == cfg.numel(p)
    && cfg.offset(p) + cfg.Len(p) <= |s.fp32| && Seg(cfg, s.fp32, p) == Expected(cfg, b, p)
  }

  lemma {:induction false} CleanFlushRight(cfg: Config, b: Book, s: Pipe, junk: Padding, i: nat)
    requires Inv(cfg, b, s) && s.pending.Some? && AllClean(cfg, s) && i < |s.pending.value.params|
    ensures CanWait(cfg, s) && TakenRight(cfg, b, Flush(cfg, s, junk), s.pending.value.params[i])
  {
    var p := s.pending.value.params[i];
    FlushKeeps(cfg, b, s, junk);
    TookHas(cfg, b, s, i);
    var c, t := Took(b, PendingParams(s)), Flush(cfg, s, junk);
    assert LandedAt(cfg, c, t, p);
    SameGrads(cfg, b, PendingParams(s), p);
    hide Flush, Inv, Expected, Seg, Took;
  }

  lemma {:induction false} TookHas(cfg: Config, b: Book, s: Pipe, i: nat)
    requires Inv(cfg, b, s) && s.pending.Some? && i < |s.pending.value.params|
    ensures s.pending.value.params[i] in Took(b, PendingParams(s)).landed
  {
  }

  lemma {:induction false} SameGrads(cfg: Config, b: Book, ps: seq<int>, p: int)
    requires cfg.world > 0 && p in b.grads && |b.grads[p]| == cfg.numel(p)
    ensures p in Took(b, ps).grads && |Took(b, ps).grads[p]| == cfg.numel(p)
    ensures Expected(cfg, Took(b, ps), p) == Expected(cfg, b, p)
  {
  }

  /** A slice that is not clean: its output is new storage, the micro step is counted, and something is there. */
  lemma {:induction false} UncleanParts(cfg: Config, b: Book, s: Pipe, i: nat)
    requires Inv(cfg, b, s) && s.pending.Some? && i < |s.pending.value.params|
    ensures var p := s.pending.value.params[i];
            && p in cfg.params && cfg.offset(p) + cfg.Len(p) <= |s.grad|
            && (!Clean(cfg, s.grad, s, i) ==>
                  s.micro > 0 && s.pending.value.output == Fresh && cfg.Len(p) > 0 && !NothingHere(cfg, p))
  {
    InvParams(cfg, b, s);
    var p := s.pending.value.params[i];
    LenFits(cfg, p);
    assert SliceInv(cfg, b, s, i);
    if NothingHere(cfg, p) { NothingHereIsEmpty(cfg, p); }
    hide Inv, PendingOk, SamePlace, NothingHere, Config.Ok;
  }

  lemma {:induction false} CompletedLands(cfg: Config, b: Book, s: Pipe, junk: Padding, i: nat)
    requires Inv(cfg, b, s) && s.pending.Some? && s.pending.value.output == Fresh && i < |s.pending.value.params|
    ensures cfg.Ok() && Shaped(cfg, s) && PendingOk(cfg, s)
    ensures var c := Complete(cfg, s, junk);
            && Inv(cfg, b, c) && CanLand(cfg, c) && SliceInv(cfg, b, c, i)
            && c.grad == s.grad && c.micro == s.micro && c.pending.value.params == s.pending.value.params
            && c.pending.value.output == Fresh
  {
    InvParams(cfg, b, s);
    CompleteKeeps(cfg, b, s, junk);
    hide SliceInv, PendingOk, BucketInv, LandedInv, OutputBlocks;
  }

  lemma {:induction false} CleanOfCompleted(cfg: Config, s: Pipe, c: Pipe, i: nat)
    requires s.pending.Some? && c.pending.Some? && i < |s.pending.value.params|
    requires c.grad == s.grad && c.micro == s.micro && c.pending.value.params == s.pending.value.params
    requires c.pending.value.output == s.pending.value.output
    requires var p := s.pending.value.params[i]; cfg.offset(p) + cfg.Len(p) <= |s.grad|
    ensures Clean(cfg, c.grad, c, i) <==> Clean(cfg, s.grad, s, i)
  {
    SamePlaceKept(cfg, s.pending.value, c.pending.value, i);
    hide SamePlace, Seg;
  }

  lemma {:induction false} UncleanFlushWrong(cfg: Config, b: Book, s: Pipe, junk: Padding, i: nat)
    requires Inv(cfg, b, s) && s.pending.Some? && i < |s.pending.value.params|
    requires var p := s.pending.value.params[i]; cfg.offset(p) + cfg.Len(p) <= |s.grad| && !Clean(cfg, s.grad, s, i)
    ensures CanWait(cfg, s) && !TakenRight(cfg, b, Flush(cfg, s, junk), s.pending.value.params[i])
  {
    UncleanParts(cfg, b, s, i);
    InvParams(cfg, b, s);
    CompletedLands(cfg, b, s, junk, i);
    FlushIs(cfg, b, s, junk);
    assert BookOk(cfg, b);
    hide Inv, CanLand, Clean, SliceInv, PendingOk, NothingHere, Flush, Complete, Land, Expected, Seg, BookOk;
    TakenExactly(cfg, b, Complete(cfg, s, junk), i);
    CleanOfCompleted(cfg, s, Complete(cfg, s, junk), i);
  }

  lemma {:induction false} NotAllClean(cfg: Config, b: Book, s: Pipe) returns (i: nat)
    requires Inv(cfg, b, s) && s.pending.Some? && !AllClean(cfg, s)
    ensures i < |s.pending.value.params|
    ensures var p := s.pending.value.params[i]; cfg.offset(p) + cfg.Len(p) <= |s.grad| && !Clean(cfg, s.grad, s, i)
  {
    forall j | 0 <= j < |s.pending.value.params|
      ensures cfg.offset(s.pending.value.params[j]) + cfg.Len(s.pending.value.params[j]) <= |s.grad|
    {
      UncleanParts(cfg, b, s, j);
    }
    hide Inv, Clean;
    i :| 0 <= i < |s.pending.value.params| && !Clean(cfg, s.grad, s, i);
  }

  /** A flush leaves every pending parameter its exact slice if and only if nothing old is added to any of them. */
  lemma {:induction false} FlushExact(cfg: Config, b: Book, s: Pipe, junk: Padding)
    requires Inv(cfg, b, s) && s.pending.Some?
    ensures CanWait(cfg, s)
    ensures (forall i :: 0 <= i < |s.pending.value.params| ==>
               TakenRight(cfg, b, Flush(cfg, s, junk), s.pending.value.params[i])) <==> AllClean(cfg, s)
  {
    InvParams(cfg, b, s);
    hide *;
    if AllClean(cfg, s) {
      forall i | 0 <= i < |s.pending.value.params|
        ensures TakenRight(cfg, b, Flush(cfg, s, junk), s.pending.value.params[i])
      {
        CleanFlushRight(cfg, b, s, junk, i);
      }
    } else {
      var i := NotAllClean(cfg, b, s);
      UncleanFlushWrong(cfg, b, s, junk, i);
    }
  }

  /** So the last flush of a pass, at any moment the discipline allows it to be asked for, is exact if and only if every
      slice it takes was reduced in place, falls on the first micro step, or lands on zeros. */
  lemma {:induction false} LastFlushExact(cfg: Config, start: Pipe, es: seq<Event>, junk: Padding)
    requires Started(cfg, start) && Pass(cfg, true, start, es).Some?
    requires Pass(cfg, true, start, es).value.pipe.pending.Some?
    ensures var b, s := Pass(cfg, true, start, es).value.book, Pass(cfg, true, start, es).value.pipe;
            && CanWait(cfg, s)
            && ((forall i :: 0 <= i < |s.pending.value.params| ==>
                   TakenRight(cfg, b, Flush(cfg, s, junk), s.pending.value.params[i])) <==> AllClean(cfg, s))
  {
    var r := Pass(cfg, true, start, es).value;
    assert Inv(cfg, r.book, r.pipe);
    hide Pass, Started, Inv, AllClean, TakenRight, Flush, CanWait, Consistent;
    FlushExact(cfg, r.book, r.pipe, junk);
  }

  // -------------------------------------------------------------------- a model

  /** Hooks in this order never overflow the bucket. */
  ghost predicate Fits(cfg: Config, hooks: seq<int>)
  {
    forall i :: 0 <= i < |hooks| ==> FitsAt(cfg, hooks, i)
  }

  ghost predicate FitsAt(cfg: Config, hooks: seq<int>, i: nat)
    requires i < |hooks|
  {
    Elements(cfg, hooks[..i]) == 0 || Elements(cfg, hooks[..i]) + cfg.numel(hooks[i]) <= cfg.bucketSize
  }

  /** Parameters that can end up together in the last bucket. */
  ghost predicate CanBeLast(cfg: Config, hooks: seq<int>)
  {
    hooks != [] && Distinct(hooks) && Fits(cfg, hooks) && forall p :: p in hooks ==> p in cfg.params
  }

  lemma {:induction false} LastSorted(hooks: seq<int>)
    requires hooks != []
    ensures Sorted(SetOf(hooks)) != []
    ensures forall p :: p in Sorted(SetOf(hooks)) <==> p in hooks
  {
    SortedFull(hooks);
    forall p ensures p in Sorted(SetOf(hooks)) <==> p in hooks { SortedMember(SetOf(hooks), p); }
  }

  /** From the shard of the lowest id to the end of that of the highest, the flat gradient buffer holds as many elements
      as their shards together. */
  ghost predicate OneRun(cfg: Config, ps: set<int>)
  {
    exists first, last :: RunsFrom(cfg, ps, first, last)
  }

  ghost predicate RunsFrom(cfg: Config, ps: set<int>, first: int, last: int)
  {
    && first in ps && last in ps && (forall p :: p in ps ==> first <= p <= last)
    && cfg.offset(first) + SetSum(ps, cfg.size) == cfg.offset(last) + cfg.size(last)
  }

  /** Their slices do not make up one run of the flat gradient buffer, or nothing is ever written there directly; and
      one of them has elements on this rank. */
  ghost predicate Scattered(cfg: Config, hooks: seq<int>)
  {
    !(cfg.direct && OneRun(cfg, SetOf(hooks))) && exists p :: p in hooks && cfg.Len(p) > 0
  }

  lemma {:induction false} ListSum(ps: seq<int>, size: int -> nat)
    requires Ascending(ps)
    ensures GroupSize(ps, size) == SetSum(SetOf(ps), size)
    decreases |ps|
  {
    if ps == [] {
      assert SetOf(ps) == {};
    } else {
      var n := |ps| - 1;
      assert ps == ps[..n] + [ps[n]];
      GroupSizeOne(ps[..n], ps[n], size);
      ListSum(ps[..n], size);
      assert ps[n] in SetOf(ps) && SetOf(ps) - {ps[n]} == SetOf(ps[..n]);
      SetSumRemove(SetOf(ps), ps[n], size);
    }
  }

  /** The ends of an ascending list. */
  lemma {:induction false} EndsOf(ps: seq<int>, s: set<int>)
    requires ps != [] && Ascending(ps) && forall p :: p in ps <==> p in s
    ensures SetOf(ps) == s && ps[0] in s && ps[|ps| - 1] in s
    ensures forall p :: p in s ==> ps[0] <= p <= ps[|ps| - 1]
  {
    forall p | p in s ensures ps[0] <= p <= ps[|ps| - 1] {
      assert p in ps;
    }
  }

  /** Sizes and offsets decide where the output of such a bucket goes. */
  lemma {:induction false} FreshIff(cfg: Config, hooks: seq<int>)
    requires hooks != []
    ensures Sorted(SetOf(hooks)) != []
    ensures Target(cfg, Sorted(SetOf(hooks))) == Fresh <==> !(cfg.direct && OneRun(cfg, SetOf(hooks)))
  {
    var ps := Sorted(SetOf(hooks));
    SortedAscends(SetOf(hooks));
    LastSorted(hooks);
    EndsOf(ps, SetOf(hooks));
    ListSum(ps, cfg.size);
    hide Sorted, SetOf, GroupSize, SetSum;
    if LooksContiguous(cfg, ps) {
      assert RunsFrom(cfg, SetOf(hooks), ps[0], ps[|ps| - 1]);
    }
    if OneRun(cfg, SetOf(hooks)) {
      var first, last :| RunsFrom(cfg, SetOf(hooks), first, last);
      assert first == ps[0] && last == ps[|ps| - 1];
    }
  }

  /** What is pending is the last bucket of the pass. */
  ghost predicate LastPending(cfg: Config, pe: Pending, hooks: seq<int>)
  {
    && CanBeLast(cfg, hooks) && pe.params == Sorted(SetOf(hooks)) && pe.params != []
    && pe.output == Target(cfg, pe.params)
  }

  ghost predicate SomeLast(cfg: Config, pe: Pending)
  {
    exists hooks :: LastPending(cfg, pe, hooks)
  }

  ghost predicate LastInv(cfg: Config, s: Pipe)
  {
    && Fits(cfg, s.bucket)
    && (s.micro == 0 && s.bucket == [] ==> s.pending.None?)
    && (s.micro > 0 && s.pending.Some? ==> SomeLast(cfg, s.pending.value))
  }

  lemma {:induction false} FitsNext(cfg: Config, s: Pipe, p: int)
    requires Fits(cfg, s.bucket)
    ensures Fits(cfg, [p])
    ensures !Overflows(cfg, s, p) ==> Fits(cfg, s.bucket + [p])
  {
    assert Elements(cfg, []) == 0;
    assert [p][..0] == [];
    assert FitsAt(cfg, [p], 0);
    var more := s.bucket + [p];
    hide Elements;
    if !Overflows(cfg, s, p) {
      forall i | 0 <= i < |more| ensures FitsAt(cfg, more, i) {
        assert more[..i] == s.bucket[..i];
        if i < |s.bucket| { assert FitsAt(cfg, s.bucket, i); } else { assert s.bucket[..i] == s.bucket; }
      }
    }
  }

  lemma {:induction false} HookLast(cfg: Config, b: Book, s: Pipe, e: Event)
    requires Consistent(cfg, true, b, s) && Guard(cfg, true, b, s, e) && e.Hook? && LastInv(cfg, s)
    ensures LastInv(cfg, After(cfg, true, b, s, e).pipe)
  {
    HookBucket(cfg, true, b, s, e);
    FitsNext(cfg, s, e.p);
    assert [] + [e.p] == [e.p];
    HookMicro(cfg, b, s, e);
    hide After, Consistent, Guard, Overflows, Fits, SomeLast;
  }

  lemma {:induction false} HookMicro(cfg: Config, b: Book, s: Pipe, e: Event)
    requires Consistent(cfg, true, b, s) && Guard(cfg, true, b, s, e) && e.Hook?
    ensures After(cfg, true, b, s, e).pipe.micro == 0
  {
    EmptyKeeps(cfg, true, b, s, e.junk);
    hide Inv, Empty, CanEmpty, Overwrites, Overflows;
  }

  /** What emptying the bucket leaves pending. */
  lemma {:induction false} ReducedIs(cfg: Config, s: Pipe, junk: Padding)
    requires CanWait(cfg, s) && Placed(cfg, s, Sorted(SetOf(s.bucket)))
    ensures s.bucket == [] ==> Reduce(cfg, s, junk) == s
    ensures s.bucket != [] ==>
              var u, ps := Reduce(cfg, s, junk), Sorted(SetOf(s.bucket));
              && ps != [] && u.bucket == [] && u.micro == s.micro
              && u.pending.Some? && u.pending.value.params == ps && u.pending.value.output == Target(cfg, ps)
    ensures s.bucket != [] && s.pending.None? ==> Reduce(cfg, s, junk).grad == s.grad
  {
    if s.bucket != [] {
      FlushShape(cfg, s, junk);
      var t := Flush(cfg, s, junk);
      assert cfg.world > 0;
      assert s.pending.None? ==> t.grad == s.grad;
      SubmitShape(cfg, t);
      hide Flush, Sorted, SetOf, Target, Submit, Placed, CanWait;
    }
  }

  lemma {:induction false} BucketCanBeLast(cfg: Config, b: Book, s: Pipe)
    requires Inv(cfg, b, s) && s.bucket != [] && Fits(cfg, s.bucket)
    ensures CanBeLast(cfg, s.bucket)
  {
    forall p | p in s.bucket ensures p in cfg.params {
      assert p in SetOf(s.bucket) && p in b.grads.Keys;
    }
    hide Fits, BucketInv, PendingInv, LandedInv;
  }

  lemma {:induction false} EndLast(cfg: Config, b: Book, s: Pipe, e: Event)
    requires Consistent(cfg, true, b, s) && Guard(cfg, true, b, s, e) && e.EndBackward? && LastInv(cfg, s)
    ensures LastInv(cfg, After(cfg, true, b, s, e).pipe)
  {
    EmptyKeeps(cfg, true, b, s, e.junk);
    var t := After(cfg, true, b, s, e).pipe;
    assert t == Reduce(cfg, s, e.junk).(micro := 1);
    ReducedIs(cfg, s, e.junk);
    assert Fits(cfg, []);
    if s.bucket != [] {
      BucketCanBeLast(cfg, b, s);
      assert LastPending(cfg, t.pending.value, s.bucket);
    }
    hide Inv, Reduce, CanEmpty, CanBeLast, Fits, Sorted, SetOf, Target;
  }

  lemma {:induction false} OtherLast(cfg: Config, b: Book, s: Pipe, e: Event)
    requires Consistent(cfg, true, b, s) && Guard(cfg, true, b, s, e) && (e.Finish? || e.Take?) && LastInv(cfg, s)
    ensures LastInv(cfg, After(cfg, true, b, s, e).pipe)
  {
    InvParams(cfg, b, s);
    if e.Finish? && s.micro > 0 {
      var hooks :| LastPending(cfg, s.pending.value, hooks);
      assert LastPending(cfg, Complete(cfg, s, e.junk).pending.value, hooks);
    }
    hide Inv, Fits, CanBeLast, Target, Sorted, SetOf, AllClean, OutputBlocks;
  }

  lemma {:induction false} PassLast(cfg: Config, start: Pipe, es: seq<Event>)
    requires Started(cfg, start) && Pass(cfg, true, start, es).Some?
    ensures LastInv(cfg, Pass(cfg, true, start, es).value.pipe)
    decreases |es|
  {
    hide *;
    if es == [] {
      NothingYet(cfg, start);
    } else {
      var front, e := es[..|es| - 1], es[|es| - 1];
      PassTo(cfg, true, start, es);
      PassLast(cfg, start, front);
      var r := Pass(cfg, true, start, front).value;
      if e.Hook? { HookLast(cfg, r.book, r.pipe, e); }
      else if e.EndBackward? { EndLast(cfg, r.book, r.pipe, e); }
      else { OtherLast(cfg, r.book, r.pipe, e); }
    }
  }

  lemma {:induction false} NothingYet(cfg: Config, start: Pipe)
    requires Started(cfg, start)
    ensures Pass(cfg, true, start, []).Some? && LastInv(cfg, Pass(cfg, true, start, []).value.pipe)
  {
  }

  /** In this pass the last flush adds to old values. */
  ghost predicate AddsAfter(cfg: Config, start: Pipe, es: seq<Event>)
  {
    && Started(cfg, start) && Pass(cfg, true, start, es).Some?
    && Pass(cfg, true, start, es).value.pipe.pending.Some? && !AllClean(cfg, Pass(cfg, true, start, es).value.pipe)
  }

  ghost predicate CanAdd(cfg: Config)
  {
    exists start, es :: AddsAfter(cfg, start, es)
  }

  ghost predicate CanScatter(cfg: Config)
  {
    exists hooks :: ScatteredLast(cfg, hooks)
  }

  ghost predicate ScatteredLast(cfg: Config, hooks: seq<int>)
  {
    CanBeLast(cfg, hooks) && Scattered(cfg, hooks)
  }

  lemma {:induction false} ScatterIntro(cfg: Config, hooks: seq<int>)
    requires CanBeLast(cfg, hooks) && Scattered(cfg, hooks)
    ensures CanScatter(cfg)
  {
    hide CanBeLast, Scattered;
    assert ScatteredLast(cfg, hooks);
  }

  lemma {:induction false} CanBeLastParts(cfg: Config, hooks: seq<int>)
    requires CanBeLast(cfg, hooks)
    ensures hooks != []
  {
  }

  lemma {:induction false} AddsIsScattered(cfg: Config, start: Pipe, es: seq<Event>)
    requires AddsAfter(cfg, start, es)
    ensures CanScatter(cfg)
  {
    var r := Pass(cfg, true, start, es).value;
    PassLast(cfg, start, es);
    assert Inv(cfg, r.book, r.pipe);
    hide Pass, Inv, AllClean, Consistent, Started;
    var i := NotAllClean(cfg, r.book, r.pipe);
    UncleanParts(cfg, r.book, r.pipe, i);
    var pe := r.pipe.pending.value;
    assert SomeLast(cfg, pe);
    var hooks :| LastPending(cfg, pe, hooks);
    LastSorted(hooks);
    assert pe.params[i] in hooks;
    CanBeLastParts(cfg, hooks);
    FreshIff(cfg, hooks);
    hide Sorted, SetOf, Clean, NothingHere, Target, OneRun;
    assert Scattered(cfg, hooks);
    hide CanBeLast, Scattered;
    ScatterIntro(cfg, hooks);
  }

  // ------------------------------------------------------ a pass for every such list

  function Fill(n: nat, x: real): seq<real> { seq(n, _ => x) }

  /** A pass that finds ones in the flat fp16 gradient buffer. */
  function Ones(cfg: Config): Pipe
  {
    Pipe([], map[], Fill(cfg.bucketSize, 0.0), None, Fill(cfg.total, 1.0), Fill(cfg.total, 0.0), 0)
  }

  function HookOf(cfg: Config, p: int, junk: Padding): Event { Hook(p, Fill(cfg.numel(p), 0.0), junk) }

  function Hooks(cfg: Config, ps: seq<int>, junk: Padding): seq<Event>
  {
    seq(|ps|, i requires 0 <= i < |ps| => HookOf(cfg, ps[i], junk))
  }

  lemma {:induction false} OnesStarted(cfg: Config)
    requires cfg.Ok() && (cfg.direct ==> cfg.Ascends())
    ensures Started(cfg, Ones(cfg))
  {
    hide Config.Ok, Config.Ascends;
  }

  /** All of ps has fired and lies in the bucket. */
  ghost predicate Holds(cfg: Config, r: Progress, ps: seq<int>)
  {
    && r.pipe.bucket == ps && r.pipe.pending.None? && r.pipe.micro == 0 && r.pipe.grad == Fill(cfg.total, 1.0)
    && r.book.grads.Keys == SetOf(ps)
  }

  ghost predicate Collects(cfg: Config, es: seq<Event>, ps: seq<int>)
    requires Started(cfg, Ones(cfg))
  {
    Pass(cfg, true, Ones(cfg), es).Some? && Holds(cfg, Pass(cfg, true, Ones(cfg), es).value, ps)
  }

  lemma {:induction false} CollectsNone(cfg: Config)
    requires Started(cfg, Ones(cfg))
    ensures Collects(cfg, [], [])
  {
    assert SetOf<int>([]) == {};
    hide Started;
  }

  lemma {:induction false} CollectsNext(cfg: Config, es: seq<Event>, hooks: seq<int>, n: nat, junk: Padding)
    requires Started(cfg, Ones(cfg)) && CanBeLast(cfg, hooks) && n < |hooks| && Collects(cfg, es, hooks[..n])
    ensures Collects(cfg, es + [HookOf(cfg, hooks[n], junk)], hooks[..n + 1])
  {
    var r, p := Pass(cfg, true, Ones(cfg), es).value, hooks[n];
    PassNext(cfg, Ones(cfg), es, HookOf(cfg, p, junk));
    DistinctPrefix(hooks, n);
    SetOfNext(hooks, n);
    assert hooks[..n + 1] == hooks[..n] + [p];
    FitsHere(cfg, hooks, n);
    FitsIs(cfg, r.pipe, p);
    hide Pass, Started, Consistent, Guard, After, Overflows, CanBeLast, SetOf;
    HookFits(cfg, r.book, r.pipe, p, Fill(cfg.numel(p), 0.0), junk);
    AddShape(cfg, r.pipe, p, Fill(cfg.numel(p), 0.0));
  }

  lemma {:induction false} AllParams(cfg: Config, hooks: seq<int>, p: int)
    requires CanBeLast(cfg, hooks) && p in hooks
    ensures p in cfg.params
  {
  }

  lemma {:induction false} FitsHere(cfg: Config, hooks: seq<int>, n: nat)
    requires CanBeLast(cfg, hooks) && n < |hooks|
    ensures hooks[n] in cfg.params
    ensures Elements(cfg, hooks[..n]) == 0 || Elements(cfg, hooks[..n]) + cfg.numel(hooks[n]) <= cfg.bucketSize
  {
    assert FitsAt(cfg, hooks, n);
    AllParams(cfg, hooks, hooks[n]);
  }

  lemma {:induction false} FitsIs(cfg: Config, s: Pipe, p: int)
    requires Elements(cfg, s.bucket) == 0 || Elements(cfg, s.bucket) + cfg.numel(p) <= cfg.bucketSize
    ensures !Overflows(cfg, s, p)
  {
  }

  lemma {:induction false} AddShape(cfg: Config, s: Pipe, p: int, g: seq<real>)
    requires |s.buffer| == cfg.bucketSize
    ensures var t := Add(cfg, s, p, g);
            t.bucket == s.bucket + [p] && t.pending == s.pending && t.micro == s.micro && t.grad == s.grad
  {
    hide Elements, Put;
  }

  lemma {:induction false} HooksNext(cfg: Config, hooks: seq<int>, n: nat, junk: Padding)
    requires n < |hooks|
    ensures Hooks(cfg, hooks[..0], junk) == [] && hooks[..0] == []
    ensures Hooks(cfg, hooks[..n + 1], junk) == Hooks(cfg, hooks[..n], junk) + [HookOf(cfg, hooks[n], junk)]
  {
    hide HookOf;
  }

  lemma {:induction false} HooksCollect(cfg: Config, hooks: seq<int>, n: nat, junk: Padding)
    requires Started(cfg, Ones(cfg)) && CanBeLast(cfg, hooks) && hooks != [] && n <= |hooks|
    ensures Collects(cfg, Hooks(cfg, hooks[..n], junk), hooks[..n])
    decreases n
  {
    hide *;
    if n == 0 {
      CollectsNone(cfg);
      HooksNext(cfg, hooks, 0, junk);
    } else {
      HooksCollect(cfg, hooks, n - 1, junk);
      HooksNext(cfg, hooks, n - 1, junk);
      CollectsNext(cfg, Hooks(cfg, hooks[..n - 1], junk), hooks, n - 1, junk);
    }
  }

  lemma {:induction false} EndScattered(cfg: Config, es: seq<Event>, hooks: seq<int>, junk: Padding)
    requires Started(cfg, Ones(cfg)) && CanBeLast(cfg, hooks) && Collects(cfg, es, hooks)
    ensures Sorted(SetOf(hooks)) != []
    ensures Pass(cfg, true, Ones(cfg), es + [EndBackward(junk)]).Some?
    ensures var t, ps := Pass(cfg, true, Ones(cfg), es + [EndBackward(junk)]).value.pipe, Sorted(SetOf(hooks));
            && t.micro == 1 && t.grad == Fill(cfg.total, 1.0) && t.pending.Some?
            && t.pending.value.params == ps && t.pending.value.output == Target(cfg, ps)
  {
    var r := Pass(cfg, true, Ones(cfg), es).value;
    LastSorted(hooks);
    CanBeLastParts(cfg, hooks);
    PassNext(cfg, Ones(cfg), es, EndBackward(junk));
    hide Pass, Started, Consistent, Guard, After, CanBeLast, SetOf, Sorted, Target, CanWait, Placed;
    EndIs(cfg, r.book, r.pipe, junk);
    EmptyParts(cfg, r.pipe);
    ReducedIs(cfg, r.pipe, junk);
  }

  lemma {:induction false} EmptyParts(cfg: Config, s: Pipe)
    requires CanEmpty(cfg, true, s)
    ensures CanWait(cfg, s) && Placed(cfg, s, Sorted(SetOf(s.bucket)))
  {
    hide CanWait, Placed;
  }

  lemma {:induction false} OnesUnclean(cfg: Config, s: Pipe, p: int)
    requires s.pending.Some? && p in s.pending.value.params && s.micro > 0 && s.pending.value.output == Fresh
    requires cfg.Len(p) > 0 && s.grad == Fill(cfg.total, 1.0)
    ensures !AllClean(cfg, s)
  {
    var i :| 0 <= i < |s.pending.value.params| && s.pending.value.params[i] == p;
    if cfg.offset(p) + cfg.Len(p) <= |s.grad| {
      assert Seg(cfg, s.grad, p)[0] == 1.0;
      assert seq(cfg.Len(p), _ => 0.0)[0] == 0.0;
      assert !Clean(cfg, s.grad, s, i);
    }
  }

  lemma {:induction false} ScatteredAdds(cfg: Config, hooks: seq<int>, junk: Padding)
    requires cfg.Ok() && (cfg.direct ==> cfg.Ascends()) && ScatteredLast(cfg, hooks)
    ensures AddsAfter(cfg, Ones(cfg), Hooks(cfg, hooks, junk) + [EndBackward(junk)])
  {
    OnesStarted(cfg);
    HooksCollect(cfg, hooks, |hooks|, junk);
    assert hooks[..|hooks|] == hooks;
    LastSorted(hooks);
    EndScattered(cfg, Hooks(cfg, hooks, junk), hooks, junk);
    var p :| p in hooks && cfg.Len(p) > 0;
    CanBeLastParts(cfg, hooks);
    FreshIff(cfg, hooks);
    var t := Pass(cfg, true, Ones(cfg), Hooks(cfg, hooks, junk) + [EndBackward(junk)]).value.pipe;
    hide Pass, Started, Collects, CanBeLast, AllClean, Sorted, SetOf, Target, OneRun, Config.Ok, Config.Ascends;
    OnesUnclean(cfg, t, p);
  }

  lemma {:induction false} AddsIntro(cfg: Config, start: Pipe, es: seq<Event>)
    requires AddsAfter(cfg, start, es)
    ensures CanAdd(cfg)
  {
    hide AddsAfter;
  }

  /** Which models can add to old values: those in which some parameters that fit one bucket, in some hook order, are
      reduced into new storage, because their shards do not make up one run of the flat buffer or nothing is written there
      directly, and one of them has elements on this rank. Sizes and offsets decide. */
  lemma {:induction false} AddsIffScattered(cfg: Config)
    requires cfg.Ok() && (cfg.direct ==> cfg.Ascends())
    ensures CanAdd(cfg) <==> CanScatter(cfg)
  {
    hide AddsAfter, ScatteredLast;
    if CanScatter(cfg) {
      var hooks :| ScatteredLast(cfg, hooks);
      ScatteredAdds(cfg, hooks, (i, j) => 0.0);
      AddsIntro(cfg, Ones(cfg), Hooks(cfg, hooks, (i, j) => 0.0) + [EndBackward((i, j) => 0.0)]);
    }
    if CanAdd(cfg) {
      var start, es :| AddsAfter(cfg, start, es);
      AddsIsScattered(cfg, start, es);
    }
  }

  /** In all other models the discipline of a pass asks nothing about old values. */
  lemma {:induction false} TakesAllowed(cfg: Config, start: Pipe, es: seq<Event>, junk: Padding)
    requires Started(cfg, start) && Pass(cfg, true, start, es).Some? && !CanScatter(cfg)
    ensures var r := Pass(cfg, true, start, es).value; Guard(cfg, true, r.book, r.pipe, Take(junk))
  {
    var r := Pass(cfg, true, start, es).value;
    if !AllClean(cfg, r.pipe) {
      SomethingPending(cfg, r.pipe);
      assert AddsAfter(cfg, start, es);
      hide AddsAfter, CanScatter;
      AddsIsScattered(cfg, start, es);
    }
    hide Pass, Started, AllClean, Inv;
  }

  lemma {:induction false} SomethingPending(cfg: Config, s: Pipe)
    requires !AllClean(cfg, s)
    ensures s.pending.Some?
  {
  }
}
