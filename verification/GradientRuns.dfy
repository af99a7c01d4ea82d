/** What a whole backward pass leaves in the fp32 gradient buffer. */
module GradientRuns {
  import opened Prelude
  import opened Blocks
  import opened ReduceScatter
  import opened SubGroups
  import opened GradientSpec

  /** Bookkeeping of a pass: the gradients whose hooks have fired, the parameters whose slices have landed, and
      the flat gradient buffers when the pass began. */
  datatype Book = Book(grads: map<int, seq<real>>, landed: set<int>, grad0: seq<real>, fp0: seq<real>)

  /** What synchronous training would put into p's place. */
  function Expected(cfg: Config, b: Book, p: int): seq<real>
    requires cfg.world > 0 && p in b.grads && |b.grads[p]| == cfg.numel(p)
  {
    ReceivedSlice(cfg, p, Divided(b.grads[p], cfg.world))
  }

  function PendingParams(s: Pipe): seq<int>
  {
    if s.pending.Some? then s.pending.value.params else []
  }

  // ---------------------------------------------------------------- invariant

  ghost predicate BookOk(cfg: Config, b: Book)
  {
    && cfg.Ok() && |b.grad0| == |b.fp0| == cfg.total
    && b.grads.Keys <= cfg.params
    && forall p :: p in b.grads ==> |b.grads[p]| == cfg.numel(p)
  }

  /** Every parameter whose hook fired is in exactly one place: the bucket, the pending reduce-scatter, or landed. */
  ghost predicate Accounted(b: Book, s: Pipe)
  {
    && Distinct(s.bucket) && Distinct(PendingParams(s))
    && SetOf(s.bucket) !! SetOf(PendingParams(s)) && SetOf(s.bucket) !! b.landed && SetOf(PendingParams(s)) !! b.landed
    && b.grads.Keys == SetOf(s.bucket) + SetOf(PendingParams(s)) + b.landed
  }

  /** The i-th collected gradient is still itself; if it was copied, it stands behind the ones before it. */
  ghost predicate Collected(cfg: Config, b: Book, s: Pipe, i: nat)
    requires i < |s.bucket|
  {
    var p := s.bucket[i];
    && p in b.grads && PlaceOk(cfg, s, p) && Content(cfg, s, p) == b.grads[p]
    && (s.places[p].InBucket? ==> s.places[p].at == Off(Sizes(s.bucket, cfg.numel), i))
  }

  ghost predicate BucketInv(cfg: Config, b: Book, s: Pipe)
  {
    forall i :: 0 <= i < |s.bucket| ==> Collected(cfg, b, s, i)
  }

  /** The pending reduce-scatter writes to the right places, and reads or has produced the right values. */
  ghost predicate PendingInv(cfg: Config, b: Book, s: Pipe)
    requires BookOk(cfg, b)
  {
    s.pending.Some? ==>
      && PendingOk(cfg, s)
      && forall i :: 0 <= i < |s.pending.value.params| ==> SliceInv(cfg, b, s, i)
  }

  ghost predicate SliceInv(cfg: Config, b: Book, s: Pipe, i: nat)
    requires BookOk(cfg, b) && PendingOk(cfg, s) && i < |s.pending.value.params|
  {
    var pe := s.pending.value;
    && pe.params[i] in b.grads
    && (pe.output.Direct? ==> SamePlace(cfg, pe, i))
    && (pe.flat.None? ==> Reads(cfg, s, pe, i) == Divided(b.grads[pe.params[i]], cfg.world))
    && (pe.flat.Some? ==> Part(cfg, s, i) == Expected(cfg, b, pe.params[i]))
  }

  ghost predicate Covers(cfg: Config, ps: set<int>, j: int)
  {
    exists p :: p in ps && cfg.offset(p) <= j < cfg.offset(p) + cfg.Len(p)
  }

  /** The fp32 buffer: landed slices in their places, everything else as it was. */
  ghost predicate LandedInv(cfg: Config, b: Book, s: Pipe)
    requires BookOk(cfg, b) && Shaped(cfg, s)
  {
    && (forall p :: p in b.landed ==> LandedAt(cfg, b, s, p))
    && forall j :: 0 <= j < cfg.total && !Covers(cfg, b.landed, j) ==> s.fp32[j] == b.fp0[j]
  }

  ghost predicate LandedAt(cfg: Config, b: Book, s: Pipe, p: int)
    requires BookOk(cfg, b) && Shaped(cfg, s)
  {
    p in b.grads && cfg.offset(p) + cfg.Len(p) <= |s.fp32| && Seg(cfg, s.fp32, p) == Expected(cfg, b, p)
  }

  ghost predicate Inv(cfg: Config, b: Book, s: Pipe)
  {
    && BookOk(cfg, b) && Shaped(cfg, s) && Accounted(b, s)
    && BucketInv(cfg, b, s) && PendingInv(cfg, b, s) && LandedInv(cfg, b, s)
  }

  // ------------------------------------------------------------- small lemmas

  lemma {:induction false} PutReads(v: seq<real>, at: nat, x: seq<real>, a: nat, n: nat)
    requires at + |x| <= |v| && a + n <= |v|
    ensures a + n <= at || at + |x| <= a || n == 0 || |x| == 0 ==> Put(v, at, x)[a..a + n] == v[a..a + n]
    ensures a == at && n == |x| ==> Put(v, at, x)[a..a + n] == x
  {
    var r := Put(v, at, x);
    assert forall k :: 0 <= k < |v| ==> r[k] == if at <= k < at + |x| then x[k - at] else v[k];
    hide Put;
  }

  lemma {:induction false} LenFits(cfg: Config, p: int)
    requires cfg.Ok() && p in cfg.params
    ensures cfg.Len(p) <= cfg.size(p) && cfg.offset(p) + cfg.Len(p) <= cfg.offset(p) + cfg.size(p) <= cfg.total
  {
    assert SliceLength(cfg.numel(p), cfg.size(p), cfg.rank) <= cfg.size(p);
    assert cfg.offset(p) + cfg.size(p) <= cfg.total;
  }

  lemma {:induction false} Apart(cfg: Config, p: int, q: int)
    requires cfg.Ok() && p in cfg.params && q in cfg.params && p != q
    ensures cfg.offset(p) + cfg.Len(p) <= cfg.offset(q) || cfg.offset(q) + cfg.Len(q) <= cfg.offset(p)
  {
    LenFits(cfg, p);
    LenFits(cfg, q);
  }

  // ------------------------------------------------------------------- adding

  /** Adding p would overwrite what an unfinished reduce-scatter still has to read. */
  predicate Overwrites(cfg: Config, s: Pipe, p: int)
  {
    && s.pending.Some? && s.pending.value.flat.None? && s.pending.value.input.View? && |s.pending.value.params| == 1
    && var at, e := s.pending.value.input.at, Elements(cfg, s.bucket);
       && e + cfg.numel(p) < cfg.bucketSize && cfg.numel(p) > 0 && cfg.numel(s.pending.value.params[0]) > 0
       && e < at + cfg.numel(s.pending.value.params[0]) && at < e + cfg.numel(p)
  }

  lemma {:induction false} SizesOne(ps: seq<int>, p: int, size: int -> nat, i: nat)
    requires i <= |ps|
    ensures Off(Sizes(ps + [p], size), i) == Off(Sizes(ps, size), i)
    ensures i == |ps| ==> Off(Sizes(ps, size), i) == GroupSize(ps, size)
  {
    assert Sizes(ps, size) <= Sizes(ps + [p], size);
    OffPrefix(Sizes(ps, size), Sizes(ps + [p], size), i);
  }

  lemma {:induction false} AddCollects(cfg: Config, b: Book, s: Pipe, p: int, g: seq<real>, i: nat)
    requires BookOk(cfg, b) && Shaped(cfg, s) && BucketInv(cfg, b, s)
    requires p !in b.grads && |g| == cfg.numel(p) && i <= |s.bucket|
    ensures Collected(cfg, b.(grads := b.grads[p := g]), Add(cfg, s, p, g), i)
  {
    var e := Elements(cfg, s.bucket);
    SizesOne(s.bucket, p, cfg.numel, i);
    if i < |s.bucket| {
      assert Collected(cfg, b, s, i);
      var q := s.bucket[i];
      BlockFits(Sizes(s.bucket, cfg.numel), i);
      if s.places[q].InBucket? && e + |g| < cfg.bucketSize {
        PutReads(s.buffer, e, g, s.places[q].at, cfg.numel(q));
      }
    } else if e + |g| < cfg.bucketSize {
      PutReads(s.buffer, e, g, e, |g|);
    }
  }

  lemma {:induction false} AddReads(cfg: Config, b: Book, s: Pipe, p: int, g: seq<real>, i: nat)
    requires Inv(cfg, b, s) && s.pending.Some? && i < |s.pending.value.params|
    requires p in cfg.params && p !in b.grads && |g| == cfg.numel(p) && !Overwrites(cfg, s, p)
    ensures var c, t := b.(grads := b.grads[p := g]), Add(cfg, s, p, g);
            BookOk(cfg, c) && PendingOk(cfg, t) && SliceInv(cfg, c, t, i)
  {
    var pe, t := s.pending.value, Add(cfg, s, p, g);
    assert SliceInv(cfg, b, s, i);
    if pe.input.View? && pe.flat.None? && Elements(cfg, s.bucket) + |g| < cfg.bucketSize {
      PutReads(s.buffer, Elements(cfg, s.bucket), g, pe.input.at, cfg.numel(pe.params[0]));
    }
    assert PendingOk(cfg, t);
    assert pe.flat.None? ==> Reads(cfg, t, pe, i) == Reads(cfg, s, pe, i);
    hide *;
    SliceFrame(cfg, b, s, b.(grads := b.grads[p := g]), t, i);
  }

  lemma {:induction false} PartFrame(cfg: Config, s: Pipe, t: Pipe, i: nat)
    requires PendingOk(cfg, s) && PendingOk(cfg, t) && t.pending == s.pending
    requires s.pending.value.flat.Some? && i < |s.pending.value.params|
    requires s.pending.value.output.Direct? ==> t.grad == s.grad
    ensures Part(cfg, t, i) == Part(cfg, s, i)
  {
  }

  /** What the pending reduce-scatter reads and has produced depends only on its input and its output. */
  lemma {:induction false} SliceFrame(cfg: Config, b: Book, s: Pipe, c: Book, t: Pipe, i: nat)
    requires BookOk(cfg, b) && PendingOk(cfg, s) && i < |s.pending.value.params| && SliceInv(cfg, b, s, i)
    requires BookOk(cfg, c) && PendingOk(cfg, t) && t.pending == s.pending
    requires s.pending.value.output.Direct? ==> t.grad == s.grad
    requires s.pending.value.flat.None? ==> Reads(cfg, t, s.pending.value, i) == Reads(cfg, s, s.pending.value, i)
    requires var q := s.pending.value.params[i]; q in b.grads ==> q in c.grads && c.grads[q] == b.grads[q]
    ensures SliceInv(cfg, c, t, i)
  {
    if s.pending.value.flat.Some? { PartFrame(cfg, s, t, i); }
    hide Reads, Part, PendingOk, Slice, ReceivedSlice, Divided;
  }

  lemma {:induction false} AddAccounts(b: Book, s: Pipe, p: int, g: seq<real>, t: Pipe)
    requires Accounted(b, s) && p !in b.grads
    requires t.bucket == s.bucket + [p] && t.pending == s.pending
    ensures Accounted(b.(grads := b.grads[p := g]), t)
  {
    DistinctNext(s.bucket, p);
  }

  lemma {:induction false} AddKeeps(cfg: Config, b: Book, s: Pipe, p: int, g: seq<real>)
    requires Inv(cfg, b, s) && p in cfg.params && p !in b.grads && |g| == cfg.numel(p) && !Overwrites(cfg, s, p)
    ensures Inv(cfg, b.(grads := b.grads[p := g]), Add(cfg, s, p, g))
  {
    var c, t := b.(grads := b.grads[p := g]), Add(cfg, s, p, g);
    forall i | 0 <= i < |t.bucket| ensures Collected(cfg, c, t, i) { AddCollects(cfg, b, s, p, g, i); }
    if s.pending.Some? {
      forall i | 0 <= i < |s.pending.value.params| ensures PendingOk(cfg, t) && SliceInv(cfg, c, t, i) {
        AddReads(cfg, b, s, p, g, i);
      }
    }
    AddAccounts(b, s, p, g, t);
    assert BookOk(cfg, c) && Shaped(cfg, t);
    SameLanded(cfg, b, s, c, t);
    hide Collected, SliceInv, PendingOk, LandedInv, Accounted;
  }

  lemma {:induction false} SameLanded(cfg: Config, b: Book, s: Pipe, c: Book, t: Pipe)
    requires BookOk(cfg, b) && Shaped(cfg, s) && LandedInv(cfg, b, s) && BookOk(cfg, c) && Shaped(cfg, t)
    requires t.fp32 == s.fp32 && c.landed == b.landed && c.fp0 == b.fp0
    requires forall p :: p in b.grads ==> p in c.grads && c.grads[p] == b.grads[p]
    ensures LandedInv(cfg, c, t)
  {
    forall p | p in c.landed ensures LandedAt(cfg, c, t, p) {
      assert LandedAt(cfg, b, s, p);
    }
    forall j | 0 <= j < cfg.total && !Covers(cfg, c.landed, j) ensures t.fp32[j] == c.fp0[j] {
      assert !Covers(cfg, b.landed, j);
    }
  }

  // --------------------------------------------------------------- completing

  /** The slices an output holds once the collective has read the right values. */
  lemma {:induction false} CompletePart(cfg: Config, b: Book, s: Pipe, junk: Padding, i: nat)
    requires BookOk(cfg, b) && Shaped(cfg, s) && PendingOk(cfg, s) && i < |s.pending.value.params|
    requires s.pending.value.flat.None? && SliceInv(cfg, b, s, i)
    ensures SliceInv(cfg, b, Complete(cfg, s, junk), i)
  {
    var t := Complete(cfg, s, junk);
    FlatPart(cfg, s, junk, i);
    hide Complete, OutputBlocks, ReceivedSlice, Slice, Divided, Flatten;
    assert Part(cfg, t, i) == ReceivedSlice(cfg, s.pending.value.params[i], Reads(cfg, s, s.pending.value, i));
  }

  /** Each view of the output holds the slice received for its tensor. */
  lemma {:induction false} FlatPart(cfg: Config, s: Pipe, junk: Padding, i: nat)
    requires s.pending.Some? && cfg.Ok() && Shaped(cfg, s) && PendingOk(cfg, s) && i < |s.pending.value.params|
    requires s.pending.value.flat.None?
    ensures |Reads(cfg, s, s.pending.value, i)| == cfg.numel(s.pending.value.params[i])
    ensures Part(cfg, Complete(cfg, s, junk), i)
         == ReceivedSlice(cfg, s.pending.value.params[i], Reads(cfg, s, s.pending.value, i))
  {
    hide *;
    var pe, t := s.pending.value, Complete(cfg, s, junk);
    BlockStarts(cfg, s, junk, i);
    CompleteIs(cfg, s, junk, i);
    PartIs(cfg, t, i);
    if pe.output.Direct? {
      PutWhole(s.grad, pe.output.first, Flatten(OutputBlocks(cfg, s, pe, junk)), PartAt(cfg, pe, i), cfg.Len(pe.params[i]));
    }
  }

  lemma {:induction false} CompleteIs(cfg: Config, s: Pipe, junk: Padding, i: nat)
    requires s.pending.Some? && i < |s.pending.value.params| && cfg.Ok() && Shaped(cfg, s) && PendingOk(cfg, s) && s.pending.value.flat.None?
    ensures InputOk(cfg, s, s.pending.value)
    ensures var pe, t := s.pending.value, Complete(cfg, s, junk);
            var flat := Flatten(OutputBlocks(cfg, s, pe, junk));
            && t.pending == Some(pe.(flat := Some(flat))) && PendingOk(cfg, t)
            && PartAt(cfg, t.pending.value, i) == PartAt(cfg, pe, i)
            && (pe.output.Direct? ==>
                  pe.output.first + |flat| <= |s.grad| && t.grad == Put(s.grad, pe.output.first, flat))
  {
    FlattenTotal(OutputBlocks(cfg, s, s.pending.value, junk));
  }

  lemma {:induction false} PartIs(cfg: Config, s: Pipe, i: nat)
    requires PendingOk(cfg, s) && s.pending.value.flat.Some? && i < |s.pending.value.params|
    ensures var pe := s.pending.value;
            var at, len := PartAt(cfg, pe, i), cfg.Len(pe.params[i]);
            && at + len <= |pe.flat.value|
            && (pe.output.Direct? ==> pe.output.first + |pe.flat.value| <= |s.grad|)
            && Part(cfg, s, i) == if pe.output.Direct? then s.grad[pe.output.first + at..pe.output.first + at + len]
                                  else pe.flat.value[at..at + len]
  {
    PartInside(cfg, s.pending.value, i);
  }

  lemma {:induction false} BlockStarts(cfg: Config, s: Pipe, junk: Padding, i: nat)
    requires cfg.Ok() && PendingOk(cfg, s) && i < |s.pending.value.params|
    ensures var pe := s.pending.value;
            var flat := Flatten(OutputBlocks(cfg, s, pe, junk));
            && |flat| == GroupSize(pe.params, cfg.size)
            && |Reads(cfg, s, pe, i)| == cfg.numel(pe.params[i])
            && PartAt(cfg, pe, i) + cfg.Len(pe.params[i]) <= |flat|
            && flat[PartAt(cfg, pe, i)..PartAt(cfg, pe, i) + cfg.Len(pe.params[i])]
               == ReceivedSlice(cfg, pe.params[i], Reads(cfg, s, pe, i))
  {
    var pe := s.pending.value;
    var bs := OutputBlocks(cfg, s, pe, junk);
    ReadsLength(cfg, s, pe, i);
    BlockFront(cfg, i, pe.params[i], Reads(cfg, s, pe, i), junk);
    assert bs[i] == OutputBlock(cfg, i, pe.params[i], Reads(cfg, s, pe, i), junk);
    assert Lengths(bs) == Sizes(pe.params, cfg.size);
    assert PartAt(cfg, pe, i) == Off(Sizes(pe.params, cfg.size), i);
    hide *;
    FrontOfBlock(bs, i, ReceivedSlice(cfg, pe.params[i], Reads(cfg, s, pe, i)));
    GroupSizeIs(pe.params, cfg.size);
  }

  lemma {:induction false} GroupSizeIs(ps: seq<int>, size: int -> nat)
    ensures GroupSize(ps, size) == Total(Sizes(ps, size))
  {
  }

  lemma {:induction false} ReadsLength(cfg: Config, s: Pipe, pe: Pending, i: nat)
    requires i < |pe.params| && InputOk(cfg, s, pe)
    ensures |Reads(cfg, s, pe, i)| == cfg.numel(pe.params[i])
  {
  }

  lemma {:induction false} FrontOfBlock(bs: seq<seq<real>>, i: nat, front: seq<real>)
    requires i < |bs| && front <= bs[i]
    ensures |Flatten(bs)| == Total(Lengths(bs)) && Off(Lengths(bs), i) + |front| <= |Flatten(bs)|
    ensures Flatten(bs)[Off(Lengths(bs), i)..Off(Lengths(bs), i) + |front|] == front
  {
    FlattenTotal(bs);
    FlattenBlock(bs, i);
    PrefixAt(Flatten(bs), Off(Lengths(bs), i), bs[i], |front|);
  }

  lemma {:induction false} BlockFront(cfg: Config, i: int, p: int, x: seq<real>, junk: Padding)
    requires |x| == cfg.numel(p)
    ensures ReceivedSlice(cfg, p, x) <= OutputBlock(cfg, i, p, x, junk)
    ensures |ReceivedSlice(cfg, p, x)| == cfg.Len(p)
  {
  }

  lemma {:induction false} PrefixAt(v: seq<real>, at: nat, block: seq<real>, len: nat)
    requires len <= |block| && at + |block| <= |v| && v[at..at + |block|] == block
    ensures v[at..at + len] == block[..len]
  {
    assert v[at..at + len] == v[at..at + |block|][..len];
  }

  lemma {:induction false} PutWhole(v: seq<real>, first: nat, x: seq<real>, at: nat, len: nat)
    requires first + |x| <= |v| && at + len <= |x|
    ensures Put(v, first, x)[first + at..first + at + len] == x[at..at + len]
  {
  }

  /** Completing, at whatever moment, keeps everything. */
  lemma {:induction false} CompleteKeeps(cfg: Config, b: Book, s: Pipe, junk: Padding)
    requires Inv(cfg, b, s) && s.pending.Some?
    ensures Inv(cfg, b, Complete(cfg, s, junk))
    ensures Complete(cfg, s, junk).micro == s.micro
  {
    var t := Complete(cfg, s, junk);
    if s.pending.value.flat.None? {
      forall i | 0 <= i < |s.pending.value.params| ensures SliceInv(cfg, b, t, i) {
        assert SliceInv(cfg, b, s, i);
        CompletePart(cfg, b, s, junk, i);
      }
      hide Complete, SliceInv, Collected, PendingOk;
      SameBucket(cfg, b, s, t);
      SameLanded(cfg, b, s, b, t);
    }
  }

  lemma {:induction false} SameBucket(cfg: Config, b: Book, s: Pipe, t: Pipe)
    requires BucketInv(cfg, b, s) && t.bucket == s.bucket && t.places == s.places && t.buffer == s.buffer
    ensures BucketInv(cfg, b, t)
  {
    forall i | 0 <= i < |t.bucket| ensures Collected(cfg, b, t, i) { assert Collected(cfg, b, s, i); }
  }

  // ------------------------------------------------------------------ landing

  /** Nothing will be added to what the parameter's place held before: it is the first micro step, the slice
      already is in its place, or the place held zeros. */
  predicate Clean(cfg: Config, grad0: seq<real>, s: Pipe, i: nat)
    requires s.pending.Some? && i < |s.pending.value.params|
    requires cfg.offset(s.pending.value.params[i]) + cfg.Len(s.pending.value.params[i]) <= |grad0|
  {
    var p := s.pending.value.params[i];
    s.micro == 0 || SamePlace(cfg, s.pending.value, i) || Seg(cfg, grad0, p) == seq(cfg.Len(p), _ => 0.0)
  }

  /** The state of taking the slices of the pending reduce-scatter, the first n taken. */
  ghost predicate Landing(cfg: Config, b: Book, s: Pipe, n: nat)
  {
    && BookOk(cfg, b) && Shaped(cfg, s) && PendingOk(cfg, s) && s.pending.value.flat.Some?
    && n <= |s.pending.value.params| && Distinct(s.pending.value.params)
    && LandedInv(cfg, b, s) && SetOf(s.pending.value.params[..n]) <= b.landed
    && (forall i :: n <= i < |s.pending.value.params| ==> s.pending.value.params[i] !in b.landed && SliceInv(cfg, b, s, i))
  }

  lemma {:induction false} NothingHereIsEmpty(cfg: Config, p: int)
    requires NothingHere(cfg, p)
    ensures cfg.Len(p) == 0
  {
    assert cfg.rank * cfg.size(p) == cfg.size(p) * cfg.rank;
    SliceGrows(cfg.numel(p), cfg.size(p), cfg.rank);
  }

  lemma {:induction false} PlusZero(x: seq<real>, n: nat)
    requires |x| == n
    ensures Plus(seq(n, _ => 0.0), x) == x
  {
  }

  /** What one turn puts into the parameter's place. */
  lemma {:induction false} LandOneValue(cfg: Config, b: Book, s: Pipe, n: nat)
    requires Landing(cfg, b, s, n) && n < |s.pending.value.params|
    requires s.pending.value.params[n] in cfg.params
    requires var p := s.pending.value.params[n];
             cfg.offset(p) + cfg.Len(p) <= cfg.total && Clean(cfg, s.grad, s, n)
    ensures var p, t := s.pending.value.params[n], LandOne(cfg, s, n);
            && cfg.offset(p) + cfg.Len(p) <= |t.fp32|
            && Seg(cfg, t.fp32, p) == Expected(cfg, b, p)
            && (NothingHere(cfg, p) || SamePlace(cfg, s.pending.value, n) ==> t.grad == s.grad)
            && (t.fp32 == s.fp32 || t.fp32 == Put(s.fp32, cfg.offset(p), Expected(cfg, b, p)))
            && (t.grad == s.grad || t.grad == Put(s.grad, cfg.offset(p), Expected(cfg, b, p)))
  {
    var p := s.pending.value.params[n];
    assert SliceInv(cfg, b, s, n);
    hide PendingOk, LandedInv, Slice, ReceivedSlice, Divided;
    if NothingHere(cfg, p) {
      NothingHereIsEmpty(cfg, p);
    } else {
      LandGrad(cfg, s, n);
      PutReads(s.fp32, cfg.offset(p), Part(cfg, s, n), cfg.offset(p), cfg.Len(p));
    }
  }

  /** The parameter's place in the fp16 buffer afterwards. */
  lemma {:induction false} LandGrad(cfg: Config, s: Pipe, n: nat)
    requires cfg.Ok() && Shaped(cfg, s) && PendingOk(cfg, s) && s.pending.value.flat.Some?
    requires n < |s.pending.value.params| && s.pending.value.params[n] in cfg.params
    requires var p := s.pending.value.params[n];
             !NothingHere(cfg, p) && cfg.offset(p) + cfg.Len(p) <= cfg.total && Clean(cfg, s.grad, s, n)
    ensures var p, t := s.pending.value.params[n], LandOne(cfg, s, n);
            && t.fp32 == Put(s.fp32, cfg.offset(p), Part(cfg, s, n))
            && t.grad == if SamePlace(cfg, s.pending.value, n) then s.grad else Put(s.grad, cfg.offset(p), Part(cfg, s, n))
  {
    LandedGradIs(cfg, s, n);
    hide LandedGrad, Part, PendingOk, SamePlace, Put, Shaped, Clean, Seg;
  }

  lemma {:induction false} LandedGradIs(cfg: Config, s: Pipe, n: nat)
    requires cfg.Ok() && Shaped(cfg, s) && PendingOk(cfg, s) && s.pending.value.flat.Some?
    requires n < |s.pending.value.params|
    requires var p := s.pending.value.params[n];
             cfg.offset(p) + cfg.Len(p) <= cfg.total && Clean(cfg, s.grad, s, n)
    ensures var p, grad := s.pending.value.params[n], LandedGrad(cfg, s, n);
            && grad == (if SamePlace(cfg, s.pending.value, n) then s.grad else Put(s.grad, cfg.offset(p), Part(cfg, s, n)))
            && Seg(cfg, grad, p) == Part(cfg, s, n)
  {
    var p, x := s.pending.value.params[n], Part(cfg, s, n);
    if SamePlace(cfg, s.pending.value, n) {
      PartInPlace(cfg, s, n);
    } else {
      hide Part, PendingOk, SamePlace, Put, Config.Ok;
      if s.micro != 0 { PlusZero(x, cfg.Len(p)); }
      PutReads(s.grad, cfg.offset(p), x, cfg.offset(p), cfg.Len(p));
    }
  }

  lemma {:induction false} PartInPlace(cfg: Config, s: Pipe, n: nat)
    requires PendingOk(cfg, s) && s.pending.value.flat.Some? && n < |s.pending.value.params|
    requires SamePlace(cfg, s.pending.value, n)
    ensures cfg.offset(s.pending.value.params[n]) + cfg.Len(s.pending.value.params[n]) <= |s.grad|
    ensures Part(cfg, s, n) == Seg(cfg, s.grad, s.pending.value.params[n])
  {
    PartInside(cfg, s.pending.value, n);
  }

  lemma {:induction false} LandOthers(cfg: Config, b: Book, s: Pipe, n: nat, p: int)
    requires Landing(cfg, b, s, n) && n < |s.pending.value.params|
    requires var q := s.pending.value.params[n];
             q in cfg.params && cfg.offset(q) + cfg.Len(q) <= cfg.total && Clean(cfg, s.grad, s, n)
    requires p in b.landed
    ensures LandedAt(cfg, b, LandOne(cfg, s, n), p)
  {
    var q := s.pending.value.params[n];
    LandOneValue(cfg, b, s, n);
    assert LandedAt(cfg, b, s, p);
    hide LandOne, ReceivedSlice, Divided, Slice, PendingOk, SliceInv, Put, Clean, LandedInv, LandedAt, Seg, Part;
    OtherPlace(cfg, b, s, LandOne(cfg, s, n), q, p, Expected(cfg, b, q));
  }

  lemma {:induction false} OtherPlace(cfg: Config, b: Book, s: Pipe, t: Pipe, q: int, p: int, x: seq<real>)
    requires BookOk(cfg, b) && Shaped(cfg, s) && Shaped(cfg, t) && LandedAt(cfg, b, s, p)
    requires p in cfg.params && q in cfg.params && p != q && |x| == cfg.Len(q) && cfg.offset(q) + cfg.Len(q) <= cfg.total
    requires t.fp32 == s.fp32 || t.fp32 == Put(s.fp32, cfg.offset(q), x)
    ensures LandedAt(cfg, b, t, p)
  {
    Apart(cfg, p, q);
    LenFits(cfg, p);
    PutReads(s.fp32, cfg.offset(q), x, cfg.offset(p), cfg.Len(p));
    hide Expected;
  }

  lemma {:induction false} LandOutside(cfg: Config, b: Book, s: Pipe, n: nat, j: int)
    requires Landing(cfg, b, s, n) && n < |s.pending.value.params|
    requires var q := s.pending.value.params[n];
             q in cfg.params && cfg.offset(q) + cfg.Len(q) <= cfg.total && Clean(cfg, s.grad, s, n)
    requires 0 <= j < cfg.total && !Covers(cfg, b.landed + {s.pending.value.params[n]}, j)
    ensures LandOne(cfg, s, n).fp32[j] == b.fp0[j]
  {
    var q := s.pending.value.params[n];
    LandOneValue(cfg, b, s, n);
    assert !Covers(cfg, b.landed, j);
    assert q in b.landed + {q};
    assert |Expected(cfg, b, q)| == cfg.Len(q);
  }

  lemma {:induction false} LandSlices(cfg: Config, b: Book, s: Pipe, n: nat, i: nat)
    requires Landing(cfg, b, s, n) && n < i < |s.pending.value.params|
    requires var q := s.pending.value.params[n];
             q in cfg.params && cfg.offset(q) + cfg.Len(q) <= cfg.total && Clean(cfg, s.grad, s, n)
    ensures PendingOk(cfg, LandOne(cfg, s, n)) && SliceInv(cfg, b, LandOne(cfg, s, n), i)
  {
    LandOneValue(cfg, b, s, n);
    assert SliceInv(cfg, b, s, n) && SliceInv(cfg, b, s, i);
    StillPending(cfg, s, LandOne(cfg, s, n));
    hide LandOne, PendingOk, Part, ReceivedSlice, Seg;
    SliceFrame(cfg, b, s, b, LandOne(cfg, s, n), i);
  }

  lemma {:induction false} StillPending(cfg: Config, s: Pipe, t: Pipe)
    requires PendingOk(cfg, s) && t.pending == s.pending && t.buffer == s.buffer && |t.grad| == |s.grad|
    ensures PendingOk(cfg, t)
    ensures forall i :: 0 <= i < |s.pending.value.params| ==>
              Reads(cfg, t, s.pending.value, i) == Reads(cfg, s, s.pending.value, i)
  {
  }

  lemma {:induction false} LandOneKeeps(cfg: Config, b: Book, s: Pipe, n: nat)
    requires Landing(cfg, b, s, n) && n < |s.pending.value.params|
    requires var p := s.pending.value.params[n];
             p in cfg.params && cfg.offset(p) + cfg.Len(p) <= cfg.total && Clean(cfg, s.grad, s, n)
    ensures Landing(cfg, b.(landed := b.landed + {s.pending.value.params[n]}), LandOne(cfg, s, n), n + 1)
  {
    var p := s.pending.value.params[n];
    var c, t := b.(landed := b.landed + {p}), LandOne(cfg, s, n);
    assert SliceInv(cfg, b, s, n);
    LandedGrows(cfg, b, s, n);
    StillPending(cfg, s, t);
    SetOfNext(s.pending.value.params, n);
    forall i | n + 1 <= i < |s.pending.value.params|
      ensures s.pending.value.params[i] !in c.landed && SliceInv(cfg, c, t, i)
    {
      LandSlices(cfg, b, s, n, i);
      SliceFrame(cfg, b, t, c, t, i);
    }
    hide LandOne, SliceInv, LandedInv, PendingOk;
  }

  lemma {:induction false} LandedGrows(cfg: Config, b: Book, s: Pipe, n: nat)
    requires Landing(cfg, b, s, n) && n < |s.pending.value.params|
    requires var p := s.pending.value.params[n];
             p in b.grads && p in cfg.params && cfg.offset(p) + cfg.Len(p) <= cfg.total && Clean(cfg, s.grad, s, n)
    ensures LandedInv(cfg, b.(landed := b.landed + {s.pending.value.params[n]}), LandOne(cfg, s, n))
  {
    var p := s.pending.value.params[n];
    var c, t := b.(landed := b.landed + {p}), LandOne(cfg, s, n);
    LandOneValue(cfg, b, s, n);
    hide LandOne, PendingOk, SliceInv, Clean, Put;
    forall q | q in c.landed ensures LandedAt(cfg, c, t, q) {
      if q != p { LandOthers(cfg, b, s, n, q); assert LandedAt(cfg, b, t, q); }
    }
    forall j | 0 <= j < cfg.total && !Covers(cfg, c.landed, j) ensures t.fp32[j] == c.fp0[j] {
      LandOutside(cfg, b, s, n, j);
    }
    hide LandedAt, Covers;
  }

  // ----------------------------------------------------- the whole landing

  lemma {:induction false} CleanKeeps(cfg: Config, b: Book, s: Pipe, n: nat, i: nat)
    requires Landing(cfg, b, s, n) && n < i < |s.pending.value.params|
    requires forall k :: n <= k < |s.pending.value.params| ==>
               && s.pending.value.params[k] in cfg.params
               && cfg.offset(s.pending.value.params[k]) + cfg.Len(s.pending.value.params[k]) <= cfg.total
               && Clean(cfg, s.grad, s, k)
    ensures Clean(cfg, LandOne(cfg, s, n).grad, LandOne(cfg, s, n), i)
  {
    var p, q, t := s.pending.value.params[n], s.pending.value.params[i], LandOne(cfg, s, n);
    assert SliceInv(cfg, b, s, n) && Clean(cfg, s.grad, s, i);
    LandOneValue(cfg, b, s, n);
    assert p != q && |Expected(cfg, b, p)| == cfg.Len(p);
    hide LandOne, PendingOk, Put, Divided, Slice, Expected, LandedInv, SliceInv, Seg, Clean, Part, Landing;
    SegFrame(cfg, s.grad, t.grad, p, q, Expected(cfg, b, p));
    CleanFrame(cfg, s, t, i);
  }

  lemma {:induction false} SegFrame(cfg: Config, v: seq<real>, w: seq<real>, p: int, q: int, x: seq<real>)
    requires cfg.Ok() && p in cfg.params && q in cfg.params && p != q && |v| == cfg.total && |x| == cfg.Len(p)
    requires cfg.offset(p) + cfg.Len(p) <= cfg.total && cfg.offset(q) + cfg.Len(q) <= cfg.total
    requires w == v || w == Put(v, cfg.offset(p), x)
    ensures Seg(cfg, w, q) == Seg(cfg, v, q)
  {
    Apart(cfg, p, q);
    PutReads(v, cfg.offset(p), x, cfg.offset(q), cfg.Len(q));
  }

  lemma {:induction false} CleanFrame(cfg: Config, s: Pipe, t: Pipe, i: nat)
    requires s.pending.Some? && t.pending == s.pending && t.micro == s.micro && i < |s.pending.value.params|
    requires var q := s.pending.value.params[i];
             && cfg.offset(q) + cfg.Len(q) <= |s.grad| == |t.grad|
             && Seg(cfg, t.grad, q) == Seg(cfg, s.grad, q)
    requires Clean(cfg, s.grad, s, i)
    ensures Clean(cfg, t.grad, t, i)
  {
  }

  /** The pending slices may be taken. */
  ghost predicate AllClean(cfg: Config, s: Pipe)
  {
    s.pending.Some? ==> forall i :: 0 <= i < |s.pending.value.params| ==>
      && cfg.offset(s.pending.value.params[i]) + cfg.Len(s.pending.value.params[i]) <= |s.grad|
      && Clean(cfg, s.grad, s, i)
  }

  ghost predicate CleanFrom(cfg: Config, s: Pipe, n: nat)
    requires s.pending.Some?
  {
    forall k :: n <= k < |s.pending.value.params| ==>
      && s.pending.value.params[k] in cfg.params
      && cfg.offset(s.pending.value.params[k]) + cfg.Len(s.pending.value.params[k]) <= |s.grad| == cfg.total
      && Clean(cfg, s.grad, s, k)
  }

  lemma {:induction false} CleanNext(cfg: Config, b: Book, s: Pipe, n: nat)
    requires Landing(cfg, b, s, n) && n < |s.pending.value.params| && CleanFrom(cfg, s, n)
    ensures CleanFrom(cfg, LandOne(cfg, s, n), n + 1)
  {
    forall k | n + 1 <= k < |s.pending.value.params| ensures Clean(cfg, LandOne(cfg, s, n).grad, LandOne(cfg, s, n), k) {
      CleanKeeps(cfg, b, s, n, k);
    }
    hide LandOne, Clean, PendingOk, LandedInv, SliceInv;
  }

  function Took(b: Book, ps: seq<int>): Book
  {
    b.(landed := b.landed + SetOf(ps))
  }

  lemma {:induction false} LandKeeps(cfg: Config, b: Book, s: Pipe, n: nat)
    requires Landing(cfg, b, s, 0) && n <= |s.pending.value.params| && CleanFrom(cfg, s, 0)
    ensures Landing(cfg, Took(b, s.pending.value.params[..n]), Land(cfg, s, n), n)
    ensures CleanFrom(cfg, Land(cfg, s, n), n)
    decreases n
  {
    hide *;
    LandIs(cfg, b, s, n);
    if n > 0 {
      LandKeeps(cfg, b, s, n - 1);
      CleanAt(cfg, Land(cfg, s, n - 1), n - 1);
      LandOneKeeps(cfg, Took(b, s.pending.value.params[..n - 1]), Land(cfg, s, n - 1), n - 1);
      CleanNext(cfg, Took(b, s.pending.value.params[..n - 1]), Land(cfg, s, n - 1), n - 1);
    }
  }

  lemma {:induction false} CleanAt(cfg: Config, s: Pipe, n: nat)
    requires s.pending.Some? && n < |s.pending.value.params| && CleanFrom(cfg, s, n)
    ensures var p := s.pending.value.params[n];
            && p in cfg.params && cfg.offset(p) + cfg.Len(p) <= |s.grad| == cfg.total && Clean(cfg, s.grad, s, n)
  {
  }

  lemma {:induction false} LandIs(cfg: Config, b: Book, s: Pipe, n: nat)
    requires Landing(cfg, b, s, 0) && n <= |s.pending.value.params| && CleanFrom(cfg, s, 0)
    ensures cfg.Ok() && Shaped(cfg, s) && PendingOk(cfg, s) && s.pending.Some? && s.pending.value.flat.Some?
    ensures forall i :: 0 <= i < |s.pending.value.params| ==> s.pending.value.params[i] in cfg.params
    ensures var ps := s.pending.value.params;
            && (n == 0 ==> Land(cfg, s, n) == s && Took(b, ps[..0]) == b)
            && (n > 0 ==> Land(cfg, s, n) == LandOne(cfg, Land(cfg, s, n - 1), n - 1)
                          && Took(b, ps[..n]) == Took(b, ps[..n - 1]).(landed := Took(b, ps[..n - 1]).landed + {ps[n - 1]}))
  {
    hide LandOne, LandedInv, SliceInv, Clean;
    TookNext(b, s.pending.value.params, n);
    assert n > 0 ==> Land(cfg, s, n) == LandOne(cfg, Land(cfg, s, n - 1), n - 1);
    hide Took, PendingOk;
  }

  lemma {:induction false} TookNext(b: Book, ps: seq<int>, n: nat)
    requires n <= |ps|
    ensures Took(b, ps[..0]) == b
    ensures n > 0 ==> Took(b, ps[..n]) == Took(b, ps[..n - 1]).(landed := Took(b, ps[..n - 1]).landed + {ps[n - 1]})
  {
    if n > 0 { SetOfNext(ps, n - 1); }
    assert SetOf(ps[..0]) == {};
  }

  lemma {:induction false} InvParams(cfg: Config, b: Book, s: Pipe)
    requires Inv(cfg, b, s)
    ensures CanWait(cfg, s)
    ensures s.pending.Some? ==> forall i :: 0 <= i < |s.pending.value.params| ==>
              s.pending.value.params[i] in b.grads && s.pending.value.params[i] in cfg.params
  {
    if s.pending.Some? {
      forall i | 0 <= i < |s.pending.value.params|
        ensures s.pending.value.params[i] in b.grads && s.pending.value.params[i] in cfg.params
      {
        assert SliceInv(cfg, b, s, i);
        assert s.pending.value.params[i] in b.grads.Keys;
      }
    }
  }

  /** Once it has completed, the pending reduce-scatter is ready to be taken. */
  lemma {:induction false} ReadyToLand(cfg: Config, b: Book, s: Pipe)
    requires Inv(cfg, b, s) && s.pending.Some? && s.pending.value.flat.Some?
    ensures Landing(cfg, b, s, 0)
  {
    var ps := s.pending.value.params;
    forall i | 0 <= i < |ps| ensures ps[i] !in b.landed {
      assert ps[i] in SetOf(ps);
    }
    assert SetOf(ps[..0]) == {};
  }

  lemma {:induction false} CompletedClean(cfg: Config, b: Book, s: Pipe, junk: Padding)
    requires Inv(cfg, b, s) && s.pending.Some? && AllClean(cfg, s)
    ensures CleanFrom(cfg, Complete(cfg, s, junk), 0)
  {
    InvParams(cfg, b, s);
    var pe, t := s.pending.value, Complete(cfg, s, junk);
    forall k | 0 <= k < |pe.params| ensures Clean(cfg, t.grad, t, k) {
      assert SliceInv(cfg, b, s, k) && Clean(cfg, s.grad, s, k);
      SamePlaceKept(cfg, pe, t.pending.value, k);
    }
    hide Complete, PendingInv, Clean, Accounted, BucketInv, LandedInv;
  }

  lemma {:induction false} SamePlaceKept(cfg: Config, a: Pending, b: Pending, i: nat)
    requires b.params == a.params && b.output == a.output && i < |a.params|
    ensures SamePlace(cfg, a, i) == SamePlace(cfg, b, i)
  {
  }

  /** Waiting for the pending reduce-scatter and taking its slices moves its parameters to the landed ones. */
  lemma {:induction false} FlushKeeps(cfg: Config, b: Book, s: Pipe, junk: Padding)
    requires Inv(cfg, b, s) && AllClean(cfg, s)
    ensures CanWait(cfg, s)
    ensures Inv(cfg, Took(b, PendingParams(s)), Flush(cfg, s, junk))
  {
    InvParams(cfg, b, s);
    hide *;
    FlushIs(cfg, b, s, junk);
    if s.pending.None? {
    } else {
      var ps := s.pending.value.params;
      CompleteKeeps(cfg, b, s, junk);
      ReadyToLand(cfg, b, Complete(cfg, s, junk));
      CompletedClean(cfg, b, s, junk);
      LandKeeps(cfg, b, Complete(cfg, s, junk), |ps|);
      LandingEnds(cfg, Took(b, ps), Land(cfg, Complete(cfg, s, junk), |ps|), |ps|);
      FlushAccounts(cfg, b, s, Took(b, ps), Flush(cfg, s, junk));
    }
  }

  lemma {:induction false} LandingEnds(cfg: Config, b: Book, s: Pipe, n: nat)
    requires Landing(cfg, b, s, n)
    ensures BookOk(cfg, b) && Shaped(cfg, s) && LandedInv(cfg, b, s.(pending := None))
  {
    hide LandedAt, SliceInv, PendingOk;
    SameLanded(cfg, b, s, b, s.(pending := None));
  }

  lemma {:induction false} FlushIs(cfg: Config, b: Book, s: Pipe, junk: Padding)
    requires CanWait(cfg, s)
    ensures cfg.Ok() && Shaped(cfg, s)
    ensures s.pending.None? ==> Flush(cfg, s, junk) == s && PendingParams(s) == [] && Took(b, []) == b
    ensures s.pending.Some? ==>
      var ps, t := s.pending.value.params, Complete(cfg, s, junk);
      && PendingParams(s) == ps && ps[..|ps|] == ps
      && PendingOk(cfg, s) && t.pending.Some? && t.pending.value.params == ps && t.pending.value.flat.Some?
      && (forall i :: 0 <= i < |ps| ==> ps[i] in cfg.params)
      && PendingOk(cfg, t) && Shaped(cfg, t)
      && Flush(cfg, s, junk) == Land(cfg, t, |ps|).(pending := None)
      && Flush(cfg, s, junk) == s.(grad := Flush(cfg, s, junk).grad, fp32 := Flush(cfg, s, junk).fp32, pending := None)
      && Shaped(cfg, Flush(cfg, s, junk))
  {
    hide Complete, Land, PendingOk;
    assert SetOf<int>([]) == {};
  }

  lemma {:induction false} FlushAccounts(cfg: Config, b: Book, s: Pipe, c: Book, t: Pipe)
    requires Inv(cfg, b, s) && c == Took(b, PendingParams(s))
    requires t == s.(grad := t.grad, fp32 := t.fp32, pending := None) && Shaped(cfg, t)
    requires LandedInv(cfg, c, t)
    ensures Inv(cfg, c, t)
  {
    hide LandedInv, PendingOk, SliceInv;
    assert SetOf(PendingParams(t)) == {};
    forall i | 0 <= i < |t.bucket| ensures Collected(cfg, c, t, i) { assert Collected(cfg, b, s, i); }
    hide Collected;
  }

  // --------------------------------------------------------------- submitting

  ghost predicate Rising(cfg: Config, ps: seq<int>)
  {
    forall i, j :: 0 <= i < j < |ps| ==> cfg.offset(ps[i]) + cfg.size(ps[i]) <= cfg.offset(ps[j])
  }

  lemma {:induction false} RisingFront(cfg: Config, ps: seq<int>, i: nat)
    requires Rising(cfg, ps) && i < |ps|
    ensures cfg.offset(ps[0]) + Off(Sizes(ps, cfg.size), i) <= cfg.offset(ps[i])
    decreases i
  {
    if i > 0 { RisingFront(cfg, ps, i - 1); }
  }

  lemma {:induction false} RisingBack(cfg: Config, ps: seq<int>, i: nat)
    requires Rising(cfg, ps) && i < |ps|
    ensures cfg.offset(ps[i]) + (GroupSize(ps, cfg.size) - Off(Sizes(ps, cfg.size), i))
         <= cfg.offset(ps[|ps| - 1]) + cfg.size(ps[|ps| - 1])
    decreases |ps| - i
  {
    if i < |ps| - 1 {
      RisingBack(cfg, ps, i + 1);
      assert Off(Sizes(ps, cfg.size), i + 1) == Off(Sizes(ps, cfg.size), i) + cfg.size(ps[i]);
    }
  }

  /** The contiguity test is sound when the shards lie in the order the bucket lists them: every slice of the output is
      then exactly its parameter's place. */
  lemma {:induction false} ContiguousIsAligned(cfg: Config, ps: seq<int>, i: nat)
    requires ps != [] && Rising(cfg, ps) && LooksContiguous(cfg, ps) && i < |ps|
    ensures cfg.offset(ps[0]) + Off(Sizes(ps, cfg.size), i) == cfg.offset(ps[i])
  {
    RisingFront(cfg, ps, i);
    RisingBack(cfg, ps, i);
  }

  lemma {:induction false} SortedBucket(cfg: Config, b: Book, s: Pipe)
    requires Inv(cfg, b, s)
    ensures var ps := Sorted(SetOf(s.bucket));
            && SetOf(ps) == SetOf(s.bucket) && Ascending(ps)
            && (s.bucket != [] ==> ps != [])
            && forall i :: 0 <= i < |ps| ==>
                 && ps[i] in cfg.params && ps[i] in b.grads && PlaceOk(cfg, s, ps[i])
                 && Content(cfg, s, ps[i]) == b.grads[ps[i]]
  {
    var ps := Sorted(SetOf(s.bucket));
    SortedAscends(SetOf(s.bucket));
    forall p ensures p in SetOf(ps) <==> p in SetOf(s.bucket) { SortedMember(SetOf(s.bucket), p); }
    if s.bucket != [] { SortedFull(s.bucket); }
    forall i | 0 <= i < |ps|
      ensures ps[i] in cfg.params && ps[i] in b.grads && PlaceOk(cfg, s, ps[i]) && Content(cfg, s, ps[i]) == b.grads[ps[i]]
    {
      var p := ps[i];
      assert p in SetOf(ps);
      var k :| 0 <= k < |s.bucket| && s.bucket[k] == p;
      assert Collected(cfg, b, s, k);
      assert p in b.grads.Keys;
    }
  }

  lemma {:induction false} BucketRises(cfg: Config, ps: seq<int>)
    requires cfg.Ascends() && Ascending(ps) && forall i :: 0 <= i < |ps| ==> ps[i] in cfg.params
    ensures Rising(cfg, ps)
  {
  }
}
