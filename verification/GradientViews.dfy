/** Exactly which models are safe from overwriting a view that has not been read. */
module GradientViews {
  import opened Prelude
  import opened Blocks
  import opened ReduceScatter
  import opened SubGroups
  import opened GradientSpec
  import opened GradientRuns
  import opened GradientTheorems

  /** Two parameters that fit the bucket buffer singly but not together, the first evenly divisible by the ranks. */
  ghost predicate Clash(cfg: Config, p: int, q: int)
    requires cfg.world > 0
  {
    && p in cfg.params && q in cfg.params && p != q
    && 0 < cfg.numel(p) < cfg.bucketSize && 0 < cfg.numel(q) < cfg.bucketSize
    && cfg.numel(p) % cfg.world == 0 && cfg.numel(p) + cfg.numel(q) > cfg.bucketSize
  }

  ghost predicate ClashFree(cfg: Config)
    requires cfg.world > 0
  {
    forall p, q :: !Clash(cfg, p, q)
  }

  /** Copied gradients are smaller than the buffer; while a view is unread during backward, the bucket is full. */
  ghost predicate ViewInv(cfg: Config, s: Pipe)
  {
    && (forall p :: p in s.bucket && p in s.places && s.places[p].InBucket? ==> cfg.numel(p) < cfg.bucketSize)
    && (s.micro == 0 && UnreadView(cfg, s) ==> Elements(cfg, s.bucket) >= cfg.bucketSize)
  }

  predicate UnreadView(cfg: Config, s: Pipe)
  {
    && s.pending.Some? && s.pending.value.flat.None? && s.pending.value.input.View?
    && |s.pending.value.params| == 1 && cfg.numel(s.pending.value.params[0]) > 0
  }

  /** With a full bucket nothing is copied. */
  lemma {:induction false} FullIsSafe(cfg: Config, s: Pipe, p: int)
    requires UnreadView(cfg, s) ==> Elements(cfg, s.bucket) >= cfg.bucketSize
    ensures !Overwrites(cfg, s, p)
  {
    hide Elements;
  }

  // ---------------------------------------------------------------- submitting

  /** What the deferred version submits: the whole bucket, as a view only if it is one small divisible gradient. */
  lemma {:induction false} ReducedView(cfg: Config, s: Pipe, junk: Padding)
    requires CanWait(cfg, s) && Placed(cfg, s, Sorted(SetOf(s.bucket))) && s.bucket != []
    requires Distinct(s.bucket) && ViewInv(cfg, s)
    ensures var u := Reduce(cfg, s, junk);
            && u.bucket == [] && u.places == s.places && u.micro == s.micro
            && (UnreadView(cfg, u) ==>
                  |s.bucket| == 1 && 0 < cfg.numel(s.bucket[0]) < cfg.bucketSize && cfg.numel(s.bucket[0]) % cfg.world == 0)
  {
    FlushShape(cfg, s, junk);
    var t := Flush(cfg, s, junk);
    var ps := Sorted(SetOf(s.bucket));
    SortedFull(s.bucket);
    if |ps| == 1 { OneOfBucket(s.bucket); }
    assert Reduce(cfg, s, junk) == Submit(cfg, t);
    hide Flush, Sorted, SetOf, Target, Divided, DividedContents, Placed, PlaceOk, Put;
  }

  lemma {:induction false} DistinctCount(xs: seq<int>)
    requires Distinct(xs)
    ensures |SetOf(xs)| == |xs|
    decreases |xs|
  {
    if xs == [] {
      assert SetOf(xs) == {};
    } else {
      var n := |xs| - 1;
      DistinctCount(xs[..n]);
      SetOfNext(xs, n);
      DistinctPrefix(xs, n);
      assert xs[..n + 1] == xs;
    }
  }

  lemma {:induction false} OneOfBucket(bucket: seq<int>)
    requires Distinct(bucket) && |Sorted(SetOf(bucket))| == 1
    ensures |bucket| == 1 && Sorted(SetOf(bucket)) == [bucket[0]]
  {
    SortedLength(SetOf(bucket));
    DistinctCount(bucket);
    SortedOne(bucket[0]);
    assert bucket == [bucket[0]];
  }

  lemma {:induction false} SortedOne(p: int)
    ensures Sorted(SetOf([p])) == [p]
  {
    assert SetOf([p]) == {p} && {p} - {p} == {};
    assert Least({p}) in {p};
  }

  // -------------------------------------------------------------------- events

  lemma {:induction false} StartSafe(cfg: Config, s: Pipe)
    requires Started(cfg, s)
    ensures ViewInv(cfg, s)
  {
  }

  /** The pipeline when q is added: nothing unread is overwritten, and it stays so. */
  lemma {:induction false} ReadySafe(cfg: Config, b: Book, s: Pipe, q: int, junk: Padding)
    requires Consistent(cfg, true, b, s) && s.micro == 0 && ViewInv(cfg, s) && ClashFree(cfg)
    requires q in cfg.params && q !in b.grads
    ensures var u := Ready(cfg, true, b, s, q, junk);
            && u.micro == 0 && !Overwrites(cfg, u, q)
            && (forall p :: p in u.bucket && p in u.places && u.places[p].InBucket? ==> cfg.numel(p) < cfg.bucketSize)
            && (UnreadView(cfg, u) ==> Elements(cfg, u.bucket) + cfg.numel(q) >= cfg.bucketSize)
  {
    EmptyKeeps(cfg, true, b, s, junk);
    ReadyParts(cfg, b, s);
    if Overflows(cfg, s, q) {
      assert s.bucket != [] by { assert Elements(cfg, []) == 0; }
      ReducedView(cfg, s, junk);
      var u := Reduce(cfg, s, junk);
      assert Ready(cfg, true, b, s, q, junk) == u;
      if UnreadView(cfg, u) {
        SingleBucket(cfg, s.bucket);
        assert !Clash(cfg, s.bucket[0], q);
      }
      hide Inv, Reduce, CanEmpty;
    } else {
      FullIsSafe(cfg, s, q);
      hide Inv, Empty, CanEmpty, Elements;
    }
  }

  lemma {:induction false} SingleBucket(cfg: Config, bucket: seq<int>)
    requires |bucket| == 1
    ensures Elements(cfg, bucket) == cfg.numel(bucket[0]) && Elements(cfg, []) == 0
  {
    GroupSizeOne([], bucket[0], cfg.numel);
    assert [] + [bucket[0]] == bucket;
  }

  lemma {:induction false} ReadyParts(cfg: Config, b: Book, s: Pipe)
    requires Inv(cfg, b, s)
    ensures Distinct(s.bucket) && cfg.world > 0 && CanWait(cfg, s)
    ensures forall p :: p in s.bucket ==> p in cfg.params && p in b.grads
  {
    EmptyFacts(cfg, b, s);
    forall p | p in s.bucket ensures p in cfg.params && p in b.grads { assert p in SetOf(s.bucket); }
    hide BucketInv, PendingInv, LandedInv, CanWait;
  }

  lemma {:induction false} AddSafe(cfg: Config, u: Pipe, q: int, g: seq<real>)
    requires |u.buffer| == cfg.bucketSize && |g| == cfg.numel(q)
    requires forall p :: p in u.bucket && p in u.places && u.places[p].InBucket? ==> cfg.numel(p) < cfg.bucketSize
    requires UnreadView(cfg, u) ==> Elements(cfg, u.bucket) + cfg.numel(q) >= cfg.bucketSize
    ensures ViewInv(cfg, Add(cfg, u, q, g))
  {
    GroupSizeOne(u.bucket, q, cfg.numel);
    hide GroupSize, Put;
  }

  lemma {:induction false} HookSafe(cfg: Config, b: Book, s: Pipe, e: Event)
    requires Consistent(cfg, true, b, s) && Guard(cfg, true, b, s, e) && ViewInv(cfg, s) && ClashFree(cfg) && e.Hook?
    ensures ViewInv(cfg, After(cfg, true, b, s, e).pipe)
  {
    ReadySafe(cfg, b, s, e.p, e.junk);
    AddSafe(cfg, Ready(cfg, true, b, s, e.p, e.junk), e.p, e.g);
    hide ViewInv, Add, Ready, Inv, Overwrites, Emptied, Overflows;
  }

  lemma {:induction false} OtherSafe(cfg: Config, b: Book, s: Pipe, e: Event)
    requires Consistent(cfg, true, b, s) && Guard(cfg, true, b, s, e) && ViewInv(cfg, s) && !e.Hook?
    ensures ViewInv(cfg, After(cfg, true, b, s, e).pipe)
  {
    OtherBucket(cfg, true, b, s, e);
    InvParams(cfg, b, s);
    if e.EndBackward? { EmptyKeeps(cfg, true, b, s, e.junk); }
    hide Inv, Empty, CanEmpty, Elements;
  }

  /** In a model without clashes every pass is safe up to now. */
  lemma {:induction false} PassSafe(cfg: Config, start: Pipe, es: seq<Event>)
    requires Started(cfg, start) && Pass(cfg, true, start, es).Some? && cfg.world > 0 && ClashFree(cfg)
    ensures ViewInv(cfg, Pass(cfg, true, start, es).value.pipe)
    decreases |es|
  {
    hide *;
    if es == [] {
      StartSafe(cfg, start);
      PassStarts(cfg, start);
    } else {
      var front, e := es[..|es| - 1], es[|es| - 1];
      PassTo(cfg, true, start, es);
      PassSafe(cfg, start, front);
      var r := Pass(cfg, true, start, front).value;
      if e.Hook? { HookSafe(cfg, r.book, r.pipe, e); } else { OtherSafe(cfg, r.book, r.pipe, e); }
    }
  }

  lemma {:induction false} PassStarts(cfg: Config, start: Pipe)
    requires Started(cfg, start)
    ensures Pass(cfg, true, start, []) == Some(Progress(Book(map[], {}, start.grad, start.fp32), start))
  {
  }

  // ------------------------------------------------------------------- the clash

  /** After this pass, the hook of q overwrites what an unfinished reduce-scatter still has to read. */
  ghost predicate OverwritesAfter(cfg: Config, start: Pipe, es: seq<Event>, q: int, junk: Padding)
  {
    && Started(cfg, start) && Pass(cfg, true, start, es).Some?
    && var r := Pass(cfg, true, start, es).value;
       && r.pipe.micro == 0 && q in cfg.params && q !in r.book.grads
       && Overwrites(cfg, Ready(cfg, true, r.book, r.pipe, q, junk), q)
  }

  lemma {:induction false} SafeAfter(cfg: Config, start: Pipe, es: seq<Event>, q: int, junk: Padding)
    requires cfg.world > 0 && ClashFree(cfg)
    ensures !OverwritesAfter(cfg, start, es, q, junk)
  {
    if OverwritesAfter(cfg, start, es, q, junk) {
      var r := Pass(cfg, true, start, es).value;
      PassSafe(cfg, start, es);
      hide Pass, Started, Consistent, Overwrites, Ready, ViewInv, ClashFree;
      ReadySafe(cfg, r.book, r.pipe, q, junk);
    }
  }

  function Zero(n: nat): seq<real> { seq(n, _ => 0.0) }

  function Fresh0(cfg: Config): Pipe
  {
    Pipe([], map[], Zero(cfg.bucketSize), None, Zero(cfg.total), Zero(cfg.total), 0)
  }

  /** The hook of p at the very beginning of a pass. */
  lemma {:induction false} CollectsFirst(cfg: Config, p: int, junk: Padding)
    requires cfg.Ok() && (cfg.direct ==> cfg.Ascends()) && p in cfg.params && cfg.numel(p) < cfg.bucketSize
    ensures Started(cfg, Fresh0(cfg)) && Pass(cfg, true, Fresh0(cfg), [Hook(p, Zero(cfg.numel(p)), junk)]).Some?
    ensures var r := Pass(cfg, true, Fresh0(cfg), [Hook(p, Zero(cfg.numel(p)), junk)]).value;
            && r.pipe.micro == 0 && r.pipe.bucket == [p] && r.pipe.places == map[p := InBucket(0)] && r.pipe.pending.None?
            && r.book.grads.Keys == {p} && Consistent(cfg, true, r.book, r.pipe)
  {
    var s := Fresh0(cfg);
    FirstEvent(cfg, s, Hook(p, Zero(cfg.numel(p)), junk));
    assert Elements(cfg, []) == 0;
    hide Pass, Inv, Put, Config.Ok, Config.Ascends, Empty, Emptied;
  }

  lemma {:induction false} FirstEvent(cfg: Config, s: Pipe, e: Event)
    requires Started(cfg, s)
    ensures var b := Book(map[], {}, s.grad, s.fp32);
            && Consistent(cfg, true, b, s)
            && Pass(cfg, true, s, [e]) == (if Guard(cfg, true, b, s, e) then Some(After(cfg, true, b, s, e)) else None)
            && (Pass(cfg, true, s, [e]).Some? ==>
                  Consistent(cfg, true, Pass(cfg, true, s, [e]).value.book, Pass(cfg, true, s, [e]).value.pipe))
  {
    StartInv(cfg, s);
    assert [e][..0] == [];
    PassStarts(cfg, s);
    hide Inv, Guard, After;
  }

  /** A bucket of one small divisible gradient is submitted as a view of the front of the bucket buffer. */
  lemma {:induction false} SubmitsFront(cfg: Config, s: Pipe, p: int, junk: Padding)
    requires CanWait(cfg, s) && Placed(cfg, s, Sorted(SetOf(s.bucket)))
    requires s.bucket == [p] && s.places == map[p := InBucket(0)] && s.pending.None? && cfg.numel(p) % cfg.world == 0
    ensures var u := Reduce(cfg, s, junk);
            && u.bucket == [] && u.pending.Some? && u.pending.value.flat.None?
            && u.pending.value.input == View(0) && u.pending.value.params == [p]
  {
    SortedOne(p);
    hide Sorted, SetOf, Target, Divided, Put, Config.Ok;
  }

  /** Two parameters that clash: the second, hooked right after the first, overwrites it. */
  lemma {:induction false} ClashOverwrites(cfg: Config, p: int, q: int, junk: Padding)
    requires cfg.Ok() && (cfg.direct ==> cfg.Ascends()) && Clash(cfg, p, q)
    ensures OverwritesAfter(cfg, Fresh0(cfg), [Hook(p, Zero(cfg.numel(p)), junk)], q, junk)
  {
    CollectsFirst(cfg, p, junk);
    var r := Pass(cfg, true, Fresh0(cfg), [Hook(p, Zero(cfg.numel(p)), junk)]).value;
    hide Pass, Consistent, Started, Ready;
    SingleBucket(cfg, r.pipe.bucket);
    assert Overflows(cfg, r.pipe, q);
    ReadyReduces(cfg, r.book, r.pipe, q, junk);
    SubmitsFront(cfg, r.pipe, p, junk);
    hide Reduce, Placed, CanWait;
  }

  lemma {:induction false} ReadyReduces(cfg: Config, b: Book, s: Pipe, q: int, junk: Padding)
    requires Consistent(cfg, true, b, s) && s.micro == 0 && Overflows(cfg, s, q)
    ensures CanWait(cfg, s) && Placed(cfg, s, Sorted(SetOf(s.bucket)))
    ensures Ready(cfg, true, b, s, q, junk) == Reduce(cfg, s, junk)
  {
    EmptyKeeps(cfg, true, b, s, junk);
    hide Inv, Reduce, Placed, CanWait, Overflows;
  }

  /** Some pass lets a hook overwrite an unread view. */
  ghost predicate CanOverwrite(cfg: Config)
  {
    exists start, es, q, junk :: OverwritesAfter(cfg, start, es, q, junk)
  }

  lemma {:induction false} CanOverwriteIntro(cfg: Config, start: Pipe, es: seq<Event>, q: int, junk: Padding)
    requires OverwritesAfter(cfg, start, es, q, junk)
    ensures CanOverwrite(cfg)
  {
    hide OverwritesAfter;
  }

  lemma {:induction false} NeverOverwrites(cfg: Config)
    requires cfg.world > 0 && ClashFree(cfg)
    ensures !CanOverwrite(cfg)
  {
    hide OverwritesAfter, ClashFree;
    forall start, es, q, junk ensures !OverwritesAfter(cfg, start, es, q, junk) {
      SafeAfter(cfg, start, es, q, junk);
    }
  }

  /** Whether a view can be overwritten is decided once and for all by the sizes of a model: some pass does it if and
      only if two of its parameters clash. */
  lemma {:induction false} OverwritesIffClash(cfg: Config)
    requires cfg.Ok() && (cfg.direct ==> cfg.Ascends())
    ensures cfg.world > 0 && (CanOverwrite(cfg) <==> exists p, q :: Clash(cfg, p, q))
  {
    hide CanOverwrite, Clash;
    if p, q :| Clash(cfg, p, q) {
      ClashOverwrites(cfg, p, q, (i, j) => 0.0);
      CanOverwriteIntro(cfg, Fresh0(cfg), [Hook(p, Zero(cfg.numel(p)), (i, j) => 0.0)], q, (i, j) => 0.0);
    } else {
      NeverOverwrites(cfg);
    }
  }

  /** In a model without clashes the discipline of a pass asks nothing about views: a hook is allowed whenever it
      fires once, during backward, for a parameter of the model. */
  lemma {:induction false} HooksAllowed(cfg: Config, start: Pipe, es: seq<Event>, e: Event)
    requires Started(cfg, start) && Pass(cfg, true, start, es).Some? && cfg.world > 0 && ClashFree(cfg) && e.Hook?
    ensures var r := Pass(cfg, true, start, es).value;
            Guard(cfg, true, r.book, r.pipe, e) <==>
              r.pipe.micro == 0 && e.p in cfg.params && e.p !in r.book.grads && |e.g| == cfg.numel(e.p)
  {
    var r := Pass(cfg, true, start, es).value;
    PassSafe(cfg, start, es);
    hide Pass, Started, Inv, Overwrites, Ready, ViewInv, ClashFree;
    if r.pipe.micro == 0 && e.p in cfg.params && e.p !in r.book.grads {
      ReadySafe(cfg, r.book, r.pipe, e.p, e.junk);
    }
  }
}
