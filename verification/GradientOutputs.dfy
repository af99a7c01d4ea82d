/** Where every reduce-scatter of a pass writes, by offsets and sizes alone, and what that means for the last one. */
module GradientOutputs {
  import opened Prelude
  import opened Blocks
  import opened ReduceScatter
  import opened SubGroups
  import opened GradientSpec
  import opened GradientRuns
  import opened GradientTheorems
  import opened GradientAdds
  import opened GradientOld

  /** Each shard begins where the one before it ends. */
  ghost predicate EndToEnd(cfg: Config, ps: seq<int>)
  {
    forall i :: 0 <= i < |ps| - 1 ==> cfg.offset(ps[i]) + cfg.size(ps[i]) == cfg.offset(ps[i + 1])
  }

  /** The output goes straight into the flat gradient buffer, at the first shard's place, if the shards stand there end to
      end in the order of the bucket; otherwise into new storage. */
  ghost predicate WritesWhere(cfg: Config, pe: Pending)
  {
    && pe.params != [] && Ascending(pe.params)
    && pe.output == if cfg.direct && EndToEnd(cfg, pe.params) then Direct(cfg.offset(pe.params[0])) else Fresh
  }

  lemma {:induction false} EndToEndUpTo(cfg: Config, ps: seq<int>, i: nat)
    requires EndToEnd(cfg, ps) && i < |ps|
    ensures cfg.offset(ps[0]) + Off(Sizes(ps, cfg.size), i) == cfg.offset(ps[i])
    decreases i
  {
    if i > 0 {
      EndToEndUpTo(cfg, ps, i - 1);
      assert cfg.offset(ps[i - 1]) + cfg.size(ps[i - 1]) == cfg.offset(ps[i]);
    }
  }

  /** For shards in rising order the total size decides whether they stand end to end. */
  lemma {:induction false} EndToEndIff(cfg: Config, ps: seq<int>)
    requires ps != [] && Rising(cfg, ps)
    ensures EndToEnd(cfg, ps) <==>
              cfg.offset(ps[0]) + Total(Sizes(ps, cfg.size)) == cfg.offset(ps[|ps| - 1]) + cfg.size(ps[|ps| - 1])
  {
    var n := |ps| - 1;
    assert Total(Sizes(ps, cfg.size)) == Off(Sizes(ps, cfg.size), n) + cfg.size(ps[n]);
    if EndToEnd(cfg, ps) { EndToEndUpTo(cfg, ps, n); }
    if LooksContiguous(cfg, ps) {
      forall i | 0 <= i < n ensures cfg.offset(ps[i]) + cfg.size(ps[i]) == cfg.offset(ps[i + 1]) {
        ContiguousIsAligned(cfg, ps, i);
        ContiguousIsAligned(cfg, ps, i + 1);
        assert Off(Sizes(ps, cfg.size), i + 1) == Off(Sizes(ps, cfg.size), i) + cfg.size(ps[i]);
      }
    }
    hide Rising, Off;
  }

  lemma {:induction false} SubmittedWhere(cfg: Config, hooks: seq<int>, pe: Pending)
    requires (cfg.direct ==> cfg.Ascends()) && hooks != [] && forall p :: p in hooks ==> p in cfg.params
    requires pe.params == Sorted(SetOf(hooks)) && pe.params != [] && pe.output == Target(cfg, pe.params)
    ensures WritesWhere(cfg, pe)
  {
    AscendingIds(hooks);
    TargetIs(cfg, pe.params);
    hide Sorted, SetOf, Target, Rising, EndToEnd, Config.Ascends;
    if cfg.direct {
      forall i | 0 <= i < |pe.params| ensures pe.params[i] in cfg.params { assert pe.params[i] in hooks; }
      BucketRises(cfg, pe.params);
      EndToEndIff(cfg, pe.params);
    }
  }

  // ------------------------------------------------------------------ every pass

  ghost predicate PendingWhere(cfg: Config, s: Pipe)
  {
    s.pending.Some? ==> WritesWhere(cfg, s.pending.value)
  }

  lemma {:induction false} ReduceWhere(cfg: Config, b: Book, s: Pipe, junk: Padding)
    requires Consistent(cfg, true, b, s) && s.micro == 0 && PendingWhere(cfg, s)
    ensures CanEmpty(cfg, true, s) && PendingWhere(cfg, Empty(cfg, true, s, junk))
  {
    EmptyKeeps(cfg, true, b, s, junk);
    EmptyParts(cfg, s);
    ReducedIs(cfg, s, junk);
    if s.bucket != [] {
      BucketParams(cfg, b, s);
      hide Inv, Reduce, WritesWhere, Sorted, SetOf, Target, Config.Ascends;
      SubmittedWhere(cfg, s.bucket, Empty(cfg, true, s, junk).pending.value);
    }
    hide Inv, Reduce, WritesWhere;
  }

  lemma {:induction false} BucketParams(cfg: Config, b: Book, s: Pipe)
    requires Inv(cfg, b, s)
    ensures forall p :: p in s.bucket ==> p in cfg.params
  {
    forall p | p in s.bucket ensures p in cfg.params { assert p in SetOf(s.bucket) && p in b.grads.Keys; }
    hide BucketInv, PendingInv, LandedInv;
  }

  lemma {:induction false} EventWhere(cfg: Config, b: Book, s: Pipe, e: Event)
    requires Consistent(cfg, true, b, s) && Guard(cfg, true, b, s, e) && PendingWhere(cfg, s)
    ensures PendingWhere(cfg, After(cfg, true, b, s, e).pipe)
  {
    hide *;
    match e
    case Hook(_, _, _) =>
      HookParts(cfg, b, s, e);
      if Overflows(cfg, s, e.p) { ReduceWhere(cfg, b, s, e.junk); }
      var u := if Overflows(cfg, s, e.p) then Empty(cfg, true, s, e.junk) else s;
      SamePending(cfg, u, After(cfg, true, b, s, e).pipe);
    case EndBackward(_) =>
      EndParts(cfg, b, s, e);
      ReduceWhere(cfg, b, s, e.junk);
      SamePending(cfg, Empty(cfg, true, s, e.junk), After(cfg, true, b, s, e).pipe);
    case Finish(_) =>
      FinishParts(cfg, b, s, e);
      SameWhere(cfg, s, After(cfg, true, b, s, e).pipe);
    case Take(_) =>
      TakeParts(cfg, b, s, e);
      NothingWhere(cfg, Flush(cfg, s, e.junk));
  }

  lemma {:induction false} SamePending(cfg: Config, s: Pipe, t: Pipe)
    requires PendingWhere(cfg, s) && t.pending == s.pending
    ensures PendingWhere(cfg, t)
  {
  }

  lemma {:induction false} SameWhere(cfg: Config, s: Pipe, t: Pipe)
    requires PendingWhere(cfg, s) && s.pending.Some? && t.pending.Some?
    requires t.pending.value.params == s.pending.value.params && t.pending.value.output == s.pending.value.output
    ensures PendingWhere(cfg, t)
  {
  }

  lemma {:induction false} NothingWhere(cfg: Config, s: Pipe)
    requires s.pending.None?
    ensures PendingWhere(cfg, s)
  {
  }

  lemma {:induction false} PassWhere(cfg: Config, start: Pipe, es: seq<Event>)
    requires Started(cfg, start) && Pass(cfg, true, start, es).Some?
    ensures PendingWhere(cfg, Pass(cfg, true, start, es).value.pipe)
    decreases |es|
  {
    hide *;
    if es == [] {
      NonePending(cfg, start);
      NothingWhere(cfg, Pass(cfg, true, start, []).value.pipe);
    } else {
      var front, e := es[..|es| - 1], es[|es| - 1];
      PassTo(cfg, true, start, es);
      PassWhere(cfg, start, front);
      EventWhere(cfg, Pass(cfg, true, start, front).value.book, Pass(cfg, true, start, front).value.pipe, e);
    }
  }

  lemma {:induction false} NonePending(cfg: Config, start: Pipe)
    requires Started(cfg, start)
    ensures Pass(cfg, true, start, []).Some? && Pass(cfg, true, start, []).value.pipe.pending.None?
  {
  }

  /** In every pass whatever is pending lists its bucket in id order and writes straight into the flat gradient buffer
      exactly when direct output is on and the shards stand there end to end. */
  lemma {:induction false} OutputsOverPasses(cfg: Config, start: Pipe, es: seq<Event>)
    requires Started(cfg, start) && Pass(cfg, true, start, es).Some?
    requires Pass(cfg, true, start, es).value.pipe.pending.Some?
    ensures var pe := Pass(cfg, true, start, es).value.pipe.pending.value;
            && pe.params != [] && Ascending(pe.params)
            && pe.output
               == if cfg.direct
                     && (forall i :: 0 <= i < |pe.params| - 1 ==>
                           cfg.offset(pe.params[i]) + cfg.size(pe.params[i]) == cfg.offset(pe.params[i + 1]))
                  then Direct(cfg.offset(pe.params[0])) else Fresh
  {
    PassWhere(cfg, start, es);
    hide Pass, Started;
  }

  /** So the last flush of a pass is exact if and only if its bucket's shards stand end to end in a buffer written
      directly, or the buffer held zeros at each of their places before the pass. */
  lemma {:induction false} LastFlushBySizes(cfg: Config, start: Pipe, es: seq<Event>, junk: Padding)
    requires Started(cfg, start) && Pass(cfg, true, start, es).Some?
    requires Pass(cfg, true, start, es).value.pipe.pending.Some? && Pass(cfg, true, start, es).value.pipe.micro > 0
    ensures var b, s := Pass(cfg, true, start, es).value.book, Pass(cfg, true, start, es).value.pipe;
            var ps := s.pending.value.params;
            && CanWait(cfg, s)
            && ((forall i :: 0 <= i < |ps| ==> TakenRight(cfg, b, Flush(cfg, s, junk), ps[i]))
                <==> (cfg.direct && EndToEnd(cfg, ps)) || forall i :: 0 <= i < |ps| ==> ZeroAt(cfg, start, ps[i]))
  {
    LastFlushFromStart(cfg, start, es, junk);
    PassWhere(cfg, start, es);
    var s := Pass(cfg, true, start, es).value.pipe;
    hide Pass, Started, TakenRight, Flush, CanWait, ZeroAt, EndToEnd;
    assert WritesWhere(cfg, s.pending.value);
  }

  // ------------------------------------------------------------------ every element

  /** What a rank's place for a parameter holds after a finished pass, element by element: its part of the gradient that
      fired, divided by the number of ranks, plus what the others contribute. */
  lemma {:induction false} PassElement(cfg: Config, deferred: bool, start: Pipe, es: seq<Event>, p: int, j: nat)
    requires Finished(cfg, deferred, start, es) && p in Pass(cfg, deferred, start, es).value.book.grads
    requires cfg.world > 0 && j < cfg.Len(p)
    ensures var b, s := Pass(cfg, deferred, start, es).value.book, Pass(cfg, deferred, start, es).value.pipe;
            && 0 <= cfg.rank * cfg.size(p) + j < |b.grads[p]| && cfg.offset(p) + j < |s.fp32|
            && s.fp32[cfg.offset(p) + j]
               == b.grads[p][cfg.rank * cfg.size(p) + j] / (cfg.world as real) + cfg.others(p, j)
  {
    PassExact(cfg, deferred, start, es);
    var b, s := Pass(cfg, deferred, start, es).value.book, Pass(cfg, deferred, start, es).value.pipe;
    assert BookOk(cfg, b) && Shaped(cfg, s) && LandedAt(cfg, b, s, p);
    hide Pass, Finished, Consistent, GradientTheorems.Reduced;
    RankOk(cfg, b);
    SliceAt(Divided(b.grads[p], cfg.world), cfg.size(p), cfg.rank, j);
    assert Seg(cfg, s.fp32, p)[j] == s.fp32[cfg.offset(p) + j];
    hide Slice, Config.Ok;
  }

  lemma {:induction false} RankOk(cfg: Config, b: Book)
    requires BookOk(cfg, b)
    ensures 0 <= cfg.rank < cfg.world
  {
  }
}
