/** From hooks to the optimizer step: when every rank has finished its backward pass through the deferred pipeline,
    the gradient buffers hold what the sharded step asks for. */
module GradientDelivery {
  import opened Prelude
  import opened Blocks
  import opened ReduceScatter
  import opened SubGroups
  import opened GradientSpec
  import opened GradientRuns
  import opened GradientTheorems
  import opened GradientViews
  import opened GradientAdds
  import opened GradientOrders
  import opened ShardedStep
  import opened ShardedRuns

  // ------------------------------------------------------- one rank and the others

  function Without(xs: seq<real>, r: nat): seq<real>
    requires r < |xs|
  {
    xs[..r] + xs[r + 1..]
  }

  lemma {:induction false} SumJoins(a: seq<real>, b: seq<real>)
    ensures Sum(a + b) == Sum(a) + Sum(b)
    decreases |b|
  {
    if b == [] {
      assert a + b == a;
    } else {
      var n := |b| - 1;
      assert (a + b)[..|a + b| - 1] == a + b[..n];
      SumJoins(a, b[..n]);
    }
  }

  lemma {:induction false} SumOne(x: real)
    ensures Sum([x]) == x
  {
    assert [x][..0] == [];
  }

  lemma {:induction false} SumWithout(xs: seq<real>, r: nat)
    requires r < |xs|
    ensures Sum(xs) == xs[r] + Sum(Without(xs, r))
  {
    assert xs == (xs[..r] + [xs[r]]) + xs[r + 1..];
    SumJoins(xs[..r] + [xs[r]], xs[r + 1..]);
    SumJoins(xs[..r], [xs[r]]);
    SumOne(xs[r]);
    SumJoins(xs[..r], xs[r + 1..]);
  }

  /** What the other ranks contribute to element x of a tensor: the sum of their divided values. */
  ghost function FromOthers(locals: seq<seq<real>>, n: nat, rank: nat, x: nat): real
    requires rank < |locals| && Same(locals, n) && x < n
  {
    Sum(Divided(Without(Column(locals, n, x), rank), |locals|))
  }

  /** Together with the rank's own that is the average. */
  lemma {:induction false} OwnAndOthers(locals: seq<seq<real>>, n: nat, rank: nat, x: nat)
    requires rank < |locals| && Same(locals, n) && x < n
    ensures locals[rank][x] / (|locals| as real) + FromOthers(locals, n, rank, x) == Average(locals, n)[x]
  {
    var col, world := Column(locals, n, x), |locals|;
    SumDivided(col, world);
    SumWithout(Divided(col, world), rank);
    assert Without(Divided(col, world), rank) == Divided(Without(col, rank), world);
  }

  /** What a rank's pipeline expects for a tensor is its slice of the average. */
  lemma {:induction false} ExpectedIsSlice(cfg: Config, b: Book, p: int, locals: seq<seq<real>>)
    requires cfg.Ok() && |locals| == cfg.world && Same(locals, cfg.numel(p))
    requires p in b.grads && b.grads[p] == locals[cfg.rank]
    requires forall j :: 0 <= j < cfg.Len(p) ==> OthersAt(cfg, p, locals, j)
    ensures |b.grads[p]| == cfg.numel(p)
    ensures Expected(cfg, b, p) == Slice(Average(locals, cfg.numel(p)), cfg.size(p), cfg.rank)
  {
    var avg := Average(locals, cfg.numel(p));
    var got, want := Expected(cfg, b, p), Slice(avg, cfg.size(p), cfg.rank);
    SliceFits(avg, cfg.size(p), cfg.rank);
    SliceFits(Divided(b.grads[p], cfg.world), cfg.size(p), cfg.rank);
    forall j | 0 <= j < cfg.Len(p) ensures got[j] == want[j] {
      ElementIs(cfg, b, p, locals, j);
    }
    hide Expected, Average, Slice, Config.Ok;
  }

  /** The pipeline's parameter `others` is what the other ranks contribute. */
  ghost predicate OthersAt(cfg: Config, p: int, locals: seq<seq<real>>, j: nat)
  {
    && 0 <= cfg.rank < |locals| && Same(locals, cfg.numel(p))
    && 0 <= cfg.rank * cfg.size(p) + j < cfg.numel(p)
    && cfg.others(p, j) == FromOthers(locals, cfg.numel(p), cfg.rank, cfg.rank * cfg.size(p) + j)
  }

  lemma {:induction false} ElementIs(cfg: Config, b: Book, p: int, locals: seq<seq<real>>, j: nat)
    requires cfg.Ok() && |locals| == cfg.world && Same(locals, cfg.numel(p)) && j < cfg.Len(p)
    requires p in b.grads && b.grads[p] == locals[cfg.rank] && |b.grads[p]| == cfg.numel(p) && OthersAt(cfg, p, locals, j)
    ensures |Expected(cfg, b, p)| == cfg.Len(p)
    ensures j < |Slice(Average(locals, cfg.numel(p)), cfg.size(p), cfg.rank)|
    ensures Expected(cfg, b, p)[j] == Slice(Average(locals, cfg.numel(p)), cfg.size(p), cfg.rank)[j]
  {
    var mine, avg := Divided(b.grads[p], cfg.world), Average(locals, cfg.numel(p));
    SliceAt(mine, cfg.size(p), cfg.rank, j);
    SliceAt(avg, cfg.size(p), cfg.rank, j);
    OwnAndOthers(locals, cfg.numel(p), cfg.rank, cfg.rank * cfg.size(p) + j);
    hide Slice, FromOthers, Average, Config.Ok;
  }

  // ------------------------------------------------------------------- one rank

  /** A rank's pipeline for iteration t of the plan: its sizes, its places in the flat buffers one behind the other,
      and the other ranks' gradients. */
  ghost predicate Serves(cfg: Config, plan: Plan, model: Model, t: nat, w: seq<seq<seq<real>>>, rank: nat)
    requires plan.Ok() && ModelOk(plan, model) && PerParam(plan, w)
  {
    && cfg.world == plan.world && cfg.rank == rank && cfg.total == Total(GroupSizes(plan.groups, plan.size))
    && (forall p: int :: cfg.numel(p) == plan.numel(p) && cfg.size(p) == plan.size(p))
    && forall s, k :: plan.Has(s, k) ==> ServesAt(cfg, plan, model, t, w, s, k)
  }

  ghost predicate ServesAt(cfg: Config, plan: Plan, model: Model, t: nat, w: seq<seq<seq<real>>>, s: nat, k: nat)
    requires plan.Ok() && ModelOk(plan, model) && PerParam(plan, w) && plan.Has(s, k)
  {
    && s < |GroupSizes(plan.groups, plan.size)|
    && cfg.offset(plan.groups[s][k]) == Off(GroupSizes(plan.groups, plan.size), s) + At(plan, s, k)
    && forall j :: 0 <= j < cfg.Len(plan.groups[s][k]) ==>
         OthersAt(cfg, plan.groups[s][k], LocalGrads(plan, model, t, w, s, k), j)
  }

  /** Every hook has fired, with the gradient the model computes on this rank. */
  ghost predicate Fired(b: Book, plan: Plan, model: Model, t: nat, w: seq<seq<seq<real>>>, rank: nat)
    requires plan.Ok() && ModelOk(plan, model) && PerParam(plan, w) && rank < plan.world
  {
    forall s, k :: plan.Has(s, k) ==> FiredAt(b, plan, model, t, w, rank, s, k)
  }

  ghost predicate FiredAt(b: Book, plan: Plan, model: Model, t: nat, w: seq<seq<seq<real>>>, rank: nat, s: nat, k: nat)
    requires plan.Ok() && ModelOk(plan, model) && PerParam(plan, w) && rank < plan.world && plan.Has(s, k)
  {
    && plan.groups[s][k] in b.grads && |LocalGrads(plan, model, t, w, s, k)| == plan.world
    && b.grads[plan.groups[s][k]] == LocalGrads(plan, model, t, w, s, k)[rank]
  }

  /** A sub-group's part of the flat buffer. */
  ghost function Block(plan: Plan, fp32: seq<real>, s: nat): (x: seq<real>)
    requires s < |plan.groups| && |fp32| == Total(GroupSizes(plan.groups, plan.size))
    ensures s < |GroupSizes(plan.groups, plan.size)| && |x| == GroupSizes(plan.groups, plan.size)[s]
    ensures Off(GroupSizes(plan.groups, plan.size), s) + |x| <= |fp32|
    ensures x == fp32[Off(GroupSizes(plan.groups, plan.size), s)..Off(GroupSizes(plan.groups, plan.size), s) + |x|]
  {
    var sizes := GroupSizes(plan.groups, plan.size);
    BlockFits(sizes, s);
    fp32[Off(sizes, s)..Off(sizes, s) + sizes[s]]
  }

  /** The flat buffer, cut into those of the sub-groups. */
  ghost function BuffersOf(plan: Plan, fp32: seq<real>): (g: seq<seq<real>>)
    requires |fp32| == Total(GroupSizes(plan.groups, plan.size))
    ensures |g| == |plan.groups|
  {
    seq(|plan.groups|, s requires 0 <= s < |plan.groups| => Block(plan, fp32, s))
  }

  lemma {:induction false} BuffersFit(plan: Plan, fp32: seq<real>)
    requires |fp32| == Total(GroupSizes(plan.groups, plan.size))
    ensures PerGroup(plan, BuffersOf(plan, fp32))
  {
    hide GroupSize, Off;
  }

  lemma {:induction false} BufferAt(plan: Plan, fp32: seq<real>, s: nat)
    requires s < |plan.groups| && |fp32| == Total(GroupSizes(plan.groups, plan.size))
    ensures BuffersOf(plan, fp32)[s] == Block(plan, fp32, s)
  {
    hide GroupSize, Off, Block;
  }

  lemma {:induction false} ShardOf(plan: Plan, fp32: seq<real>, s: nat, k: nat)
    requires plan.Has(s, k) && |fp32| == Total(GroupSizes(plan.groups, plan.size))
    ensures s < |plan.groups| && s < |GroupSizes(plan.groups, plan.size)|
    ensures var base, at, c := Off(GroupSizes(plan.groups, plan.size), s), At(plan, s, k), ShardSize(plan, s, k);
            && at + c <= |BuffersOf(plan, fp32)[s]| && base + at + c <= |fp32|
            && BuffersOf(plan, fp32)[s][at..at + c] == fp32[base + at..base + at + c]
  {
    hide *;
    HasBounds(plan, s, k);
    BuffersFit(plan, fp32);
    ShardFits(plan, BuffersOf(plan, fp32), s, k);
    BufferAt(plan, fp32, s);
    var x := Block(plan, fp32, s);
    Cut(fp32, Off(GroupSizes(plan.groups, plan.size), s), |x|, At(plan, s, k), ShardSize(plan, s, k));
  }

  lemma {:induction false} Cut(v: seq<real>, base: nat, size: nat, at: nat, c: nat)
    requires base + size <= |v| && at + c <= size
    ensures v[base..base + size][at..at + c] == v[base + at..base + at + c]
  {
    var x, y := v[base..base + size][at..at + c], v[base + at..base + at + c];
    forall j | 0 <= j < c ensures x[j] == y[j] {
      assert x[j] == v[base..base + size][at + j];
    }
  }

  /** A slice of the average is what some reduce-scatter delivers. */
  lemma {:induction false} SliceArrives(shard: seq<real>, locals: seq<seq<real>>, n: nat, rank: nat)
    requires rank < |locals| && Same(locals, n) && Slice(Average(locals, n), Chunk(n, |locals|), rank) <= shard
    ensures Arrived(shard, locals, n, rank)
  {
    WiresSend(locals, n);
    ReceivesSlice(Wires(locals), Singles(locals), [n], rank, 0);
    hide Slice, Average, Received, Chunk, Total, AllSend, Versions, Same;
    assert ArrivedBy(shard, locals, n, rank, Wires(locals), Singles(locals), [n], 0);
  }

  lemma {:induction false} DeliversAt(cfg: Config, b: Book, pipe: Pipe, plan: Plan, model: Model, t: nat,
                                      w: seq<seq<seq<real>>>, rank: nat, s: nat, k: nat)
    requires plan.Ok() && ModelOk(plan, model) && PerParam(plan, w) && rank < plan.world && plan.Has(s, k)
    requires BookOk(cfg, b) && Shaped(cfg, pipe) && Serves(cfg, plan, model, t, w, rank) && Fired(b, plan, model, t, w, rank)
    requires LandedAt(cfg, b, pipe, plan.groups[s][k])
    ensures |pipe.fp32| == Total(GroupSizes(plan.groups, plan.size))
    ensures ArrivedAt(plan, model, t, w, BuffersOf(plan, pipe.fp32), rank, s, k)
  {
    hide *;
    ServesParts(cfg, plan, model, t, w, rank, s, k);
    FiredParts(b, plan, model, t, w, rank, s, k);
    BookParts(cfg, b, pipe);
    var p, locals := plan.groups[s][k], LocalGrads(plan, model, t, w, s, k);
    LocalGradsSame(plan, model, t, w, s, k);
    ExpectedIsSlice(cfg, b, p, locals);
    SizeIs(plan, p);
    PlaceIs(plan, s, k);
    ShardOf(plan, pipe.fp32, s, k);
    LandedFront(cfg, b, pipe, p, locals);
    var at, c := At(plan, s, k), ShardSize(plan, s, k);
    SliceArrives(BuffersOf(plan, pipe.fp32)[s][at..at + c], locals, cfg.numel(p), rank);
    ArrivedIntro(plan, model, t, w, BuffersOf(plan, pipe.fp32), rank, s, k);
  }

  /** The place of p in the fp32 buffer begins with its slice. */
  lemma {:induction false} LandedFront(cfg: Config, b: Book, s: Pipe, p: int, locals: seq<seq<real>>)
    requires BookOk(cfg, b) && Shaped(cfg, s) && LandedAt(cfg, b, s, p)
    requires cfg.offset(p) + cfg.size(p) <= |s.fp32| && locals != [] && Same(locals, cfg.numel(p))
    requires Expected(cfg, b, p) == Slice(Average(locals, cfg.numel(p)), cfg.size(p), cfg.rank)
    ensures Slice(Average(locals, cfg.numel(p)), cfg.size(p), cfg.rank) <= s.fp32[cfg.offset(p)..cfg.offset(p) + cfg.size(p)]
  {
    var x := Slice(Average(locals, cfg.numel(p)), cfg.size(p), cfg.rank);
    SliceFits(Average(locals, cfg.numel(p)), cfg.size(p), cfg.rank);
    assert Seg(cfg, s.fp32, p) == x;
    IsPrefix(s.fp32, cfg.offset(p), cfg.size(p), x);
    hide Expected, Slice, Average, BookOk;
  }

  lemma {:induction false} ServesParts(cfg: Config, plan: Plan, model: Model, t: nat, w: seq<seq<seq<real>>>, rank: nat, s: nat, k: nat)
    requires plan.Ok() && ModelOk(plan, model) && PerParam(plan, w) && plan.Has(s, k)
    requires Serves(cfg, plan, model, t, w, rank)
    ensures s < |plan.groups| && k < |plan.groups[s]| && s < |GroupSizes(plan.groups, plan.size)|
    ensures var p := plan.groups[s][k];
            && cfg.world == plan.world && cfg.rank == rank && cfg.total == Total(GroupSizes(plan.groups, plan.size))
            && cfg.numel(p) == plan.numel(p) && cfg.size(p) == plan.size(p)
            && cfg.offset(p) == Off(GroupSizes(plan.groups, plan.size), s) + At(plan, s, k)
            && forall j :: 0 <= j < cfg.Len(p) ==> OthersAt(cfg, p, LocalGrads(plan, model, t, w, s, k), j)
  {
    assert ServesAt(cfg, plan, model, t, w, s, k);
    hide OthersAt, LocalGrads, Off, At, Config.Len;
  }

  lemma {:induction false} FiredParts(b: Book, plan: Plan, model: Model, t: nat, w: seq<seq<seq<real>>>, rank: nat, s: nat, k: nat)
    requires plan.Ok() && ModelOk(plan, model) && PerParam(plan, w) && rank < plan.world && plan.Has(s, k)
    requires Fired(b, plan, model, t, w, rank)
    ensures s < |plan.groups| && k < |plan.groups[s]| && plan.groups[s][k] in b.grads
    ensures |LocalGrads(plan, model, t, w, s, k)| == plan.world
    ensures b.grads[plan.groups[s][k]] == LocalGrads(plan, model, t, w, s, k)[rank]
  {
    assert FiredAt(b, plan, model, t, w, rank, s, k);
    hide LocalGrads;
  }

  lemma {:induction false} BookParts(cfg: Config, b: Book, s: Pipe)
    requires BookOk(cfg, b) && Shaped(cfg, s)
    ensures cfg.Ok() && |s.fp32| == cfg.total
  {
    hide Config.Ok;
  }

  // ------------------------------------------------------------------ all ranks

  /** A rank's finished pass in iteration t. */
  ghost predicate PassDone(cfg: Config, start: Pipe, es: seq<Event>, plan: Plan, model: Model, t: nat,
                           w: seq<seq<seq<real>>>, rank: nat)
    requires plan.Ok() && ModelOk(plan, model) && PerParam(plan, w) && rank < plan.world
  {
    && Serves(cfg, plan, model, t, w, rank) && Finished(cfg, true, start, es)
    && Fired(Pass(cfg, true, start, es).value.book, plan, model, t, w, rank)
  }

  lemma {:induction false} PassDelivers(cfg: Config, start: Pipe, es: seq<Event>, plan: Plan, model: Model, t: nat,
                                        w: seq<seq<seq<real>>>, rank: nat)
    requires plan.Ok() && ModelOk(plan, model) && PerParam(plan, w) && rank < plan.world
    requires PassDone(cfg, start, es, plan, model, t, w, rank)
    ensures var fp32 := Pass(cfg, true, start, es).value.pipe.fp32;
            && |fp32| == Total(GroupSizes(plan.groups, plan.size))
            && GradsArrived(plan, model, t, w, BuffersOf(plan, fp32), rank)
  {
    PassExact(cfg, true, start, es);
    var b, s := Pass(cfg, true, start, es).value.book, Pass(cfg, true, start, es).value.pipe;
    assert Serves(cfg, plan, model, t, w, rank);
    hide Pass, Finished, LandedAt, BookOk, ArrivedAt, FiredAt, ServesAt, Plan.Ok, ModelOk, PerParam, PerGroup, Covers, GradientTheorems.Reduced;
    assert |s.fp32| == Total(GroupSizes(plan.groups, plan.size));
    forall i, k | plan.Has(i, k) ensures ArrivedAt(plan, model, t, w, BuffersOf(plan, s.fp32), rank, i, k) {
      assert FiredAt(b, plan, model, t, w, rank, i, k);
      LandedHere(cfg, b, s, plan, model, t, w, rank, i, k);
      DeliversAt(cfg, b, s, plan, model, t, w, rank, i, k);
    }
    BuffersFit(plan, s.fp32);
    ArrivedAll(plan, model, t, w, BuffersOf(plan, s.fp32), rank);
  }

  lemma {:induction false} LandedHere(cfg: Config, b: Book, pipe: Pipe, plan: Plan, model: Model, t: nat,
                                      w: seq<seq<seq<real>>>, rank: nat, s: nat, k: nat)
    requires plan.Ok() && ModelOk(plan, model) && PerParam(plan, w) && rank < plan.world && plan.Has(s, k)
    requires BookOk(cfg, b) && Shaped(cfg, pipe) && FiredAt(b, plan, model, t, w, rank, s, k)
    requires forall p :: p in b.grads ==> LandedAt(cfg, b, pipe, p)
    ensures LandedAt(cfg, b, pipe, plan.groups[s][k])
  {
    hide LandedAt, BookOk, Plan.Ok, ModelOk, PerParam, LocalGrads;
  }

  lemma {:induction false} ArrivedAll(plan: Plan, model: Model, t: nat, w: seq<seq<seq<real>>>, g: seq<seq<real>>, rank: nat)
    requires plan.Ok() && ModelOk(plan, model) && PerParam(plan, w) && rank < plan.world && PerGroup(plan, g)
    requires forall s, k :: plan.Has(s, k) ==> ArrivedAt(plan, model, t, w, g, rank, s, k)
    ensures GradsArrived(plan, model, t, w, g, rank)
  {
    hide ArrivedAt, PerGroup;
  }

  /** A rank's pass: its configuration, the pipeline before the first hook, and what happened. */
  datatype RankPass = RankPass(cfg: Config, start: Pipe, events: seq<Event>)

  ghost predicate AllDone(plan: Plan, model: Model, t: nat, w: seq<seq<seq<real>>>, passes: seq<RankPass>)
    requires plan.Ok() && ModelOk(plan, model) && PerParam(plan, w)
  {
    && |passes| == plan.world
    && forall r :: 0 <= r < plan.world ==>
         PassDone(passes[r].cfg, passes[r].start, passes[r].events, plan, model, t, w, r)
  }

  /** The gradient buffers a finished pass leaves. */
  ghost function Left(plan: Plan, model: Model, t: nat, w: seq<seq<seq<real>>>, pass: RankPass, rank: nat): (g: seq<seq<real>>)
    requires plan.Ok() && ModelOk(plan, model) && PerParam(plan, w) && rank < plan.world
    requires PassDone(pass.cfg, pass.start, pass.events, plan, model, t, w, rank)
    ensures GradsArrived(plan, model, t, w, g, rank)
  {
    PassDelivers(pass.cfg, pass.start, pass.events, plan, model, t, w, rank);
    BuffersOf(plan, Pass(pass.cfg, true, pass.start, pass.events).value.pipe.fp32)
  }

  ghost function AllLeft(plan: Plan, model: Model, t: nat, w: seq<seq<seq<real>>>, passes: seq<RankPass>): (gs: seq<seq<seq<real>>>)
    requires plan.Ok() && ModelOk(plan, model) && PerParam(plan, w) && AllDone(plan, model, t, w, passes)
    ensures AllArrived(plan, model, t, w, gs)
  {
    seq(plan.world, r requires 0 <= r < plan.world => Left(plan, model, t, w, passes[r], r))
  }

  /** One whole iteration: the ranks gather, every rank's hooks drive its deferred pipeline through its own pass with its
      own completion times, and all step with what the passes leave in their buffers. The ranks then carry the
      unpartitioned reference, stepped with the averages of the gradients. */
  lemma {:induction false} WholeIteration(rule: Rule, plan: Plan, model: Model, t: nat, ranks: seq<RankState>, f: FullState,
                                          passes: seq<RankPass>)
    requires plan.Ok() && ModelOk(plan, model) && FullOk(plan, f) && AllMatch(plan, ranks, f)
    requires AllDone(plan, model, t, f.half, passes)
    ensures var gs := AllLeft(plan, model, t, f.half, passes);
            && (forall r :: 0 <= r < |ranks| ==> RankOk(plan, ranks[r])) && GatheredAll(plan, ranks) == f.half
            && CanStep(plan, ranks, gs)
            && AllMatch(plan, AllStep(rule, plan, ranks, gs), FullNext(rule, plan, model, t, f))
  {
    GatherMatches(plan, ranks, f);
    hide *;
    FullHalf(plan, f);
    IterationMatches(rule, plan, model, t, f.half, ranks, AllLeft(plan, model, t, f.half, passes), f);
    FullNextIs(rule, plan, model, t, f);
  }

  lemma {:induction false} FullNextIs(rule: Rule, plan: Plan, model: Model, t: nat, f: FullState)
    requires plan.Ok() && ModelOk(plan, model) && FullOk(plan, f)
    ensures PerParam(plan, f.half)
    ensures FullNext(rule, plan, model, t, f) == FullStep(rule, plan, f, AverageGrads(plan, model, t, f.half))
  {
  }

  // ------------------------------------------------------------- any hook order

  /** Some hook of the list brings parameter k of sub-group s the gradient the model computes on this rank. */
  ghost predicate Brings(es: seq<Event>, plan: Plan, model: Model, t: nat, w: seq<seq<seq<real>>>, rank: nat, s: nat, k: nat)
    requires plan.Ok() && ModelOk(plan, model) && PerParam(plan, w) && rank < plan.world && plan.Has(s, k)
  {
    exists i :: 0 <= i < |es| && BroughtBy(es, plan, model, t, w, rank, s, k, i)
  }

  ghost predicate BroughtBy(es: seq<Event>, plan: Plan, model: Model, t: nat, w: seq<seq<seq<real>>>, rank: nat,
                            s: nat, k: nat, i: nat)
    requires plan.Ok() && ModelOk(plan, model) && PerParam(plan, w) && rank < plan.world && plan.Has(s, k) && i < |es|
  {
    && es[i].Hook? && es[i].p == plan.groups[s][k] && |LocalGrads(plan, model, t, w, s, k)| == plan.world
    && es[i].g == LocalGrads(plan, model, t, w, s, k)[rank]
  }

  lemma {:induction false} BroughtFired(b: Book, es: seq<Event>, plan: Plan, model: Model, t: nat, w: seq<seq<seq<real>>>,
                                        rank: nat, s: nat, k: nat)
    requires plan.Ok() && ModelOk(plan, model) && PerParam(plan, w) && rank < plan.world && plan.Has(s, k)
    requires Records(b, es) && Brings(es, plan, model, t, w, rank, s, k)
    ensures FiredAt(b, plan, model, t, w, rank, s, k)
  {
    hide LocalGrads, FiredIn, Plan.Ok, ModelOk, PerParam;
    var i :| 0 <= i < |es| && BroughtBy(es, plan, model, t, w, rank, s, k, i);
    assert es[i].p in b.grads;
  }

  ghost predicate BringsAll(es: seq<Event>, plan: Plan, model: Model, t: nat, w: seq<seq<seq<real>>>, rank: nat)
    requires plan.Ok() && ModelOk(plan, model) && PerParam(plan, w) && rank < plan.world
  {
    forall s, k :: plan.Has(s, k) ==> Brings(es, plan, model, t, w, rank, s, k)
  }

  lemma {:induction false} AllFired(b: Book, es: seq<Event>, plan: Plan, model: Model, t: nat, w: seq<seq<seq<real>>>, rank: nat)
    requires plan.Ok() && ModelOk(plan, model) && PerParam(plan, w) && rank < plan.world
    requires Records(b, es) && BringsAll(es, plan, model, t, w, rank)
    ensures Fired(b, plan, model, t, w, rank)
  {
    hide Brings, FiredAt, Records, Plan.Ok, ModelOk, PerParam;
    forall s, k | plan.Has(s, k) ensures FiredAt(b, plan, model, t, w, rank, s, k) {
      BroughtFired(b, es, plan, model, t, w, rank, s, k);
    }
  }

  /** In a model without clashes that cannot add to old values, or on a buffer of zeros, a rank's hooks may fire in any
      order: the pass is over with the end of backward and the last flush, and its buffers are ready for the step. */
  lemma {:induction false} AnyOrderIsDone(cfg: Config, start: Pipe, es: seq<Event>, end: Padding, last: Padding,
                                          plan: Plan, model: Model, t: nat, w: seq<seq<seq<real>>>, rank: nat)
    requires plan.Ok() && ModelOk(plan, model) && PerParam(plan, w) && rank < plan.world
    requires Serves(cfg, plan, model, t, w, rank) && Started(cfg, start)
    requires cfg.world > 0 && ClashFree(cfg) && (!CanScatter(cfg) || start.grad == seq(cfg.total, _ => 0.0))
    requires HooksOnce(cfg, es) && BringsAll(es, plan, model, t, w, rank)
    ensures PassDone(cfg, start, Whole(es, end, last), plan, model, t, w, rank)
    ensures var fp32 := Pass(cfg, true, start, Whole(es, end, last)).value.pipe.fp32;
            && |fp32| == Total(GroupSizes(plan.groups, plan.size))
            && GradsArrived(plan, model, t, w, BuffersOf(plan, fp32), rank)
  {
    hide *;
    EveryOrderFinishes(cfg, start, es, end, last);
    PassSome(cfg, start, Whole(es, end, last));
    AllFired(Pass(cfg, true, start, Whole(es, end, last)).value.book, es, plan, model, t, w, rank);
    PassDoneIntro(cfg, start, Whole(es, end, last), plan, model, t, w, rank);
    PassDelivers(cfg, start, Whole(es, end, last), plan, model, t, w, rank);
  }

  lemma {:induction false} PassSome(cfg: Config, start: Pipe, es: seq<Event>)
    requires Finished(cfg, true, start, es)
    ensures Started(cfg, start) && Pass(cfg, true, start, es).Some?
  {
    hide Started, Pass;
  }

  lemma {:induction false} PassDoneIntro(cfg: Config, start: Pipe, es: seq<Event>, plan: Plan, model: Model, t: nat,
                                         w: seq<seq<seq<real>>>, rank: nat)
    requires plan.Ok() && ModelOk(plan, model) && PerParam(plan, w) && rank < plan.world
    requires Serves(cfg, plan, model, t, w, rank) && Finished(cfg, true, start, es)
    requires Started(cfg, start) && Pass(cfg, true, start, es).Some?
    requires Fired(Pass(cfg, true, start, es).value.book, plan, model, t, w, rank)
    ensures PassDone(cfg, start, es, plan, model, t, w, rank)
  {
    hide Serves, Finished, Fired, Started, Pass, Plan.Ok, ModelOk, PerParam;
  }
}
