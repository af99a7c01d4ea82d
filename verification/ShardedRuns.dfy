/** Every model has a sharded run: gradient buffers such as the reduce-scatters deliver always exist. */
module ShardedRuns {
  import opened Prelude
  import opened Blocks
  import opened Shards
  import opened ReduceScatter
  import opened SubGroups
  import opened ShardedStep

  // --------------------------------------------------------------- the wire

  /** A slice with zeros behind it. */
  function Padded(x: seq<real>, c: nat, rank: nat): (r: seq<real>)
    ensures |r| == c && Slice(x, c, rank) <= r
  {
    SliceFits(x, c, rank);
    Slice(x, c, rank) + seq(c - |Slice(x, c, rank)|, _ => 0.0)
  }

  /** A buffer a rank could submit for the tensors xs. */
  ghost function Wire(xs: seq<seq<real>>, world: nat): (flat: seq<real>)
    requires world > 0
    ensures SendsSlices(flat, xs, world)
  {
    var shards := seq(world, r requires 0 <= r < world =>
      seq(|xs|, i requires 0 <= i < |xs| => Padded(xs[i], Chunk(|xs[i]|, world), r)));
    WireShards(xs, world, shards);
    DividedLayout(shards, xs, world);
    Divided(Gathered(Inputs(shards)), world)
  }

  lemma {:induction false} WireShards(xs: seq<seq<real>>, world: nat, shards: seq<seq<seq<real>>>)
    requires world > 0 && |shards| == world
    requires forall r :: 0 <= r < world ==>
               shards[r] == seq(|xs|, i requires 0 <= i < |xs| => Padded(xs[i], Chunk(|xs[i]|, world), r))
    ensures Partitioned(shards, xs, world)
  {
    hide Padded, Slice, Chunk;
    forall r | 0 <= r < world ensures RankHolds(shards[r], xs, world, r) {
      forall i | 0 <= i < |xs| ensures IsShard(shards[r][i], xs[i], world, r) {
        assert shards[r][i] == Padded(xs[i], Chunk(|xs[i]|, world), r);
      }
    }
  }

  /** All ranks' buffers for a reduce-scatter of one tensor. */
  ghost function Wires(locals: seq<seq<real>>): seq<seq<real>>
  {
    seq(|locals|, r requires 0 <= r < |locals| => Wire([locals[r]], |locals|))
  }

  function Singles(locals: seq<seq<real>>): seq<seq<seq<real>>>
  {
    seq(|locals|, r requires 0 <= r < |locals| => [locals[r]])
  }

  lemma {:induction false} WiresSend(locals: seq<seq<real>>, n: nat)
    requires locals != [] && Same(locals, n)
    ensures AllSend(Wires(locals), Singles(locals), [n])
    ensures Versions(Singles(locals), 0) == locals
    ensures Same(Wires(locals), |locals| * Total(ChunkSizes([n], |locals|)))
  {
    forall r | 0 <= r < |locals| ensures SendsSlices(Wires(locals)[r], Singles(locals)[r], |locals|) {
      hide SendsSlices;
      assert Wires(locals)[r] == Wire([locals[r]], |locals|);
    }
    assert Agree(Singles(locals), [n]);
    hide SendsSlices, Agree;
    forall r | 0 <= r < |locals| ensures |Wires(locals)[r]| == |locals| * Total(ChunkSizes([n], |locals|)) {
      SameSizes(Wires(locals), Singles(locals), [n], r);
    }
  }

  /** A shard a rank could receive for a parameter. */
  ghost function SomeShard(locals: seq<seq<real>>, n: nat, rank: nat): (shard: seq<real>)
    requires rank < |locals| && Same(locals, n)
    ensures |shard| == Chunk(n, |locals|) && Arrived(shard, locals, n, rank)
  {
    WiresSend(locals, n);
    ReceivesSlice(Wires(locals), Singles(locals), [n], rank, 0);
    var got := Received(Wires(locals), [n], rank, 0);
    GotFits(locals, n, rank);
    var shard := got + seq(Chunk(n, |locals|) - |got|, _ => 0.0);
    assert ArrivedBy(shard, locals, n, rank, Wires(locals), Singles(locals), [n], 0);
    shard
  }

  lemma {:induction false} GotFits(locals: seq<seq<real>>, n: nat, rank: nat)
    requires rank < |locals| && Same(locals, n)
    requires Same(Wires(locals), |Wires(locals)| * Total(ChunkSizes([n], |Wires(locals)|)))
    ensures |Received(Wires(locals), [n], rank, 0)| <= Chunk(n, |locals|)
  {
    BlockFits(ChunkSizes([n], |Wires(locals)|), 0);
    hide Wire, Chunk, Off;
  }

  // ----------------------------------------------------------------- buffers

  ghost function ShardFor(plan: Plan, model: Model, t: nat, w: seq<seq<seq<real>>>, rank: nat, s: nat, k: nat): (shard: seq<real>)
    requires plan.Ok() && ModelOk(plan, model) && PerParam(plan, w) && rank < plan.world && plan.Has(s, k)
    ensures |shard| == plan.size(plan.groups[s][k])
    ensures |LocalGrads(plan, model, t, w, s, k)| == plan.world
    ensures Arrived(shard, LocalGrads(plan, model, t, w, s, k), plan.numel(plan.groups[s][k]), rank)
  {
    LocalGradsSame(plan, model, t, w, s, k);
    SizeIs(plan, plan.groups[s][k]);
    SomeShard(LocalGrads(plan, model, t, w, s, k), plan.numel(plan.groups[s][k]), rank)
  }

  ghost function GroupShards(plan: Plan, model: Model, t: nat, w: seq<seq<seq<real>>>, rank: nat, s: nat): (xs: seq<seq<real>>)
    requires plan.Ok() && ModelOk(plan, model) && PerParam(plan, w) && rank < plan.world && s < |plan.groups|
    ensures Lengths(xs) == Sizes(plan.groups[s], plan.size)
  {
    seq(|plan.groups[s]|, k requires 0 <= k < |plan.groups[s]| => ShardFor(plan, model, t, w, rank, s, k))
  }

  /** A rank's gradient buffers, shard behind shard. */
  ghost function Buffers(plan: Plan, model: Model, t: nat, w: seq<seq<seq<real>>>, rank: nat): (g: seq<seq<real>>)
    requires plan.Ok() && ModelOk(plan, model) && PerParam(plan, w) && rank < plan.world
    ensures |g| == |plan.groups|
  {
    seq(|plan.groups|, s requires 0 <= s < |plan.groups| => Flatten(GroupShards(plan, model, t, w, rank, s)))
  }

  lemma {:induction false} BufferIs(plan: Plan, model: Model, t: nat, w: seq<seq<seq<real>>>, rank: nat, s: nat, k: nat)
    requires plan.Ok() && ModelOk(plan, model) && PerParam(plan, w) && rank < plan.world && plan.Has(s, k)
    ensures var xs := GroupShards(plan, model, t, w, rank, s);
            && |xs| == |plan.groups[s]| && xs[k] == ShardFor(plan, model, t, w, rank, s, k)
            && Lengths(xs) == Sizes(plan.groups[s], plan.size)
            && Buffers(plan, model, t, w, rank)[s] == Flatten(xs)
  {
    hide ShardFor, Flatten, Plan.Ok, ModelOk, PerParam;
  }

  lemma {:induction false} HasBounds(plan: Plan, s: nat, k: nat)
    requires plan.Has(s, k)
    ensures s < |plan.groups| && k < |plan.groups[s]|
  {
  }

  lemma {:induction false} PlaceIs(plan: Plan, s: nat, k: nat)
    requires plan.Has(s, k)
    ensures At(plan, s, k) == Off(Sizes(plan.groups[s], plan.size), k) && ShardSize(plan, s, k) == plan.size(plan.groups[s][k])
    ensures Total(Sizes(plan.groups[s], plan.size)) == GroupSize(plan.groups[s], plan.size)
  {
  }

  lemma {:induction false} ArrivedIntro(plan: Plan, model: Model, t: nat, w: seq<seq<seq<real>>>, g: seq<seq<real>>,
                                        rank: nat, s: nat, k: nat)
    requires plan.Ok() && ModelOk(plan, model) && PerParam(plan, w) && rank < plan.world && plan.Has(s, k)
    requires |g| == |plan.groups| && At(plan, s, k) + ShardSize(plan, s, k) <= |g[s]|
    requires |LocalGrads(plan, model, t, w, s, k)| == plan.world
    requires Arrived(g[s][At(plan, s, k)..At(plan, s, k) + ShardSize(plan, s, k)], LocalGrads(plan, model, t, w, s, k),
                     plan.numel(plan.groups[s][k]), rank)
    ensures ArrivedAt(plan, model, t, w, g, rank, s, k)
  {
  }

  lemma {:induction false} BufferHolds(plan: Plan, model: Model, t: nat, w: seq<seq<seq<real>>>, rank: nat, s: nat, k: nat)
    requires plan.Ok() && ModelOk(plan, model) && PerParam(plan, w) && rank < plan.world && plan.Has(s, k)
    ensures ArrivedAt(plan, model, t, w, Buffers(plan, model, t, w, rank), rank, s, k)
  {
    hide *;
    HasBounds(plan, s, k);
    var xs := GroupShards(plan, model, t, w, rank, s);
    BufferIs(plan, model, t, w, rank, s, k);
    PlaceIs(plan, s, k);
    FlattenBlock(xs, k);
    ArrivedIntro(plan, model, t, w, Buffers(plan, model, t, w, rank), rank, s, k);
  }

  lemma {:induction false} BufferSizes(plan: Plan, model: Model, t: nat, w: seq<seq<seq<real>>>, rank: nat)
    requires plan.Ok() && ModelOk(plan, model) && PerParam(plan, w) && rank < plan.world
    ensures PerGroup(plan, Buffers(plan, model, t, w, rank))
  {
    forall s | 0 <= s < |plan.groups|
      ensures |Buffers(plan, model, t, w, rank)[s]| == GroupSize(plan.groups[s], plan.size)
    {
      FlattenTotal(GroupShards(plan, model, t, w, rank, s));
    }
  }

  /** Buffers for all ranks; what they carry arrived through reduce-scatters of the ranks' gradients. */
  ghost function AllBuffers(plan: Plan, model: Model, t: nat, w: seq<seq<seq<real>>>): (gs: seq<seq<seq<real>>>)
    requires plan.Ok() && ModelOk(plan, model) && PerParam(plan, w)
    ensures AllArrived(plan, model, t, w, gs)
  {
    var gs := seq(plan.world, r requires 0 <= r < plan.world => Buffers(plan, model, t, w, r));
    BuffersArrive(plan, model, t, w, gs);
    gs
  }

  lemma {:induction false} BuffersArrive(plan: Plan, model: Model, t: nat, w: seq<seq<seq<real>>>, gs: seq<seq<seq<real>>>)
    requires plan.Ok() && ModelOk(plan, model) && PerParam(plan, w) && |gs| == plan.world
    requires forall r :: 0 <= r < plan.world ==> gs[r] == Buffers(plan, model, t, w, r)
    ensures AllArrived(plan, model, t, w, gs)
  {
    hide Buffers, ArrivedAt, PerGroup;
    forall r | 0 <= r < plan.world ensures GradsArrived(plan, model, t, w, gs[r], r) {
      BufferSizes(plan, model, t, w, r);
      forall s, k | plan.Has(s, k) ensures ArrivedAt(plan, model, t, w, gs[r], r, s, k) {
        BufferHolds(plan, model, t, w, r, s, k);
      }
    }
  }

  // -------------------------------------------------------------------- runs

  lemma {:induction false} ShardedUnfolds(rule: Rule, plan: Plan, model: Model, x: seq<seq<seq<real>>>,
                                          shards: seq<seq<seq<seq<real>>>>, start: seq<RankState>,
                                          gs: seq<seq<seq<seq<real>>>>, t: nat)
    requires plan.Ok() && ModelOk(plan, model) && PerParam(plan, x) && t < |gs|
    requires AllConstructed(rule, plan, x, shards, start)
    ensures var before, f := ShardedAt(rule, plan, model, x, shards, start, gs, t), FullAt(rule, plan, model, x, t);
            && (before.Some? ==> AllMatch(plan, before.value, f))
            && ShardedAt(rule, plan, model, x, shards, start, gs, t + 1)
               == if before.None? then None else ShardedNext(rule, plan, model, t, before.value, f, gs[t])
  {
    hide Plan.Ok, ModelOk, PerParam, AllConstructed, ShardedNext, FullAt, AllMatch, Start;
  }

  lemma {:induction false} ShardedPrefix(rule: Rule, plan: Plan, model: Model, x: seq<seq<seq<real>>>,
                                         shards: seq<seq<seq<seq<real>>>>, start: seq<RankState>,
                                         gs: seq<seq<seq<seq<real>>>>, more: seq<seq<seq<real>>>, t: nat)
    requires plan.Ok() && ModelOk(plan, model) && PerParam(plan, x) && t <= |gs|
    requires AllConstructed(rule, plan, x, shards, start)
    ensures ShardedAt(rule, plan, model, x, shards, start, gs + [more], t)
         == ShardedAt(rule, plan, model, x, shards, start, gs, t)
    decreases t
  {
    hide *;
    if t == 0 {
      ShardedBegins(rule, plan, model, x, shards, start, gs);
      ShardedBegins(rule, plan, model, x, shards, start, gs + [more]);
    } else {
      ShardedPrefix(rule, plan, model, x, shards, start, gs, more, t - 1);
      ShardedUnfolds(rule, plan, model, x, shards, start, gs, t - 1);
      ShardedUnfolds(rule, plan, model, x, shards, start, gs + [more], t - 1);
      assert (gs + [more])[t - 1] == gs[t - 1];
    }
  }

  lemma {:induction false} ShardedBegins(rule: Rule, plan: Plan, model: Model, x: seq<seq<seq<real>>>,
                                         shards: seq<seq<seq<seq<real>>>>, start: seq<RankState>,
                                         gs: seq<seq<seq<seq<real>>>>)
    requires plan.Ok() && ModelOk(plan, model) && PerParam(plan, x)
    requires AllConstructed(rule, plan, x, shards, start)
    ensures ShardedAt(rule, plan, model, x, shards, start, gs, 0) == Some(start)
  {
    hide Plan.Ok, ModelOk, PerParam, AllConstructed, FullAt, AllMatch, Start;
  }

  lemma {:induction false} ShardedOne(rule: Rule, plan: Plan, model: Model, x: seq<seq<seq<real>>>,
                                      shards: seq<seq<seq<seq<real>>>>, start: seq<RankState>,
                                      gs: seq<seq<seq<seq<real>>>>, more: seq<seq<seq<real>>>)
    requires plan.Ok() && ModelOk(plan, model) && PerParam(plan, x)
    requires AllConstructed(rule, plan, x, shards, start)
    requires Completes(rule, plan, model, x, shards, start, gs)
    requires PerParam(plan, FullAt(rule, plan, model, x, |gs|).half)
    requires AllArrived(plan, model, |gs|, FullAt(rule, plan, model, x, |gs|).half, more)
    ensures Completes(rule, plan, model, x, shards, start, gs + [more])
  {
    hide *;
    CompletesParts(rule, plan, model, x, shards, start, gs);
    var f, ranks := FullAt(rule, plan, model, x, |gs|), ShardedAt(rule, plan, model, x, shards, start, gs, |gs|).value;
    NextGoesOn(rule, plan, model, |gs|, ranks, f, more);
    ShardedPrefix(rule, plan, model, x, shards, start, gs, more, |gs|);
    ShardedUnfolds(rule, plan, model, x, shards, start, gs + [more], |gs|);
    CompletesIntro(rule, plan, model, x, shards, start, gs + [more]);
  }

  lemma {:induction false} NextGoesOn(rule: Rule, plan: Plan, model: Model, t: nat, ranks: seq<RankState>, f: FullState,
                                      gs: seq<seq<seq<real>>>)
    requires plan.Ok() && ModelOk(plan, model) && FullOk(plan, f) && AllMatch(plan, ranks, f)
    requires AllArrived(plan, model, t, f.half, gs)
    ensures ShardedNext(rule, plan, model, t, ranks, f, gs).Some?
  {
    GatherMatches(plan, ranks, f);
    hide AllArrived, AllMatch, Plan.Ok, ModelOk, FullOk, PerParam, GatheredAll, AllStep;
  }

  /** The buffers take all ranks through as many iterations as there are of them. */
  ghost predicate Completes(rule: Rule, plan: Plan, model: Model, x: seq<seq<seq<real>>>,
                            shards: seq<seq<seq<seq<real>>>>, start: seq<RankState>, gs: seq<seq<seq<seq<real>>>>)
    requires plan.Ok() && ModelOk(plan, model) && PerParam(plan, x)
    requires AllConstructed(rule, plan, x, shards, start)
  {
    ShardedAt(rule, plan, model, x, shards, start, gs, |gs|).Some?
  }

  lemma {:induction false} CompletesParts(rule: Rule, plan: Plan, model: Model, x: seq<seq<seq<real>>>,
                                          shards: seq<seq<seq<seq<real>>>>, start: seq<RankState>,
                                          gs: seq<seq<seq<seq<real>>>>)
    requires plan.Ok() && ModelOk(plan, model) && PerParam(plan, x)
    requires AllConstructed(rule, plan, x, shards, start)
    requires Completes(rule, plan, model, x, shards, start, gs)
    ensures var r, f := ShardedAt(rule, plan, model, x, shards, start, gs, |gs|), FullAt(rule, plan, model, x, |gs|);
            r.Some? && FullOk(plan, f) && AllMatch(plan, r.value, f)
  {
    hide Plan.Ok, ModelOk, PerParam, AllConstructed, FullAt, AllMatch, FullOk;
  }

  lemma {:induction false} CompletesIntro(rule: Rule, plan: Plan, model: Model, x: seq<seq<seq<real>>>,
                                          shards: seq<seq<seq<seq<real>>>>, start: seq<RankState>,
                                          gs: seq<seq<seq<seq<real>>>>)
    requires plan.Ok() && ModelOk(plan, model) && PerParam(plan, x)
    requires AllConstructed(rule, plan, x, shards, start)
    requires ShardedAt(rule, plan, model, x, shards, start, gs, |gs|).Some?
    ensures Completes(rule, plan, model, x, shards, start, gs)
  {
  }

  /** Sharded training can always go on: for every model there are gradient buffers, delivered by reduce-scatters of
      the gradients the ranks compute, with which all ranks get through any number of iterations. */
  lemma {:induction false} ShardedRunExists(rule: Rule, plan: Plan, model: Model, x: seq<seq<seq<real>>>,
                                            shards: seq<seq<seq<seq<real>>>>, start: seq<RankState>, t: nat)
    requires plan.Ok() && ModelOk(plan, model) && PerParam(plan, x)
    requires AllConstructed(rule, plan, x, shards, start)
    ensures exists gs: seq<seq<seq<seq<real>>>> ::
              |gs| == t && Completes(rule, plan, model, x, shards, start, gs)
    decreases t
  {
    hide *;
    if t == 0 {
      var none: seq<seq<seq<seq<real>>>> := [];
      ShardedBegins(rule, plan, model, x, shards, start, none);
      CompletesIntro(rule, plan, model, x, shards, start, none);
    } else {
      ShardedRunExists(rule, plan, model, x, shards, start, t - 1);
      var gs: seq<seq<seq<seq<real>>>> :|
        |gs| == t - 1 && Completes(rule, plan, model, x, shards, start, gs);
      FullHalf(plan, FullAt(rule, plan, model, x, t - 1));
      var more := AllBuffers(plan, model, t - 1, FullAt(rule, plan, model, x, t - 1).half);
      ShardedOne(rule, plan, model, x, shards, start, gs, more);
      assert |gs + [more]| == t;
    }
  }
}
