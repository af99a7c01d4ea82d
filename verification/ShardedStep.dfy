/** Training on shards equals training on whole parameters.

    Each rank keeps, per sub-group, one flat fp32 buffer of weights, one of optimizer state and one of fp16
    weights. Its optimizer is any rule that works element by element, possibly different for each parameter
    group; `half` is any rounding of one element. The reference keeps every parameter whole. */
module ShardedStep {
  import opened Prelude
  import opened Blocks
  import opened Shards
  import opened ReduceScatter
  import opened SubGroups

  /** What the optimizer remembers about one element. */
  type Slot = seq<real>

  datatype Rule = Rule(update: (int, real, real, Slot) -> (real, Slot), half: real -> real, initial: Slot)

  /** Sub-groups of parameters, the parameter group of each, the size of every parameter and of its shards. */
  datatype Plan = Plan(groups: seq<seq<int>>, groupIds: seq<int>, numel: int -> nat, size: int -> nat, world: nat)
  {
    ghost predicate Ok()
    {
      && world > 0 && |groupIds| == |groups|
      && forall p: int :: size(p) == Chunk(numel(p), world)
    }

    predicate Has(s: int, k: int)
    {
      0 <= s < |groups| && 0 <= k < |groups[s]|
    }
  }

  lemma {:induction false} SizeIs(plan: Plan, p: int)
    requires plan.Ok()
    ensures plan.size(p) == Chunk(plan.numel(p), plan.world)
  {
  }

  // -------------------------------------------------- element-wise operations

  function Weights(rule: Rule, gid: int, w: seq<real>, g: seq<real>, o: seq<Slot>): seq<real>
    requires |w| == |g| == |o|
  {
    seq(|w|, x requires 0 <= x < |w| => rule.update(gid, w[x], g[x], o[x]).0)
  }

  function Slots(rule: Rule, gid: int, w: seq<real>, g: seq<real>, o: seq<Slot>): seq<Slot>
    requires |w| == |g| == |o|
  {
    seq(|w|, x requires 0 <= x < |w| => rule.update(gid, w[x], g[x], o[x]).1)
  }

  function Half(rule: Rule, w: seq<real>): seq<real>
  {
    seq(|w|, x requires 0 <= x < |w| => rule.half(w[x]))
  }

  /** optimizer.step() on one flat buffer, in place. */
  method OptimizerStep(rule: Rule, gid: int, w: array<real>, g: array<real>, o: array<Slot>)
    requires w.Length == g.Length == o.Length && w != g
    modifies w, o
    ensures w[..] == Weights(rule, gid, old(w[..]), g[..], old(o[..]))
    ensures o[..] == Slots(rule, gid, old(w[..]), g[..], old(o[..]))
    ensures forall x :: 0 <= x < w.Length ==> (w[x], o[x]) == rule.update(gid, old(w[x]), g[x], old(o[x]))
  {
    for x := 0 to w.Length
      invariant forall y :: 0 <= y < x ==> w[y] == rule.update(gid, old(w[y]), g[y], old(o[y])).0
      invariant forall y :: 0 <= y < x ==> o[y] == rule.update(gid, old(w[y]), g[y], old(o[y])).1
      invariant forall y :: x <= y < w.Length ==> w[y] == old(w[y]) && o[y] == old(o[y])
    {
      var (weight, slot) := rule.update(gid, w[x], g[x], o[x]);
      w[x], o[x] := weight, slot;
    }
  }

  /** fp16_flat.data.copy_(fp32_flat.data) */
  method CopyDown(rule: Rule, half: array<real>, w: array<real>)
    requires half.Length == w.Length && half != w
    modifies half
    ensures half[..] == Half(rule, w[..])
    ensures forall x :: 0 <= x < w.Length ==> half[x] == rule.half(w[x])
  {
    forall x | 0 <= x < w.Length {
      half[x] := rule.half(w[x]);
    }
  }

  /** An element-wise step on a part of a buffer is that part of the step. */
  lemma {:induction false} StepOfPart(rule: Rule, gid: int, w: seq<real>, g: seq<real>, o: seq<Slot>, a: nat, b: nat)
    requires |w| == |g| == |o| && a <= b <= |w|
    ensures Weights(rule, gid, w, g, o)[a..b] == Weights(rule, gid, w[a..b], g[a..b], o[a..b])
    ensures Slots(rule, gid, w, g, o)[a..b] == Slots(rule, gid, w[a..b], g[a..b], o[a..b])
  {
  }

  lemma {:induction false} HalfOfPart(rule: Rule, w: seq<real>, a: nat, b: nat)
    requires a <= b <= |w|
    ensures Half(rule, w)[a..b] == Half(rule, w[a..b])
  {
  }

  // ------------------------------------------------------------------- states

  /** One rank: per sub-group, fp32 weights, optimizer state and fp16 weights. */
  datatype RankState = RankState(master: seq<seq<real>>, slots: seq<seq<Slot>>, half: seq<seq<real>>)

  /** The reference: the same for every parameter of every sub-group, unpartitioned. */
  datatype FullState = FullState(master: seq<seq<seq<real>>>, slots: seq<seq<seq<Slot>>>, half: seq<seq<seq<real>>>)

  /** One value of the right length for every parameter. */
  ghost predicate PerParam<T>(plan: Plan, v: seq<seq<seq<T>>>)
  {
    && |v| == |plan.groups|
    && (forall s :: 0 <= s < |v| ==> |v[s]| == |plan.groups[s]|)
    && forall s, k :: plan.Has(s, k) ==> |v[s][k]| == plan.numel(plan.groups[s][k])
  }

  ghost predicate PerGroup<T>(plan: Plan, v: seq<seq<T>>)
  {
    && |v| == |plan.groups|
    && forall s :: 0 <= s < |v| ==> |v[s]| == GroupSize(plan.groups[s], plan.size)
  }

  ghost predicate FullOk(plan: Plan, f: FullState)
  {
    PerParam(plan, f.master) && PerParam(plan, f.slots) && PerParam(plan, f.half)
  }

  ghost predicate RankOk(plan: Plan, st: RankState)
  {
    PerGroup(plan, st.master) && PerGroup(plan, st.slots) && PerGroup(plan, st.half)
  }

  // -------------------------------------------------------- where shards live

  /** The grad_position offset of a parameter. */
  function At(plan: Plan, s: nat, k: nat): nat
    requires plan.Has(s, k)
  {
    Off(Sizes(plan.groups[s], plan.size), k)
  }

  function ShardSize(plan: Plan, s: nat, k: nat): nat
    requires plan.Has(s, k)
  {
    plan.size(plan.groups[s][k])
  }

  lemma {:induction false} ShardFits<T>(plan: Plan, v: seq<seq<T>>, s: nat, k: nat)
    requires plan.Has(s, k) && PerGroup(plan, v)
    ensures At(plan, s, k) + ShardSize(plan, s, k) <= |v[s]|
  {
    BlockFits(Sizes(plan.groups[s], plan.size), k);
  }

  /** A parameter's shard in a rank's flat buffers. */
  function ShardIn<T>(plan: Plan, v: seq<seq<T>>, s: nat, k: nat): seq<T>
    requires plan.Has(s, k) && |v| == |plan.groups| && At(plan, s, k) + ShardSize(plan, s, k) <= |v[s]|
  {
    v[s][At(plan, s, k)..At(plan, s, k) + ShardSize(plan, s, k)]
  }

  /** Its beginning, without padding, on this rank. */
  ghost predicate Carries<T>(plan: Plan, v: seq<seq<T>>, rank: nat, s: nat, k: nat, x: seq<T>)
    requires plan.Has(s, k)
  {
    && |v| == |plan.groups| && At(plan, s, k) + ShardSize(plan, s, k) <= |v[s]|
    && Slice(x, ShardSize(plan, s, k), rank) <= ShardIn(plan, v, s, k)
  }

  /** A rank's buffers carry its slices of the whole parameters. */
  ghost predicate Matches(plan: Plan, st: RankState, rank: nat, f: FullState)
    requires FullOk(plan, f)
  {
    && RankOk(plan, st)
    && forall s, k :: plan.Has(s, k) ==> MatchesAt(plan, st, rank, f, s, k)
  }

  ghost predicate MatchesAt(plan: Plan, st: RankState, rank: nat, f: FullState, s: nat, k: nat)
    requires FullOk(plan, f) && plan.Has(s, k)
  {
    && Carries(plan, st.master, rank, s, k, f.master[s][k])
    && Carries(plan, st.slots, rank, s, k, f.slots[s][k])
    && Carries(plan, st.half, rank, s, k, f.half[s][k])
  }

  // -------------------------------------------------------------------- steps

  /** One optimizer step of a rank, over its sub-groups, and the copy down to fp16. */
  function RankStep(rule: Rule, plan: Plan, st: RankState, g: seq<seq<real>>): RankState
    requires |plan.groupIds| == |st.master| == |st.slots| == |g|
    requires forall s :: 0 <= s < |g| ==> |st.master[s]| == |st.slots[s]| == |g[s]|
  {
    var w := seq(|g|, s requires 0 <= s < |g| => Weights(rule, plan.groupIds[s], st.master[s], g[s], st.slots[s]));
    RankState(w,
              seq(|g|, s requires 0 <= s < |g| => Slots(rule, plan.groupIds[s], st.master[s], g[s], st.slots[s])),
              seq(|g|, s requires 0 <= s < |g| => Half(rule, w[s])))
  }

  /** The reference step of one parameter, whole. */
  ghost function WeightsAt(rule: Rule, plan: Plan, f: FullState, g: seq<seq<seq<real>>>, s: nat, k: nat): (w: seq<real>)
    requires |plan.groupIds| == |plan.groups| && FullOk(plan, f) && PerParam(plan, g) && plan.Has(s, k)
    ensures |w| == plan.numel(plan.groups[s][k])
  {
    Weights(rule, plan.groupIds[s], f.master[s][k], g[s][k], f.slots[s][k])
  }

  ghost function SlotsAt(rule: Rule, plan: Plan, f: FullState, g: seq<seq<seq<real>>>, s: nat, k: nat): (o: seq<Slot>)
    requires |plan.groupIds| == |plan.groups| && FullOk(plan, f) && PerParam(plan, g) && plan.Has(s, k)
    ensures |o| == plan.numel(plan.groups[s][k])
  {
    Slots(rule, plan.groupIds[s], f.master[s][k], g[s][k], f.slots[s][k])
  }

  ghost function AllWeights(rule: Rule, plan: Plan, f: FullState, g: seq<seq<seq<real>>>): (w: seq<seq<seq<real>>>)
    requires |plan.groupIds| == |plan.groups| && FullOk(plan, f) && PerParam(plan, g)
    ensures PerParam(plan, w)
  {
    seq(|plan.groups|, s requires 0 <= s < |plan.groups| =>
      seq(|plan.groups[s]|, k requires 0 <= k < |plan.groups[s]| => WeightsAt(rule, plan, f, g, s, k)))
  }

  ghost function AllSlots(rule: Rule, plan: Plan, f: FullState, g: seq<seq<seq<real>>>): (o: seq<seq<seq<Slot>>>)
    requires |plan.groupIds| == |plan.groups| && FullOk(plan, f) && PerParam(plan, g)
    ensures PerParam(plan, o)
  {
    seq(|plan.groups|, s requires 0 <= s < |plan.groups| =>
      seq(|plan.groups[s]|, k requires 0 <= k < |plan.groups[s]| => SlotsAt(rule, plan, f, g, s, k)))
  }

  ghost function AllHalf(rule: Rule, plan: Plan, w: seq<seq<seq<real>>>): (h: seq<seq<seq<real>>>)
    requires PerParam(plan, w)
    ensures PerParam(plan, h)
  {
    seq(|plan.groups|, s requires 0 <= s < |plan.groups| =>
      seq(|plan.groups[s]|, k requires 0 <= k < |plan.groups[s]| => Half(rule, w[s][k])))
  }

  ghost function FullStep(rule: Rule, plan: Plan, f: FullState, g: seq<seq<seq<real>>>): (r: FullState)
    requires |plan.groupIds| == |plan.groups| && FullOk(plan, f) && PerParam(plan, g)
    ensures FullOk(plan, r)
  {
    var w := AllWeights(rule, plan, f, g);
    FullState(w, AllSlots(rule, plan, f, g), AllHalf(rule, plan, w))
  }

  /** The rank's gradient buffers carry its slices of the averages. */
  ghost predicate GradsMatch(plan: Plan, g: seq<seq<real>>, rank: nat, avg: seq<seq<seq<real>>>)
    requires PerParam(plan, avg)
  {
    && PerGroup(plan, g)
    && forall s, k :: plan.Has(s, k) ==> Carries(plan, g, rank, s, k, avg[s][k])
  }

  lemma {:induction false} StepMatchesAt(rule: Rule, plan: Plan, st: RankState, g: seq<seq<real>>, rank: nat,
                                         f: FullState, avg: seq<seq<seq<real>>>, s: nat, k: nat)
    requires |plan.groupIds| == |plan.groups| && FullOk(plan, f) && PerParam(plan, avg)
    requires Matches(plan, st, rank, f) && GradsMatch(plan, g, rank, avg) && plan.Has(s, k)
    ensures MatchesAt(plan, RankStep(rule, plan, st, g), rank, FullStep(rule, plan, f, avg), s, k)
  {
    var c, at := ShardSize(plan, s, k), At(plan, s, k);
    var w, o, d := f.master[s][k], f.slots[s][k], avg[s][k];
    assert MatchesAt(plan, st, rank, f, s, k) && Carries(plan, g, rank, s, k, d);
    ShardFits(plan, st.master, s, k);
    StepOfSlice(rule, plan.groupIds[s], w, d, o, c, rank, st.master[s], g[s], st.slots[s], at);
  }

  /** The step seen through one slice, in the whole parameter and in the flat buffer. */
  lemma {:induction false} StepOfSlice(rule: Rule, gid: int, w: seq<real>, d: seq<real>, o: seq<Slot>, c: nat, rank: nat,
                                       fw: seq<real>, fd: seq<real>, fo: seq<Slot>, at: nat)
    requires |w| == |d| == |o| && |fw| == |fd| == |fo| && at + c <= |fw|
    requires Slice(w, c, rank) <= fw[at..at + c] && Slice(d, c, rank) <= fd[at..at + c] && Slice(o, c, rank) <= fo[at..at + c]
    ensures Slice(Weights(rule, gid, w, d, o), c, rank) <= Weights(rule, gid, fw, fd, fo)[at..at + c]
    ensures Slice(Slots(rule, gid, w, d, o), c, rank) <= Slots(rule, gid, fw, fd, fo)[at..at + c]
    ensures Slice(Half(rule, Weights(rule, gid, w, d, o)), c, rank) <= Half(rule, Weights(rule, gid, fw, fd, fo))[at..at + c]
  {
    StepOfPartSlice(rule, gid, w, d, o, c, rank);
    var sw, sd, so := Slice(w, c, rank), Slice(d, c, rank), Slice(o, c, rank);
    SliceFits(w, c, rank);
    SliceFits(d, c, rank);
    SliceFits(o, c, rank);
    PrefixIs(fw, at, c, sw);
    PrefixIs(fd, at, c, sd);
    PrefixIs(fo, at, c, so);
    StepLengths(rule, gid, fw, fd, fo);
    StepLengths(rule, gid, sw, sd, so);
    StepOfPart(rule, gid, fw, fd, fo, at, at + |sw|);
    HalfOfPart(rule, Weights(rule, gid, fw, fd, fo), at, at + |sw|);
    hide *;
    IsPrefix(Weights(rule, gid, fw, fd, fo), at, c, Weights(rule, gid, sw, sd, so));
    IsPrefix(Slots(rule, gid, fw, fd, fo), at, c, Slots(rule, gid, sw, sd, so));
    IsPrefix(Half(rule, Weights(rule, gid, fw, fd, fo)), at, c, Half(rule, Weights(rule, gid, sw, sd, so)));
  }

  lemma {:induction false} StepLengths(rule: Rule, gid: int, w: seq<real>, g: seq<real>, o: seq<Slot>)
    requires |w| == |g| == |o|
    ensures |Weights(rule, gid, w, g, o)| == |Slots(rule, gid, w, g, o)| == |Half(rule, Weights(rule, gid, w, g, o))| == |w|
  {
  }

  /** The step of a slice is the slice of the step. */
  lemma {:induction false} StepOfPartSlice(rule: Rule, gid: int, w: seq<real>, g: seq<real>, o: seq<Slot>, c: nat, rank: nat)
    requires |w| == |g| == |o|
    ensures |Slice(w, c, rank)| == |Slice(g, c, rank)| == |Slice(o, c, rank)|
    ensures Slice(Weights(rule, gid, w, g, o), c, rank) == Weights(rule, gid, Slice(w, c, rank), Slice(g, c, rank), Slice(o, c, rank))
    ensures Slice(Slots(rule, gid, w, g, o), c, rank) == Slots(rule, gid, Slice(w, c, rank), Slice(g, c, rank), Slice(o, c, rank))
    ensures Slice(Half(rule, Weights(rule, gid, w, g, o)), c, rank)
         == Half(rule, Weights(rule, gid, Slice(w, c, rank), Slice(g, c, rank), Slice(o, c, rank)))
  {
    SliceGrows(|w|, c, rank);
    var a, b := SliceStart(|w|, c, rank), SliceStart(|w|, c, rank + 1);
    StepOfPart(rule, gid, w, g, o, a, b);
    HalfOfPart(rule, Weights(rule, gid, w, g, o), a, b);
    StepLengths(rule, gid, w, g, o);
  }

  lemma {:induction false} PrefixIs<T>(v: seq<T>, at: nat, c: nat, front: seq<T>)
    requires at + c <= |v| && front <= v[at..at + c]
    ensures v[at..at + |front|] == front
  {
    assert v[at..at + |front|] == v[at..at + c][..|front|];
  }

  lemma {:induction false} IsPrefix<T>(v: seq<T>, at: nat, c: nat, front: seq<T>)
    requires at + c <= |v| && |front| <= c && v[at..at + |front|] == front
    ensures front <= v[at..at + c]
  {
    assert v[at..at + |front|] == v[at..at + c][..|front|];
  }

  /** A rank that steps with its slices of the averages carries its slices of the reference step. */
  lemma {:induction false} StepMatches(rule: Rule, plan: Plan, st: RankState, g: seq<seq<real>>, rank: nat,
                                       f: FullState, avg: seq<seq<seq<real>>>)
    requires |plan.groupIds| == |plan.groups| && FullOk(plan, f) && PerParam(plan, avg)
    requires Matches(plan, st, rank, f) && GradsMatch(plan, g, rank, avg)
    ensures Matches(plan, RankStep(rule, plan, st, g), rank, FullStep(rule, plan, f, avg))
  {
    forall s, k | plan.Has(s, k)
      ensures MatchesAt(plan, RankStep(rule, plan, st, g), rank, FullStep(rule, plan, f, avg), s, k)
    {
      StepMatchesAt(rule, plan, st, g, rank, f, avg, s, k);
    }
  }

  // ------------------------------------------------------------------- gather

  /** The ranks' fp16 shards of a parameter. */
  ghost function ShardsOf(plan: Plan, ranks: seq<RankState>, s: nat, k: nat): seq<seq<real>>
    requires plan.Has(s, k) && forall r :: 0 <= r < |ranks| ==> RankOk(plan, ranks[r])
  {
    seq(|ranks|, r requires 0 <= r < |ranks| => HalfShard(plan, ranks[r], s, k))
  }

  ghost function HalfShard(plan: Plan, st: RankState, s: nat, k: nat): seq<real>
    requires plan.Has(s, k) && RankOk(plan, st)
  {
    ShardFits(plan, st.half, s, k);
    ShardIn(plan, st.half, s, k)
  }

  lemma {:induction false} HalfShardIs(plan: Plan, ranks: seq<RankState>, f: FullState, s: nat, k: nat, r: nat)
    requires plan.Ok() && FullOk(plan, f) && AllMatch(plan, ranks, f) && plan.Has(s, k) && r < plan.world
    ensures RankOk(plan, ranks[r]) && IsShard(HalfShard(plan, ranks[r], s, k), f.half[s][k], plan.world, r)
  {
    assert MatchesAt(plan, ranks[r], r, f, s, k);
    hide Slice, Chunk, Plan.Ok, At, PerGroup, PerParam;
    SizeIs(plan, plan.groups[s][k]);
    ShardFits(plan, ranks[r].half, s, k);
    HalfLength(plan, f, s, k);
  }

  /** The parameter every rank sees after gathering: the shards end to end, cut to the parameter's length. */
  ghost function GatheredParam(plan: Plan, ranks: seq<RankState>, s: nat, k: nat): seq<real>
    requires plan.Has(s, k) && forall r :: 0 <= r < |ranks| ==> RankOk(plan, ranks[r])
  {
    var flat := Gathered(ShardsOf(plan, ranks, s, k));
    if plan.numel(plan.groups[s][k]) <= |flat| then flat[..plan.numel(plan.groups[s][k])] else flat
  }

  ghost function GatheredAll(plan: Plan, ranks: seq<RankState>): seq<seq<seq<real>>>
    requires forall r :: 0 <= r < |ranks| ==> RankOk(plan, ranks[r])
  {
    seq(|plan.groups|, s requires 0 <= s < |plan.groups| =>
      seq(|plan.groups[s]|, k requires 0 <= k < |plan.groups[s]| => GatheredParam(plan, ranks, s, k)))
  }

  ghost predicate AllMatch(plan: Plan, ranks: seq<RankState>, f: FullState)
    requires FullOk(plan, f)
  {
    |ranks| == plan.world && forall r :: 0 <= r < |ranks| ==> Matches(plan, ranks[r], r, f)
  }

  lemma {:induction false} GatheredParamIs(plan: Plan, ranks: seq<RankState>, f: FullState, s: nat, k: nat)
    requires plan.Ok() && FullOk(plan, f) && AllMatch(plan, ranks, f) && plan.Has(s, k)
    ensures GatheredParam(plan, ranks, s, k) == f.half[s][k]
  {
    var shards, x := ShardsOf(plan, ranks, s, k), f.half[s][k];
    hide IsShard, Matches, MatchesAt, Gathered, Chunk, RankOk, FullOk, HalfShard;
    forall r | 0 <= r < plan.world ensures IsShard(shards[r], x, plan.world, r) {
      HalfShardIs(plan, ranks, f, s, k, r);
    }
    assert |x| == plan.numel(plan.groups[s][k]) by { HalfLength(plan, f, s, k); }
    SingleGather(shards, x, plan.world);
  }

  lemma {:induction false} HalfLength(plan: Plan, f: FullState, s: nat, k: nat)
    requires FullOk(plan, f) && plan.Has(s, k)
    ensures |f.half[s][k]| == plan.numel(plan.groups[s][k])
  {
  }

  /** Gathering yields the reference's fp16 parameters. */
  lemma {:induction false} GatherMatches(plan: Plan, ranks: seq<RankState>, f: FullState)
    requires plan.Ok() && FullOk(plan, f) && AllMatch(plan, ranks, f)
    ensures forall r :: 0 <= r < |ranks| ==> RankOk(plan, ranks[r])
    ensures GatheredAll(plan, ranks) == f.half
  {
    forall r | 0 <= r < |ranks| ensures RankOk(plan, ranks[r]) { assert Matches(plan, ranks[r], r, f); }
    var all := GatheredAll(plan, ranks);
    forall s | 0 <= s < |plan.groups| ensures all[s] == f.half[s] {
      forall k | 0 <= k < |plan.groups[s]| ensures all[s][k] == f.half[s][k] {
        GatheredParamIs(plan, ranks, f, s, k);
      }
    }
  }

  // --------------------------------------------------------------- iterations

  /** The gradients rank r computes at iteration t from the weights it sees. */
  type Model = (nat, nat, seq<seq<seq<real>>>) -> seq<seq<seq<real>>>

  ghost predicate ModelOk(plan: Plan, model: Model)
  {
    forall t: nat, r: nat, w: seq<seq<seq<real>>> :: PerParam(plan, w) ==> PerParam(plan, model(t, r, w))
  }

  /** The ranks' gradients for one parameter. */
  ghost function LocalGrads(plan: Plan, model: Model, t: nat, w: seq<seq<seq<real>>>, s: nat, k: nat): seq<seq<real>>
    requires ModelOk(plan, model) && PerParam(plan, w) && plan.Has(s, k)
  {
    seq(plan.world, r requires 0 <= r < plan.world => assert PerParam(plan, model(t, r, w)); model(t, r, w)[s][k])
  }

  lemma {:induction false} LocalGradsSame(plan: Plan, model: Model, t: nat, w: seq<seq<seq<real>>>, s: nat, k: nat)
    requires ModelOk(plan, model) && PerParam(plan, w) && plan.Has(s, k)
    ensures Same(LocalGrads(plan, model, t, w, s, k), plan.numel(plan.groups[s][k]))
  {
    forall r | 0 <= r < plan.world
      ensures |LocalGrads(plan, model, t, w, s, k)[r]| == plan.numel(plan.groups[s][k])
    {
      assert PerParam(plan, model(t, r, w));
    }
  }

  ghost function AverageGrads(plan: Plan, model: Model, t: nat, w: seq<seq<seq<real>>>): (g: seq<seq<seq<real>>>)
    requires plan.Ok() && ModelOk(plan, model) && PerParam(plan, w)
    ensures PerParam(plan, g)
  {
    seq(|plan.groups|, s requires 0 <= s < |plan.groups| =>
      seq(|plan.groups[s]|, k requires 0 <= k < |plan.groups[s]| =>
        LocalGradsSame(plan, model, t, w, s, k);
        Average(LocalGrads(plan, model, t, w, s, k), plan.numel(plan.groups[s][k]))))
  }

  /** A gradient shard arrived through some coalesced reduce-scatter in which the parameter was tensor i. */
  ghost predicate Arrived(shard: seq<real>, locals: seq<seq<real>>, n: nat, rank: nat)
    requires rank < |locals|
  {
    exists flats: seq<seq<real>>, grads: seq<seq<seq<real>>>, numels: seq<nat>, i: nat ::
      ArrivedBy(shard, locals, n, rank, flats, grads, numels, i)
  }

  ghost predicate ArrivedBy(shard: seq<real>, locals: seq<seq<real>>, n: nat, rank: nat,
                            flats: seq<seq<real>>, grads: seq<seq<seq<real>>>, numels: seq<nat>, i: nat)
    requires rank < |locals|
  {
    && |flats| == |locals| && AllSend(flats, grads, numels)
    && i < |numels| && numels[i] == n
    && Same(flats, |flats| * Total(ChunkSizes(numels, |flats|)))
    && Versions(grads, i) == locals
    && Received(flats, numels, rank, i) <= shard
  }

  lemma {:induction false} ArrivedIsSlice(shard: seq<real>, locals: seq<seq<real>>, n: nat, rank: nat)
    requires rank < |locals| && Same(locals, n) && Arrived(shard, locals, n, rank)
    ensures Slice(Average(locals, n), Chunk(n, |locals|), rank) <= shard
  {
    var flats: seq<seq<real>>, grads: seq<seq<seq<real>>>, numels: seq<nat>, i: nat :|
      ArrivedBy(shard, locals, n, rank, flats, grads, numels, i);
    ReceivesSlice(flats, grads, numels, rank, i);
  }

  /** Every parameter's gradient shard arrived in the rank's gradient buffers, at the parameter's position. */
  ghost predicate GradsArrived(plan: Plan, model: Model, t: nat, w: seq<seq<seq<real>>>, g: seq<seq<real>>, rank: nat)
    requires plan.Ok() && ModelOk(plan, model) && PerParam(plan, w) && rank < plan.world
  {
    && PerGroup(plan, g)
    && forall s, k :: plan.Has(s, k) ==> ArrivedAt(plan, model, t, w, g, rank, s, k)
  }

  ghost predicate ArrivedAt(plan: Plan, model: Model, t: nat, w: seq<seq<seq<real>>>, g: seq<seq<real>>, rank: nat, s: nat, k: nat)
    requires plan.Ok() && ModelOk(plan, model) && PerParam(plan, w) && rank < plan.world && plan.Has(s, k)
  {
    && |g| == |plan.groups| && At(plan, s, k) + ShardSize(plan, s, k) <= |g[s]|
    && Arrived(ShardIn(plan, g, s, k), LocalGrads(plan, model, t, w, s, k), plan.numel(plan.groups[s][k]), rank)
  }

  lemma {:induction false} ArrivedMatches(plan: Plan, model: Model, t: nat, w: seq<seq<seq<real>>>, g: seq<seq<real>>, rank: nat)
    requires plan.Ok() && ModelOk(plan, model) && PerParam(plan, w) && rank < plan.world
    requires GradsArrived(plan, model, t, w, g, rank)
    ensures GradsMatch(plan, g, rank, AverageGrads(plan, model, t, w))
  {
    forall s, k | plan.Has(s, k) ensures Carries(plan, g, rank, s, k, AverageGrads(plan, model, t, w)[s][k]) {
      ArrivedMatchesAt(plan, model, t, w, g, rank, s, k);
    }
  }

  lemma {:induction false} ArrivedMatchesAt(plan: Plan, model: Model, t: nat, w: seq<seq<seq<real>>>, g: seq<seq<real>>,
                                            rank: nat, s: nat, k: nat)
    requires plan.Ok() && ModelOk(plan, model) && PerParam(plan, w) && rank < plan.world
    requires GradsArrived(plan, model, t, w, g, rank) && plan.Has(s, k)
    ensures Carries(plan, g, rank, s, k, AverageGrads(plan, model, t, w)[s][k])
  {
    assert ArrivedAt(plan, model, t, w, g, rank, s, k);
    hide *;
    AverageIs(plan, model, t, w, s, k);
    SizeIs(plan, plan.groups[s][k]);
    LocalGradsSame(plan, model, t, w, s, k);
    ArrivedParts(plan, model, t, w, g, rank, s, k);
    ArrivedIsSlice(ShardIn(plan, g, s, k), LocalGrads(plan, model, t, w, s, k), plan.numel(plan.groups[s][k]), rank);
    CarriesIntro(plan, g, rank, s, k, AverageGrads(plan, model, t, w)[s][k]);
  }

  lemma {:induction false} ArrivedParts(plan: Plan, model: Model, t: nat, w: seq<seq<seq<real>>>, g: seq<seq<real>>,
                                        rank: nat, s: nat, k: nat)
    requires plan.Ok() && ModelOk(plan, model) && PerParam(plan, w) && rank < plan.world && plan.Has(s, k)
    requires ArrivedAt(plan, model, t, w, g, rank, s, k)
    ensures |g| == |plan.groups| && At(plan, s, k) + ShardSize(plan, s, k) <= |g[s]|
    ensures ShardSize(plan, s, k) == plan.size(plan.groups[s][k])
    ensures |LocalGrads(plan, model, t, w, s, k)| == plan.world
    ensures Arrived(ShardIn(plan, g, s, k), LocalGrads(plan, model, t, w, s, k), plan.numel(plan.groups[s][k]), rank)
  {
  }

  lemma {:induction false} CarriesIntro(plan: Plan, g: seq<seq<real>>, rank: nat, s: nat, k: nat, x: seq<real>)
    requires plan.Has(s, k) && |g| == |plan.groups| && At(plan, s, k) + ShardSize(plan, s, k) <= |g[s]|
    requires Slice(x, plan.size(plan.groups[s][k]), rank) <= ShardIn(plan, g, s, k)
    ensures Carries(plan, g, rank, s, k, x)
  {
  }

  lemma {:induction false} AverageIs(plan: Plan, model: Model, t: nat, w: seq<seq<seq<real>>>, s: nat, k: nat)
    requires plan.Ok() && ModelOk(plan, model) && PerParam(plan, w) && plan.Has(s, k)
    ensures Same(LocalGrads(plan, model, t, w, s, k), plan.numel(plan.groups[s][k]))
    ensures |AverageGrads(plan, model, t, w)| == |plan.groups| && |AverageGrads(plan, model, t, w)[s]| == |plan.groups[s]|
    ensures LocalGrads(plan, model, t, w, s, k) != []
    ensures AverageGrads(plan, model, t, w)[s][k]
         == Average(LocalGrads(plan, model, t, w, s, k), plan.numel(plan.groups[s][k]))
  {
    LocalGradsSame(plan, model, t, w, s, k);
  }

  /** Every rank's gradients have arrived, for gradients computed from the weights w. */
  ghost predicate AllArrived(plan: Plan, model: Model, t: nat, w: seq<seq<seq<real>>>, gs: seq<seq<seq<real>>>)
    requires plan.Ok() && ModelOk(plan, model) && PerParam(plan, w)
  {
    |gs| == plan.world && forall r :: 0 <= r < plan.world ==> GradsArrived(plan, model, t, w, gs[r], r)
  }

  ghost predicate CanStep(plan: Plan, ranks: seq<RankState>, gs: seq<seq<seq<real>>>)
  {
    && |ranks| == |gs| == plan.world
    && forall r :: 0 <= r < plan.world ==> RankOk(plan, ranks[r]) && PerGroup(plan, gs[r])
  }

  /** All ranks step. */
  ghost function AllStep(rule: Rule, plan: Plan, ranks: seq<RankState>, gs: seq<seq<seq<real>>>): seq<RankState>
    requires plan.Ok() && CanStep(plan, ranks, gs)
  {
    seq(plan.world, r requires 0 <= r < plan.world => RankStep(rule, plan, ranks[r], gs[r]))
  }

  lemma {:induction false} ArrivedCanStep(plan: Plan, model: Model, t: nat, w: seq<seq<seq<real>>>,
                                          ranks: seq<RankState>, gs: seq<seq<seq<real>>>, f: FullState)
    requires plan.Ok() && ModelOk(plan, model) && FullOk(plan, f) && PerParam(plan, w)
    requires AllMatch(plan, ranks, f) && AllArrived(plan, model, t, w, gs)
    ensures CanStep(plan, ranks, gs)
  {
    forall r | 0 <= r < plan.world ensures RankOk(plan, ranks[r]) && PerGroup(plan, gs[r]) {
      assert Matches(plan, ranks[r], r, f) && GradsArrived(plan, model, t, w, gs[r], r);
    }
  }

  /** Ranks that carry the reference and step with what arrived for gradients computed from the weights w carry the
      reference stepped with the averages of those gradients. */
  lemma {:induction false} IterationMatches(rule: Rule, plan: Plan, model: Model, t: nat, w: seq<seq<seq<real>>>,
                                            ranks: seq<RankState>, gs: seq<seq<seq<real>>>, f: FullState)
    requires plan.Ok() && ModelOk(plan, model) && FullOk(plan, f) && PerParam(plan, w)
    requires AllMatch(plan, ranks, f) && AllArrived(plan, model, t, w, gs)
    ensures CanStep(plan, ranks, gs)
    ensures AllMatch(plan, AllStep(rule, plan, ranks, gs), FullStep(rule, plan, f, AverageGrads(plan, model, t, w)))
  {
    ArrivedCanStep(plan, model, t, w, ranks, gs, f);
    forall r | 0 <= r < plan.world
      ensures Matches(plan, AllStep(rule, plan, ranks, gs)[r], r, FullStep(rule, plan, f, AverageGrads(plan, model, t, w)))
    {
      ArrivedMatches(plan, model, t, w, gs[r], r);
      StepMatches(rule, plan, ranks[r], gs[r], r, f, AverageGrads(plan, model, t, w));
    }
  }

  // -------------------------------------------------------------- construction

  /** All zeros, the gradients of the step that initialises the optimizer state. */
  function Zeros(n: nat): seq<real> { seq(n, _ => 0.0) }
  function Blank(rule: Rule, n: nat): seq<Slot> { seq(n, _ => rule.initial) }

  /** What construction leaves on a rank: the shards move into the flat buffers, the fp32 copy is taken from them
      and steps once with zero gradients; the fp16 buffers keep the shards. */
  ghost predicate Constructed(rule: Rule, plan: Plan, x: seq<seq<seq<real>>>, rank: nat,
                              shards: seq<seq<seq<real>>>, st: RankState)
    requires plan.Ok() && PerParam(plan, x)
  {
    && |shards| == |plan.groups| && RankOk(plan, st)
    && forall s :: 0 <= s < |plan.groups| ==>
         && RankHolds(shards[s], x[s], plan.world, rank)
         && st.half[s] == Flatten(shards[s])
         && st.master[s] == Weights(rule, plan.groupIds[s], st.half[s], Zeros(|st.half[s]|), Blank(rule, |st.half[s]|))
         && st.slots[s] == Slots(rule, plan.groupIds[s], st.half[s], Zeros(|st.half[s]|), Blank(rule, |st.half[s]|))
  }

  /** The same for the reference. */
  ghost function Start(rule: Rule, plan: Plan, x: seq<seq<seq<real>>>): (f: FullState)
    requires plan.Ok() && PerParam(plan, x)
    ensures FullOk(plan, f)
  {
    var n := |plan.groups|;
    FullState(
      seq(n, s requires 0 <= s < n => seq(|plan.groups[s]|, k requires 0 <= k < |plan.groups[s]| =>
        Weights(rule, plan.groupIds[s], x[s][k], Zeros(|x[s][k]|), Blank(rule, |x[s][k]|)))),
      seq(n, s requires 0 <= s < n => seq(|plan.groups[s]|, k requires 0 <= k < |plan.groups[s]| =>
        Slots(rule, plan.groupIds[s], x[s][k], Zeros(|x[s][k]|), Blank(rule, |x[s][k]|)))),
      x)
  }

  lemma {:induction false} ConstructedMatchesAt(rule: Rule, plan: Plan, x: seq<seq<seq<real>>>, rank: nat,
                                                shards: seq<seq<seq<real>>>, st: RankState, s: nat, k: nat)
    requires plan.Ok() && PerParam(plan, x) && Constructed(rule, plan, x, rank, shards, st) && plan.Has(s, k)
    ensures MatchesAt(plan, st, rank, Start(rule, plan, x), s, k)
  {
    var c, at, y := ShardSize(plan, s, k), At(plan, s, k), x[s][k];
    ConstructedShard(rule, plan, x, rank, shards, st, s, k);
    ConstructedParts(rule, plan, x, rank, shards, st, s, k);
    SliceOfConstant(|y|, c, rank, 0.0, |st.half[s]|, at);
    SliceOfConstant(|y|, c, rank, rule.initial, |st.half[s]|, at);
    hide Slice, Weights, Slots, Half, At, ShardSize;
    StepOfSlice(rule, plan.groupIds[s], y, Zeros(|y|), Blank(rule, |y|), c, rank,
                st.half[s], Zeros(|st.half[s]|), Blank(rule, |st.half[s]|), at);
  }

  lemma {:induction false} ConstructedParts(rule: Rule, plan: Plan, x: seq<seq<seq<real>>>, rank: nat,
                                            shards: seq<seq<seq<real>>>, st: RankState, s: nat, k: nat)
    requires plan.Ok() && PerParam(plan, x) && Constructed(rule, plan, x, rank, shards, st) && plan.Has(s, k)
    ensures At(plan, s, k) + ShardSize(plan, s, k) <= |st.half[s]| == |st.master[s]| == |st.slots[s]|
  {
    ShardFits(plan, st.half, s, k);
  }

  /** The fp16 buffer holds the shard the parameter was partitioned into. */
  lemma {:induction false} ConstructedShard(rule: Rule, plan: Plan, x: seq<seq<seq<real>>>, rank: nat,
                                            shards: seq<seq<seq<real>>>, st: RankState, s: nat, k: nat)
    requires plan.Ok() && PerParam(plan, x) && Constructed(rule, plan, x, rank, shards, st) && plan.Has(s, k)
    ensures Carries(plan, st.half, rank, s, k, x[s][k])
  {
    ShardFits(plan, st.half, s, k);
    FlattenBlock(shards[s], k);
    ShardLengths(plan, x, rank, shards[s], s);
    assert IsShard(shards[s][k], x[s][k], plan.world, rank);
    SizeIs(plan, plan.groups[s][k]);
    hide Flatten, Lengths, Chunk, Slice, Sizes, Off, RankHolds, RankOk, Plan.Ok;
  }

  lemma {:induction false} ShardLengths(plan: Plan, x: seq<seq<seq<real>>>, rank: nat, mine: seq<seq<real>>, s: nat)
    requires plan.Ok() && PerParam(plan, x) && s < |plan.groups| && RankHolds(mine, x[s], plan.world, rank)
    ensures Lengths(mine) == Sizes(plan.groups[s], plan.size)
  {
    forall k | 0 <= k < |mine| ensures |mine[k]| == plan.size(plan.groups[s][k]) {
      assert plan.Has(s, k) && IsShard(mine[k], x[s][k], plan.world, rank);
      SizeIs(plan, plan.groups[s][k]);
    }
  }

  lemma {:induction false} SliceOfConstant<T>(n: nat, c: nat, rank: nat, v: T, m: nat, at: nat)
    requires at + c <= m
    ensures Slice(seq(n, _ => v), c, rank) <= seq(m, _ => v)[at..at + c]
  {
    SliceFits(seq(n, _ => v), c, rank);
  }

  lemma {:induction false} ConstructedMatches(rule: Rule, plan: Plan, x: seq<seq<seq<real>>>, rank: nat,
                                              shards: seq<seq<seq<real>>>, st: RankState)
    requires plan.Ok() && PerParam(plan, x) && Constructed(rule, plan, x, rank, shards, st)
    ensures Matches(plan, st, rank, Start(rule, plan, x))
  {
    forall s, k | plan.Has(s, k) ensures MatchesAt(plan, st, rank, Start(rule, plan, x), s, k) {
      ConstructedMatchesAt(rule, plan, x, rank, shards, st, s, k);
    }
  }

  // ---------------------------------------------------------------- whole runs

  /** One iteration of the reference. */
  ghost function FullNext(rule: Rule, plan: Plan, model: Model, t: nat, f: FullState): (r: FullState)
    requires plan.Ok() && ModelOk(plan, model) && FullOk(plan, f)
    ensures FullOk(plan, r)
  {
    FullStep(rule, plan, f, AverageGrads(plan, model, t, f.half))
  }

  /** The reference after t iterations. */
  ghost function FullAt(rule: Rule, plan: Plan, model: Model, x: seq<seq<seq<real>>>, t: nat): (f: FullState)
    requires plan.Ok() && ModelOk(plan, model) && PerParam(plan, x)
    ensures FullOk(plan, f)
  {
    if t == 0 then Start(rule, plan, x) else FullNext(rule, plan, model, t - 1, FullAt(rule, plan, model, x, t - 1))
  }

  /** All ranks as constructed from the same parameters, each with its own shards. */
  ghost predicate AllConstructed(rule: Rule, plan: Plan, x: seq<seq<seq<real>>>,
                                 shards: seq<seq<seq<seq<real>>>>, start: seq<RankState>)
    requires plan.Ok() && PerParam(plan, x)
  {
    && |start| == |shards| == plan.world
    && forall r :: 0 <= r < plan.world ==> Constructed(rule, plan, x, r, shards[r], start[r])
  }

  lemma {:induction false} StartMatches(rule: Rule, plan: Plan, x: seq<seq<seq<real>>>,
                                        shards: seq<seq<seq<seq<real>>>>, start: seq<RankState>)
    requires plan.Ok() && PerParam(plan, x) && AllConstructed(rule, plan, x, shards, start)
    ensures AllMatch(plan, start, Start(rule, plan, x))
  {
    hide Matches, Constructed, Start;
    forall r | 0 <= r < plan.world ensures Matches(plan, start[r], r, Start(rule, plan, x)) {
      ConstructedMatches(rule, plan, x, r, shards[r], start[r]);
    }
  }

  lemma {:induction false} FullHalf(plan: Plan, f: FullState)
    requires FullOk(plan, f)
    ensures PerParam(plan, f.half)
  {
  }

  /** One iteration of the sharded system: each rank gathers, computes gradients from what it gathered, waits for
      its slices of the averages and steps. gs holds the gradient buffers, padding included; None if they do not
      carry what the reduce-scatters of the iteration deliver. */
  ghost function ShardedNext(rule: Rule, plan: Plan, model: Model, t: nat, ranks: seq<RankState>, f: FullState,
                             gs: seq<seq<seq<real>>>): (r: Option<seq<RankState>>)
    requires plan.Ok() && ModelOk(plan, model) && FullOk(plan, f) && AllMatch(plan, ranks, f)
    ensures r.Some? ==> AllMatch(plan, r.value, FullNext(rule, plan, model, t, f))
  {
    GatherMatches(plan, ranks, f);
    FullHalf(plan, f);
    if !AllArrived(plan, model, t, GatheredAll(plan, ranks), gs) then None else
      IterationMatches(rule, plan, model, t, f.half, ranks, gs, f);
      Some(AllStep(rule, plan, ranks, gs))
  }

  /** The sharded system after t iterations; gs[t] are the gradient buffers of iteration t. */
  ghost function ShardedAt(rule: Rule, plan: Plan, model: Model, x: seq<seq<seq<real>>>, shards: seq<seq<seq<seq<real>>>>,
                           start: seq<RankState>, gs: seq<seq<seq<seq<real>>>>, t: nat): (r: Option<seq<RankState>>)
    requires plan.Ok() && ModelOk(plan, model) && PerParam(plan, x) && t <= |gs|
    requires AllConstructed(rule, plan, x, shards, start)
    ensures r.Some? ==> AllMatch(plan, r.value, FullAt(rule, plan, model, x, t))
  {
    if t == 0 then StartMatches(rule, plan, x, shards, start); Some(start) else
      var before := ShardedAt(rule, plan, model, x, shards, start, gs, t - 1);
      if before.None? then None else
        ShardedNext(rule, plan, model, t - 1, before.value, FullAt(rule, plan, model, x, t - 1), gs[t - 1])
  }

  /** However parameters are cut into shards and padded, grouped into sub-groups and buckets: at every iteration
      every rank gathers exactly the parameters unpartitioned training with averaged gradients would have. */
  lemma {:induction false} ShardedEqualsFull(rule: Rule, plan: Plan, model: Model, x: seq<seq<seq<real>>>,
                                             shards: seq<seq<seq<seq<real>>>>, start: seq<RankState>,
                                             gs: seq<seq<seq<seq<real>>>>, t: nat)
    requires plan.Ok() && ModelOk(plan, model) && PerParam(plan, x) && t <= |gs|
    requires AllConstructed(rule, plan, x, shards, start)
    requires ShardedAt(rule, plan, model, x, shards, start, gs, t).Some?
    ensures var ranks := ShardedAt(rule, plan, model, x, shards, start, gs, t).value;
            && (forall r :: 0 <= r < |ranks| ==> RankOk(plan, ranks[r]))
            && GatheredAll(plan, ranks) == FullAt(rule, plan, model, x, t).half
  {
    var ranks := ShardedAt(rule, plan, model, x, shards, start, gs, t).value;
    GatherMatches(plan, ranks, FullAt(rule, plan, model, x, t));
    hide ShardedAt, FullAt;
  }
}
