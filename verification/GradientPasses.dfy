/** Every model has passes: pipelines for all ranks, and finished passes that bring their buffers what the step needs. */
module GradientPasses {
  import opened Prelude
  import opened Blocks
  import opened ReduceScatter
  import opened SubGroups
  import opened GradientSpec
  import opened GradientRuns
  import opened GradientTheorems
  import opened GradientViews
  import opened GradientOrders
  import opened GradientDelivery
  import opened ShardedStep

  // ------------------------------------------------------------------- homes

  ghost predicate IsAt(plan: Plan, p: int, s: nat, k: nat)
  {
    plan.Has(s, k) && plan.groups[s][k] == p
  }

  ghost predicate Homed(plan: Plan, p: int)
  {
    exists s: nat, k: nat :: IsAt(plan, p, s, k)
  }

  lemma {:induction false} OnlyHome(plan: Plan, s: nat, k: nat, t: nat, l: nat)
    requires Once(plan.groups) && plan.Has(s, k) && IsAt(plan, plan.groups[s][k], t, l)
    ensures s == t && k == l
  {
    OneHome(plan.groups, s, k, t, l);
    hide Once;
  }

  /** What rank `rank` computes for p. */
  ghost function GradOf(plan: Plan, model: Model, t: nat, w: seq<seq<seq<real>>>, rank: nat, p: int): (g: seq<real>)
    requires plan.Ok() && ModelOk(plan, model) && PerParam(plan, w) && rank < plan.world
    ensures |g| == plan.numel(p)
  {
    if Homed(plan, p) then
      var s: nat, k: nat :| IsAt(plan, p, s, k);
      LocalGradsSame(plan, model, t, w, s, k);
      LocalGrads(plan, model, t, w, s, k)[rank]
    else Zero(plan.numel(p))
  }

  /** What the others add to element j of its slice. */
  ghost function OthersOf(plan: Plan, model: Model, t: nat, w: seq<seq<seq<real>>>, rank: nat, p: int, j: int): real
    requires plan.Ok() && ModelOk(plan, model) && PerParam(plan, w) && rank < plan.world
  {
    if Homed(plan, p) && j >= 0 && rank * plan.size(p) + j < plan.numel(p) then
      var s: nat, k: nat :| IsAt(plan, p, s, k);
      LocalGradsSame(plan, model, t, w, s, k);
      FromOthers(LocalGrads(plan, model, t, w, s, k), plan.numel(p), rank, rank * plan.size(p) + j)
    else 0.0
  }

  lemma {:induction false} GradAt(plan: Plan, model: Model, t: nat, w: seq<seq<seq<real>>>, rank: nat, s: nat, k: nat)
    requires plan.Ok() && ModelOk(plan, model) && PerParam(plan, w) && rank < plan.world && plan.Has(s, k)
    requires Once(plan.groups)
    ensures |LocalGrads(plan, model, t, w, s, k)| == plan.world
    ensures GradOf(plan, model, t, w, rank, plan.groups[s][k]) == LocalGrads(plan, model, t, w, s, k)[rank]
  {
    var p := plan.groups[s][k];
    assert IsAt(plan, p, s, k);
    forall u: nat, l: nat | IsAt(plan, p, u, l) ensures u == s && l == k { OnlyHome(plan, s, k, u, l); }
    hide Once, PerParam, ModelOk;
  }

  lemma {:induction false} OthersAre(plan: Plan, model: Model, t: nat, w: seq<seq<seq<real>>>, rank: nat, s: nat, k: nat, j: nat)
    requires plan.Ok() && ModelOk(plan, model) && PerParam(plan, w) && rank < plan.world && plan.Has(s, k)
    requires Once(plan.groups) && rank * plan.size(plan.groups[s][k]) + j < plan.numel(plan.groups[s][k])
    ensures |LocalGrads(plan, model, t, w, s, k)| == plan.world
    ensures Same(LocalGrads(plan, model, t, w, s, k), plan.numel(plan.groups[s][k]))
    ensures var p := plan.groups[s][k];
            OthersOf(plan, model, t, w, rank, p, j)
              == FromOthers(LocalGrads(plan, model, t, w, s, k), plan.numel(p), rank, rank * plan.size(p) + j)
  {
    var p := plan.groups[s][k];
    LocalGradsSame(plan, model, t, w, s, k);
    assert IsAt(plan, p, s, k);
    forall u: nat, l: nat | IsAt(plan, p, u, l) ensures u == s && l == k { OnlyHome(plan, s, k, u, l); }
    hide Once, PerParam, ModelOk, FromOthers, Same;
  }

  // -------------------------------------------------------------------- places

  /** The offset of p's shard: those of the parameters before it. */
  ghost function PlaceOf(plan: Plan, p: int): nat
  {
    var all := AllParams(plan.groups);
    if p in all then var i :| 0 <= i < |all| && all[i] == p; Off(Sizes(all, plan.size), i) else 0
  }

  lemma {:induction false} PlaceAt(plan: Plan, i: nat)
    requires Once(plan.groups) && i < |AllParams(plan.groups)|
    ensures PlaceOf(plan, AllParams(plan.groups)[i]) == Off(Sizes(AllParams(plan.groups), plan.size), i)
  {
    var all := AllParams(plan.groups);
    forall j | 0 <= j < |all| && all[j] == all[i] ensures j == i { }
    hide AllParams, Off;
  }

  lemma {:induction false} PlaceEnds(plan: Plan, i: nat)
    requires Once(plan.groups) && i < |AllParams(plan.groups)|
    ensures var all := AllParams(plan.groups);
            PlaceOf(plan, all[i]) + plan.size(all[i]) <= Total(Sizes(all, plan.size))
  {
    PlaceAt(plan, i);
    BlockFits(Sizes(AllParams(plan.groups), plan.size), i);
    hide AllParams, Off, PlaceOf, Total, Once;
  }

  lemma {:induction false} PlacesApart(plan: Plan, i: nat, j: nat)
    requires Once(plan.groups) && i < j < |AllParams(plan.groups)|
    ensures var all := AllParams(plan.groups);
            PlaceOf(plan, all[i]) + plan.size(all[i]) <= PlaceOf(plan, all[j])
  {
    PlaceAt(plan, i);
    PlaceAt(plan, j);
    BlocksDisjoint(Sizes(AllParams(plan.groups), plan.size), i, j);
    hide AllParams, Off, PlaceOf, Once;
  }

  /** Counted by sub-groups the total is the same, and so is the place of a parameter. */
  lemma {:induction false} PlaceByGroup(plan: Plan, s: nat, k: nat)
    requires Once(plan.groups) && plan.Has(s, k)
    ensures s < |GroupSizes(plan.groups, plan.size)|
    ensures PlaceOf(plan, plan.groups[s][k]) == Off(GroupSizes(plan.groups, plan.size), s) + At(plan, s, k)
  {
    OffsetsAgree(plan.groups, plan.size, s, k);
    RankIs(plan.groups, s, k);
    PlaceAt(plan, Rank(plan.groups, s, k));
    hide AllParams, Off, PlaceOf, Once, Rank;
  }

  lemma {:induction false} TotalByGroup(plan: Plan)
    ensures Total(Sizes(AllParams(plan.groups), plan.size)) == Total(GroupSizes(plan.groups, plan.size))
  {
    GroupStart(plan.groups, plan.size, |plan.groups|);
    FlattenTotal(plan.groups);
    hide Off, GroupSize;
  }

  lemma {:induction false} Listed(plan: Plan, s: nat, k: nat)
    requires plan.Has(s, k)
    ensures Rank(plan.groups, s, k) < |AllParams(plan.groups)|
    ensures AllParams(plan.groups)[Rank(plan.groups, s, k)] == plan.groups[s][k]
  {
    RankIs(plan.groups, s, k);
    hide AllParams, Rank;
  }

  // ---------------------------------------------------------------- a pipeline

  /** The pipeline of a rank in iteration t, with a bucket of the given size. */
  ghost function PipelineOf(plan: Plan, model: Model, t: nat, w: seq<seq<seq<real>>>, rank: nat, bucketSize: nat): Config
    requires plan.Ok() && ModelOk(plan, model) && PerParam(plan, w) && rank < plan.world
  {
    Config(SetOf(AllParams(plan.groups)), plan.numel, plan.size, (p: int) => PlaceOf(plan, p),
           Total(GroupSizes(plan.groups, plan.size)), plan.world, rank,
           (p: int, j: int) => OthersOf(plan, model, t, w, rank, p, j), bucketSize, false)
  }

  lemma {:induction false} PipelineOk(plan: Plan, model: Model, t: nat, w: seq<seq<seq<real>>>, rank: nat, bucketSize: nat)
    requires plan.Ok() && ModelOk(plan, model) && PerParam(plan, w) && rank < plan.world && Once(plan.groups)
    ensures PipelineOf(plan, model, t, w, rank, bucketSize).Ok()
  {
    TotalByGroup(plan);
    var all := AllParams(plan.groups);
    forall p | p in SetOf(all) ensures PlaceOf(plan, p) + plan.size(p) <= Total(Sizes(all, plan.size)) {
      var i :| 0 <= i < |all| && all[i] == p;
      PlaceEnds(plan, i);
    }
    forall p, q | p in SetOf(all) && q in SetOf(all) && p != q
      ensures PlaceOf(plan, p) + plan.size(p) <= PlaceOf(plan, q) || PlaceOf(plan, q) + plan.size(q) <= PlaceOf(plan, p)
    {
      var i :| 0 <= i < |all| && all[i] == p;
      var j :| 0 <= j < |all| && all[j] == q;
      if i < j { PlacesApart(plan, i, j); } else { PlacesApart(plan, j, i); }
    }
    hide AllParams, Off, Total, PlaceOf, Once, OthersOf, ModelOk, PerParam;
  }

  lemma {:induction false} PipelineServes(plan: Plan, model: Model, t: nat, w: seq<seq<seq<real>>>, rank: nat, bucketSize: nat)
    requires plan.Ok() && ModelOk(plan, model) && PerParam(plan, w) && rank < plan.world && Once(plan.groups)
    ensures Serves(PipelineOf(plan, model, t, w, rank, bucketSize), plan, model, t, w, rank)
  {
    var cfg := PipelineOf(plan, model, t, w, rank, bucketSize);
    hide Plan.Ok, ModelOk, PerParam, Once, ServesAt, AllParams, Total, PlaceOf, OthersOf;
    forall s, k | plan.Has(s, k) ensures ServesAt(cfg, plan, model, t, w, s, k) {
      PipelineServesAt(plan, model, t, w, rank, bucketSize, s, k);
    }
  }

  lemma {:induction false} PipelineServesAt(plan: Plan, model: Model, t: nat, w: seq<seq<seq<real>>>, rank: nat,
                                            bucketSize: nat, s: nat, k: nat)
    requires plan.Ok() && ModelOk(plan, model) && PerParam(plan, w) && rank < plan.world && Once(plan.groups) && plan.Has(s, k)
    ensures ServesAt(PipelineOf(plan, model, t, w, rank, bucketSize), plan, model, t, w, s, k)
  {
    var cfg, p := PipelineOf(plan, model, t, w, rank, bucketSize), plan.groups[s][k];
    PlaceByGroup(plan, s, k);
    forall j | 0 <= j < cfg.Len(p) ensures OthersAt(cfg, p, LocalGrads(plan, model, t, w, s, k), j) {
      InSlice(plan, p, rank, j);
      OthersAre(plan, model, t, w, rank, s, k, j);
      hide FromOthers, LocalGrads, OthersOf, Same, Plan.Ok, ModelOk, PerParam, Once, AllParams, Total, PlaceOf;
    }
    hide OthersAt, LocalGrads, OthersOf, ModelOk, PerParam, Once, AllParams, Total, PlaceOf, Off, At;
  }

  lemma {:induction false} InSlice(plan: Plan, p: int, rank: nat, j: nat)
    requires j < SliceLength(plan.numel(p), plan.size(p), rank)
    ensures rank * plan.size(p) + j < plan.numel(p)
  {
  }

  // ------------------------------------------------------------------- a pass

  function NoPadding(i: int, j: int): real { 0.0 }

  /** The hooks, in the order of the parameters. */
  ghost function HooksOf(plan: Plan, model: Model, t: nat, w: seq<seq<seq<real>>>, rank: nat): seq<Event>
    requires plan.Ok() && ModelOk(plan, model) && PerParam(plan, w) && rank < plan.world
  {
    var all := AllParams(plan.groups);
    seq(|all|, i requires 0 <= i < |all| => Hook(all[i], GradOf(plan, model, t, w, rank, all[i]), NoPadding))
  }

  lemma {:induction false} HooksOfOnce(plan: Plan, model: Model, t: nat, w: seq<seq<seq<real>>>, rank: nat, bucketSize: nat)
    requires plan.Ok() && ModelOk(plan, model) && PerParam(plan, w) && rank < plan.world && Once(plan.groups)
    ensures HooksOnce(PipelineOf(plan, model, t, w, rank, bucketSize), HooksOf(plan, model, t, w, rank))
  {
    var all := AllParams(plan.groups);
    assert forall i :: 0 <= i < |all| ==> all[i] in SetOf(all);
    hide AllParams, GradOf, PlaceOf, OthersOf, ModelOk, PerParam, Total;
  }

  lemma {:induction false} HooksOfBring(plan: Plan, model: Model, t: nat, w: seq<seq<seq<real>>>, rank: nat)
    requires plan.Ok() && ModelOk(plan, model) && PerParam(plan, w) && rank < plan.world && Once(plan.groups)
    ensures BringsAll(HooksOf(plan, model, t, w, rank), plan, model, t, w, rank)
  {
    var es := HooksOf(plan, model, t, w, rank);
    forall s, k | plan.Has(s, k) ensures Brings(es, plan, model, t, w, rank, s, k) {
      var i := Rank(plan.groups, s, k);
      Listed(plan, s, k);
      GradAt(plan, model, t, w, rank, s, k);
      hide AllParams, GradOf, LocalGrads, ModelOk, PerParam, Rank, Once;
      assert BroughtBy(es, plan, model, t, w, rank, s, k, i);
    }
    hide HooksOf, Brings;
  }

  lemma {:induction false} NoClash(cfg: Config)
    requires cfg.world > 0 && cfg.bucketSize == 0
    ensures ClashFree(cfg)
  {
  }

  lemma {:induction false} FreshStarts(cfg: Config)
    requires cfg.Ok() && !cfg.direct
    ensures Started(cfg, Fresh0(cfg)) && Fresh0(cfg).grad == seq(cfg.total, _ => 0.0)
  {
    hide Config.Ok;
  }

  /** A rank's pass through its pipeline: all hooks, the end of backward and the last flush. */
  ghost function PassOf(plan: Plan, model: Model, t: nat, w: seq<seq<seq<real>>>, rank: nat): (pass: RankPass)
    requires plan.Ok() && ModelOk(plan, model) && PerParam(plan, w) && rank < plan.world && Once(plan.groups)
    ensures PassDone(pass.cfg, pass.start, pass.events, plan, model, t, w, rank)
  {
    var cfg := PipelineOf(plan, model, t, w, rank, 0);
    var es := HooksOf(plan, model, t, w, rank);
    PassIsDone(plan, model, t, w, rank);
    RankPass(cfg, Fresh0(cfg), Whole(es, NoPadding, NoPadding))
  }

  lemma {:induction false} PassIsDone(plan: Plan, model: Model, t: nat, w: seq<seq<seq<real>>>, rank: nat)
    requires plan.Ok() && ModelOk(plan, model) && PerParam(plan, w) && rank < plan.world && Once(plan.groups)
    ensures var cfg := PipelineOf(plan, model, t, w, rank, 0);
            PassDone(cfg, Fresh0(cfg), Whole(HooksOf(plan, model, t, w, rank), NoPadding, NoPadding), plan, model, t, w, rank)
  {
    var cfg := PipelineOf(plan, model, t, w, rank, 0);
    assert cfg.world == plan.world > 0 && cfg.bucketSize == 0 && !cfg.direct;
    hide *;
    PipelineOk(plan, model, t, w, rank, 0);
    PipelineServes(plan, model, t, w, rank, 0);
    HooksOfOnce(plan, model, t, w, rank, 0);
    HooksOfBring(plan, model, t, w, rank);
    NoClash(cfg);
    FreshStarts(cfg);
    AnyOrderIsDone(cfg, Fresh0(cfg), HooksOf(plan, model, t, w, rank), NoPadding, NoPadding, plan, model, t, w, rank);
  }

  /** Whatever the model computes, there are pipelines and passes through them for all ranks: what the theorem about a
      whole iteration assumes can always be had. */
  lemma {:induction false} PassesExist(plan: Plan, model: Model, t: nat, w: seq<seq<seq<real>>>)
    requires plan.Ok() && ModelOk(plan, model) && PerParam(plan, w) && Once(plan.groups)
    ensures exists passes :: AllDone(plan, model, t, w, passes)
  {
    hide PassDone, Plan.Ok, ModelOk, PerParam, Once, PassOf;
    var passes := seq(plan.world, r requires 0 <= r < plan.world => PassOf(plan, model, t, w, r));
    assert AllDone(plan, model, t, w, passes);
  }
}
