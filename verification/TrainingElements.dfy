/** Training seen element by element: what every weight, every piece of optimizer state and every fp16 weight is after
    each iteration, in terms of the optimizer's rule and the ranks' gradients alone. */
module TrainingElements {
  import opened Prelude
  import opened Blocks
  import opened ReduceScatter
  import opened SubGroups
  import opened ShardedStep
  import opened DelayedSharding

  /** Sums of lists of reals. */
  lemma {:induction false} SumGrows(xs: seq<real>, x: real)
    ensures Sum([]) == 0.0 && Sum(xs + [x]) == Sum(xs) + x
  {
    assert (xs + [x])[..|xs|] == xs;
  }

  /** Element j of parameter k of sub-group s, if there is one. */
  predicate HasElement(plan: Plan, s: int, k: int, j: int)
  {
    plan.Has(s, k) && 0 <= j < plan.numel(plan.groups[s][k])
  }

  /** The gradient rank r computes for it. */
  ghost function GradElement(plan: Plan, model: Model, t: nat, w: seq<seq<seq<real>>>, r: nat, s: nat, k: nat, j: nat): real
    requires ModelOk(plan, model) && PerParam(plan, w) && HasElement(plan, s, k, j)
  {
    assert PerParam(plan, model(t, r, w));
    model(t, r, w)[s][k][j]
  }

  /** The average of the ranks' gradients for it. */
  ghost function MeanElement(plan: Plan, model: Model, t: nat, w: seq<seq<seq<real>>>, s: nat, k: nat, j: nat): real
    requires plan.Ok() && ModelOk(plan, model) && PerParam(plan, w) && HasElement(plan, s, k, j)
  {
    Sum(seq(plan.world, r requires 0 <= r < plan.world => GradElement(plan, model, t, w, r, s, k, j))) / (plan.world as real)
  }

  lemma {:induction false} AverageElement(plan: Plan, model: Model, t: nat, w: seq<seq<seq<real>>>, s: nat, k: nat, j: nat)
    requires plan.Ok() && ModelOk(plan, model) && PerParam(plan, w) && HasElement(plan, s, k, j)
    ensures s < |AverageGrads(plan, model, t, w)| && k < |AverageGrads(plan, model, t, w)[s]|
    ensures j < |AverageGrads(plan, model, t, w)[s][k]|
    ensures AverageGrads(plan, model, t, w)[s][k][j] == MeanElement(plan, model, t, w, s, k, j)
  {
    AverageIs(plan, model, t, w, s, k);
    var locals, n := LocalGrads(plan, model, t, w, s, k), plan.numel(plan.groups[s][k]);
    forall r | 0 <= r < plan.world ensures locals[r][j] == GradElement(plan, model, t, w, r, s, k, j) { }
    assert Column(locals, n, j)
        == seq(plan.world, r requires 0 <= r < plan.world => GradElement(plan, model, t, w, r, s, k, j));
    hide Sum, AverageGrads, ModelOk;
  }

  // ------------------------------------------------------------- one reference step

  /** One value per element. */
  ghost predicate InRange<T>(plan: Plan, v: seq<seq<seq<T>>>, s: nat, k: nat, j: nat)
  {
    s < |v| && k < |v[s]| && j < |v[s][k]|
  }

  lemma {:induction false} ElementIn<T>(plan: Plan, v: seq<seq<seq<T>>>, s: nat, k: nat, j: nat)
    requires PerParam(plan, v) && HasElement(plan, s, k, j)
    ensures InRange(plan, v, s, k, j)
  {
    assert plan.Has(s, k);
  }

  lemma {:induction false} ElementsIn(plan: Plan, f: FullState, s: nat, k: nat, j: nat)
    requires FullOk(plan, f) && HasElement(plan, s, k, j)
    ensures InRange(plan, f.master, s, k, j) && InRange(plan, f.slots, s, k, j) && InRange(plan, f.half, s, k, j)
  {
    ElementIn(plan, f.master, s, k, j);
    ElementIn(plan, f.slots, s, k, j);
    ElementIn(plan, f.half, s, k, j);
  }

  /** g follows f at one element: the rule was applied to the gradient x, and the result rounded. */
  ghost predicate Follows(rule: Rule, plan: Plan, f: FullState, g: FullState, x: real, s: nat, k: nat, j: nat)
  {
    && s < |plan.groupIds|
    && InRange(plan, f.master, s, k, j) && InRange(plan, f.slots, s, k, j)
    && InRange(plan, g.master, s, k, j) && InRange(plan, g.slots, s, k, j) && InRange(plan, g.half, s, k, j)
    && (g.master[s][k][j], g.slots[s][k][j])
       == rule.update(plan.groupIds[s], f.master[s][k][j], x, f.slots[s][k][j])
    && g.half[s][k][j] == rule.half(g.master[s][k][j])
  }

  lemma {:induction false} StepElement(rule: Rule, plan: Plan, f: FullState, g: seq<seq<seq<real>>>, s: nat, k: nat, j: nat)
    requires |plan.groupIds| == |plan.groups| && FullOk(plan, f) && PerParam(plan, g) && HasElement(plan, s, k, j)
    ensures InRange(plan, g, s, k, j) && Follows(rule, plan, f, FullStep(rule, plan, f, g), g[s][k][j], s, k, j)
  {
    var r := FullStep(rule, plan, f, g);
    ElementsIn(plan, f, s, k, j);
    ElementsIn(plan, r, s, k, j);
    ElementIn(plan, g, s, k, j);
    assert r.master[s][k] == WeightsAt(rule, plan, f, g, s, k);
    assert r.slots[s][k] == SlotsAt(rule, plan, f, g, s, k);
    assert r.half[s][k] == Half(rule, r.master[s][k]);
    hide FullOk, PerParam;
  }

  // -------------------------------------------------------------- synchronous training

  /** Construction steps once with a zero gradient from the optimizer's initial state; the fp16 weights stay. */
  lemma {:induction false} StartElement(rule: Rule, plan: Plan, model: Model, x: seq<seq<seq<real>>>, s: nat, k: nat, j: nat)
    requires plan.Ok() && ModelOk(plan, model) && PerParam(plan, x) && HasElement(plan, s, k, j)
    ensures var f := FullAt(rule, plan, model, x, 0);
            && InRange(plan, f.master, s, k, j) && InRange(plan, f.slots, s, k, j) && InRange(plan, x, s, k, j)
            && (f.master[s][k][j], f.slots[s][k][j]) == rule.update(plan.groupIds[s], x[s][k][j], 0.0, rule.initial)
            && f.half == x
  {
    var f := FullAt(rule, plan, model, x, 0);
    ElementsIn(plan, f, s, k, j);
    ElementIn(plan, x, s, k, j);
    assert f == Start(rule, plan, x);
    hide FullAt, FullOk, PerParam, ModelOk;
  }

  /** Every later iteration applies the rule once to every element, with the average of the ranks' gradients for the
      fp16 weights of the iteration, and rounds the result. */
  lemma {:induction false} NextElement(rule: Rule, plan: Plan, model: Model, x: seq<seq<seq<real>>>, t: nat, s: nat, k: nat, j: nat)
    requires plan.Ok() && ModelOk(plan, model) && PerParam(plan, x) && HasElement(plan, s, k, j)
    ensures var f, g := FullAt(rule, plan, model, x, t), FullAt(rule, plan, model, x, t + 1);
            && PerParam(plan, f.half)
            && Follows(rule, plan, f, g, MeanElement(plan, model, t, f.half, s, k, j), s, k, j)
  {
    var f := FullAt(rule, plan, model, x, t);
    FullHalf(plan, f);
    AverageElement(plan, model, t, f.half, s, k, j);
    StepElement(rule, plan, f, AverageGrads(plan, model, t, f.half), s, k, j);
    hide Follows, FullStep, AverageGrads, MeanElement, PerParam, ModelOk, Plan.Ok;
  }

  /** So the parameter every rank gathers after an iteration is, element by element, the rounded result of the rule. */
  lemma {:induction false} GatheredElement(rule: Rule, plan: Plan, model: Model, x: seq<seq<seq<real>>>,
                                           shards: seq<seq<seq<seq<real>>>>, start: seq<RankState>,
                                           gs: seq<seq<seq<seq<real>>>>, t: nat, s: nat, k: nat, j: nat)
    requires plan.Ok() && ModelOk(plan, model) && PerParam(plan, x) && t + 1 <= |gs| && HasElement(plan, s, k, j)
    requires AllConstructed(rule, plan, x, shards, start)
    requires ShardedAt(rule, plan, model, x, shards, start, gs, t + 1).Some?
    ensures var ranks := ShardedAt(rule, plan, model, x, shards, start, gs, t + 1).value;
            var f := FullAt(rule, plan, model, x, t);
            && (forall r :: 0 <= r < |ranks| ==> RankOk(plan, ranks[r])) && PerParam(plan, f.half)
            && InRange(plan, GatheredAll(plan, ranks), s, k, j) && s < |plan.groupIds|
            && InRange(plan, f.master, s, k, j) && InRange(plan, f.slots, s, k, j)
            && GatheredAll(plan, ranks)[s][k][j]
               == rule.half(rule.update(plan.groupIds[s], f.master[s][k][j],
                                        MeanElement(plan, model, t, f.half, s, k, j), f.slots[s][k][j]).0)
  {
    ShardedEqualsFull(rule, plan, model, x, shards, start, gs, t + 1);
    NextElement(rule, plan, model, x, t, s, k, j);
    hide ShardedAt, FullAt, MeanElement, GatheredAll, AllConstructed, RankOk, Plan.Ok, ModelOk, PerParam;
  }

  // ---------------------------------------------------------------------- one rank

  /** A rank's step on one element of a flat buffer. */
  lemma {:induction false} RankElement(rule: Rule, plan: Plan, st: RankState, g: seq<seq<real>>, s: nat, x: nat)
    requires |plan.groupIds| == |st.master| == |st.slots| == |g| && s < |g| && x < |g[s]|
    requires forall i :: 0 <= i < |g| ==> |st.master[i]| == |st.slots[i]| == |g[i]|
    ensures var r := RankStep(rule, plan, st, g);
            && |r.master| == |r.slots| == |r.half| == |g| && |r.master[s]| == |r.slots[s]| == |r.half[s]| == |g[s]|
            && (r.master[s][x], r.slots[s][x])
               == rule.update(plan.groupIds[s], st.master[s][x], g[s][x], st.slots[s][x])
            && r.half[s][x] == rule.half(r.master[s][x])
  {
    var r := RankStep(rule, plan, st, g);
    assert r.master[s] == Weights(rule, plan.groupIds[s], st.master[s], g[s], st.slots[s]);
    assert r.slots[s] == Slots(rule, plan.groupIds[s], st.master[s], g[s], st.slots[s]);
    assert r.half[s] == Half(rule, r.master[s]);
  }

  // ---------------------------------------------------------------- delayed training

  /** Where delayed training starts: the weights of construction, its fp16 weights, and the worker's initial state. */
  lemma {:induction false} DelayedStartElement(rule: Rule, worker: Worker, plan: Plan, x: seq<seq<seq<real>>>, s: nat, k: nat, j: nat)
    requires plan.Ok() && PerParam(plan, x) && HasElement(plan, s, k, j)
    ensures var f := DelayedStart(rule, worker, plan, x);
            && InRange(plan, f.master, s, k, j) && InRange(plan, f.slots, s, k, j) && InRange(plan, x, s, k, j)
            && f.master[s][k][j] == rule.update(plan.groupIds[s], x[s][k][j], 0.0, rule.initial).0
            && f.slots[s][k][j] == worker.initial && f.half == x
  {
    var f := DelayedStart(rule, worker, plan, x);
    ElementsIn(plan, f, s, k, j);
    ElementIn(plan, x, s, k, j);
    assert f.master == Start(rule, plan, x).master;
    hide FullOk, PerParam;
  }

  /** The first iteration only rounds; each later one applies the worker's rule once to every element, with the average
      of the gradients for the fp16 weights of two starts ago. */
  lemma {:induction false} DelayedElement(worker: Worker, half: real -> real, plan: Plan, model: Model, f0: FullState, t: nat,
                                          s: nat, k: nat, j: nat)
    requires plan.Ok() && ModelOk(plan, model) && FullOk(plan, f0) && HasElement(plan, s, k, j)
    ensures var rule := OneRule(worker, half);
            && DelayedFull(rule, plan, model, f0, 0) == f0
            && var f := DelayedFull(rule, plan, model, f0, 1);
               && f.master == f0.master && f.slots == f0.slots
               && InRange(plan, f.half, s, k, j) && f.half[s][k][j] == half(f.master[s][k][j])
    ensures var rule := OneRule(worker, half);
            var d, e := DelayedFull(rule, plan, model, f0, t), DelayedFull(rule, plan, model, f0, t + 1);
            var f := DelayedFull(rule, plan, model, f0, t + 2);
            && PerParam(plan, d.half)
            && InRange(plan, e.master, s, k, j) && InRange(plan, e.slots, s, k, j)
            && InRange(plan, f.master, s, k, j) && InRange(plan, f.slots, s, k, j) && InRange(plan, f.half, s, k, j)
            && (f.master[s][k][j], f.slots[s][k][j])
               == worker.update(e.master[s][k][j], MeanElement(plan, model, t, d.half, s, k, j), e.slots[s][k][j])
            && f.half[s][k][j] == half(f.master[s][k][j])
  {
    var rule := OneRule(worker, half);
    DelayedUnfolds(rule, plan, model, f0, t);
    CopiedElement(rule, plan, f0, s, k, j);
    var d, e := DelayedFull(rule, plan, model, f0, t), DelayedFull(rule, plan, model, f0, t + 1);
    AverageElement(plan, model, t, d.half, s, k, j);
    StepElement(rule, plan, e, AverageGrads(plan, model, t, d.half), s, k, j);
    hide FullStep, AverageGrads, MeanElement, PerParam, ModelOk, Plan.Ok, DelayedFull, CopiedFull;
  }

  lemma {:induction false} CopiedElement(rule: Rule, plan: Plan, f: FullState, s: nat, k: nat, j: nat)
    requires FullOk(plan, f) && HasElement(plan, s, k, j)
    ensures var r := CopiedFull(rule, plan, f);
            && r.master == f.master && r.slots == f.slots
            && InRange(plan, r.half, s, k, j) && InRange(plan, r.master, s, k, j)
            && r.half[s][k][j] == rule.half(r.master[s][k][j])
  {
    var r := CopiedFull(rule, plan, f);
    ElementsIn(plan, r, s, k, j);
    assert r.half[s][k] == Half(rule, f.master[s][k]);
    hide FullOk, PerParam;
  }
}
