/** Sharding and the delayed step together: every rank trains one step behind, with its own worker and its own
    interleaving, on its shards.

    The worker has an optimizer of its own, built from the bare fp32 weights: it knows nothing of the step with zero
    gradients at construction, and it has one parameter group with the default options. */
module DelayedSharding {
  import opened Prelude
  import opened Blocks
  import opened Shards
  import opened ReduceScatter
  import opened SubGroups
  import opened ShardedStep
  import opened ShardedRuns
  import DelayedUpdate

  // ---------------------------------------------------------------- one rank

  /** What a rank's worker updates for one sub-group: its fp32 weights and optimizer state. */
  datatype Kept = Kept(w: seq<real>, o: seq<Slot>)

  /** The optimizer in the worker, whose update knows no parameter groups. */
  datatype Worker = Worker(update: (real, real, Slot) -> (real, Slot), initial: Slot)

  /** It as a rule: the same for every group. */
  function OneRule(worker: Worker, half: real -> real): Rule
  {
    Rule((gid, w, g, o) => worker.update(w, g, o), half, worker.initial)
  }

  /** A rank as its worker finds it: the fp32 weights and the fp16 weights construction left, and an empty optimizer. */
  function Handed(worker: Worker, st: RankState): RankState
  {
    st.(slots := seq(|st.master|, s requires 0 <= s < |st.master| => Empty(worker, |st.master[s]|)))
  }

  function Empty(worker: Worker, n: nat): seq<Slot> { seq(n, _ => worker.initial) }

  function UpdateKept(rule: Rule, gid: int, m: Kept, g: seq<real>): Kept
  {
    if |m.w| == |g| == |m.o| then Kept(Weights(rule, gid, m.w, g, m.o), Slots(rule, gid, m.w, g, m.o)) else m
  }

  /** The gradient buffer of iteration t that arrives on rank r for sub-group j. */
  type Net = (nat, nat, int) -> seq<real>

  function Arriving(plan: Plan, net: Net, t: nat, r: nat): seq<seq<real>>
  {
    seq(|plan.groups|, j requires 0 <= j < |plan.groups| => net(t, r, j))
  }

  /** A rank's training, as the delayed protocol sees it. */
  function TrainingOf(rule: Rule, plan: Plan, st: RankState, r: nat, net: Net)
    : DelayedUpdate.Training<Kept, seq<real>, seq<real>>
    requires |st.master| == |st.slots| == |plan.groups|
  {
    DelayedUpdate.Training(
      |plan.groups|,
      j => if 0 <= j < |plan.groupIds| then plan.groupIds[j] else 0,
      (j, m, g) => if 0 <= j < |plan.groupIds| then UpdateKept(rule, plan.groupIds[j], m, g) else m,
      (m: Kept) => Half(rule, m.w),
      (t, h, j) => net(t, r, j),
      seq(|plan.groups|, j requires 0 <= j < |plan.groups| => Kept(st.master[j], st.slots[j])),
      st.half,
      [])
  }

  ghost predicate Sized(tr: DelayedUpdate.Training<Kept, seq<real>, seq<real>>)
  {
    |tr.w0| == |tr.h0| == tr.groups
  }

  function Unkept(kept: seq<Kept>, half: seq<seq<real>>): RankState
  {
    RankState(seq(|kept|, j requires 0 <= j < |kept| => kept[j].w),
              seq(|kept|, j requires 0 <= j < |kept| => kept[j].o), half)
  }

  /** The rank's buffers at the start of iteration k, which no interleaving can change. */
  function RankAt(tr: DelayedUpdate.Training<Kept, seq<real>, seq<real>>, k: nat): RankState
    requires Sized(tr)
  {
    Unkept(DelayedUpdate.Version(tr, if k == 0 then 0 else k - 1), DelayedUpdate.Seen(tr, k))
  }

  /** update_new_params without a step: only the copy down. */
  function CopiedDown(rule: Rule, st: RankState): RankState
  {
    st.(half := seq(|st.master|, j requires 0 <= j < |st.master| => Half(rule, st.master[j])))
  }

  lemma {:induction false} RankBegins(rule: Rule, plan: Plan, st: RankState, r: nat, net: Net)
    requires |st.master| == |st.slots| == |st.half| == |plan.groups|
    ensures var tr := TrainingOf(rule, plan, st, r, net);
            Sized(tr) && RankAt(tr, 0) == st && RankAt(tr, 1) == CopiedDown(rule, st)
  {
    var tr := TrainingOf(rule, plan, st, r, net);
    assert DelayedUpdate.Version(tr, 0) == tr.w0 && DelayedUpdate.Seen(tr, 0) == tr.h0;
    assert RankAt(tr, 0) == st;
    assert DelayedUpdate.Seen(tr, 1) == CopiedDown(rule, st).half;
  }

  lemma {:induction false} VersionIs(rule: Rule, plan: Plan, st: RankState, r: nat, net: Net, k: nat, j: nat)
    requires |st.master| == |st.slots| == |st.half| == |plan.groups| == |plan.groupIds| && j < |plan.groups|
    ensures var tr := TrainingOf(rule, plan, st, r, net);
            && Sized(tr) && |DelayedUpdate.Version(tr, k)| == |DelayedUpdate.Version(tr, k + 1)| == |plan.groups|
            && |DelayedUpdate.Seen(tr, k + 2)| == |plan.groups|
            && DelayedUpdate.Version(tr, k + 1)[j]
               == UpdateKept(rule, plan.groupIds[j], DelayedUpdate.Version(tr, k)[j], net(k, r, j))
            && DelayedUpdate.Seen(tr, k + 2)[j] == Half(rule, DelayedUpdate.Version(tr, k + 1)[j].w)
  {
    DelayedUpdate.VersionNext(TrainingOf(rule, plan, st, r, net), k, j);
    DelayedUpdate.VersionNext(TrainingOf(rule, plan, st, r, net), k + 2, j);
    hide DelayedUpdate.Version, DelayedUpdate.Seen, UpdateKept, Half;
  }

  /** From one iteration to the next a rank steps with the gradients of the iteration before. */
  lemma {:induction false} RankSteps(rule: Rule, plan: Plan, st: RankState, r: nat, net: Net, k: nat)
    requires |st.master| == |st.slots| == |st.half| == |plan.groups| == |plan.groupIds|
    requires var tr := TrainingOf(rule, plan, st, r, net);
             Sized(tr) && RankOk(plan, RankAt(tr, k + 1)) && PerGroup(plan, Arriving(plan, net, k, r))
    ensures var tr := TrainingOf(rule, plan, st, r, net);
            RankAt(tr, k + 2) == RankStep(rule, plan, RankAt(tr, k + 1), Arriving(plan, net, k, r))
  {
    var tr := TrainingOf(rule, plan, st, r, net);
    var before, after := RankAt(tr, k + 1), RankAt(tr, k + 2);
    var step := RankStep(rule, plan, before, Arriving(plan, net, k, r));
    hide DelayedUpdate.Version, DelayedUpdate.Seen, Weights, Slots, Half, TrainingOf;
    assert before.master == Unkept(DelayedUpdate.Version(tr, k), []).master;
    forall j | 0 <= j < |plan.groups|
      ensures |after.master| == |after.slots| == |after.half| == |plan.groups|
      ensures after.master[j] == step.master[j] && after.slots[j] == step.slots[j] && after.half[j] == step.half[j]
    {
      VersionIs(rule, plan, st, r, net, k, j);
      assert |before.master[j]| == |before.slots[j]| == |Arriving(plan, net, k, r)[j]|;
    }
    if |plan.groups| == 0 { EmptyRank(rule, plan, st, r, net, k); }
  }

  lemma {:induction false} EmptyRank(rule: Rule, plan: Plan, st: RankState, r: nat, net: Net, k: nat)
    requires |st.master| == |st.slots| == |st.half| == |plan.groups| == 0
    ensures Sized(TrainingOf(rule, plan, st, r, net)) && RankAt(TrainingOf(rule, plan, st, r, net), k) == RankState([], [], [])
  {
  }

  // ------------------------------------------------------------- the reference

  /** The reference one step behind: the first iteration only copies down, each later one applies the averages of
      the gradients computed two copies ago. */
  ghost function CopiedFull(rule: Rule, plan: Plan, f: FullState): (r: FullState)
    requires FullOk(plan, f)
    ensures FullOk(plan, r)
  {
    f.(half := AllHalf(rule, plan, f.master))
  }

  ghost function DelayedFull(rule: Rule, plan: Plan, model: Model, f0: FullState, k: nat): (f: FullState)
    requires plan.Ok() && ModelOk(plan, model) && FullOk(plan, f0)
    ensures FullOk(plan, f)
  {
    if k == 0 then f0
    else if k == 1 then CopiedFull(rule, plan, f0)
    else FullStep(rule, plan, DelayedFull(rule, plan, model, f0, k - 1),
                  AverageGrads(plan, model, k - 2, DelayedFull(rule, plan, model, f0, k - 2).half))
  }

  // ------------------------------------------------------------------ all ranks

  /** The ranks' trainings, as constructed. */
  ghost predicate Trainings(rule: Rule, plan: Plan, start: seq<RankState>, net: Net,
                            trs: seq<DelayedUpdate.Training<Kept, seq<real>, seq<real>>>)
  {
    && |trs| == |start| == plan.world
    && forall r :: 0 <= r < plan.world ==>
         && |start[r].master| == |start[r].slots| == |start[r].half| == |plan.groups|
         && trs[r] == TrainingOf(rule, plan, start[r], r, net) && Sized(trs[r])
  }

  ghost function RanksAt(rule: Rule, plan: Plan, start: seq<RankState>, net: Net,
                         trs: seq<DelayedUpdate.Training<Kept, seq<real>, seq<real>>>, k: nat): (ranks: seq<RankState>)
    requires Trainings(rule, plan, start, net, trs)
    ensures |ranks| == plan.world
  {
    seq(plan.world, r requires 0 <= r < plan.world => RankAt(trs[r], k))
  }

  function AllArriving(plan: Plan, net: Net, t: nat): seq<seq<seq<real>>>
  {
    seq(plan.world, r requires 0 <= r < plan.world => Arriving(plan, net, t, r))
  }

  /** What arrives in iteration t is what the reduce-scatters deliver for gradients computed from the weights the
      ranks gather in iteration t. */
  ghost predicate Delivered(rule: Rule, plan: Plan, model: Model, start: seq<RankState>, net: Net,
                            trs: seq<DelayedUpdate.Training<Kept, seq<real>, seq<real>>>, t: nat)
    requires plan.Ok() && ModelOk(plan, model) && Trainings(rule, plan, start, net, trs)
  {
    var ranks := RanksAt(rule, plan, start, net, trs, t);
    && (forall r :: 0 <= r < |ranks| ==> RankOk(plan, ranks[r]))
    && PerParam(plan, GatheredAll(plan, ranks))
    && AllArrived(plan, model, t, GatheredAll(plan, ranks), AllArriving(plan, net, t))
  }

  // -------------------------------------------------------------- the copy down

  lemma {:induction false} CarriesHalf(rule: Rule, plan: Plan, v: seq<seq<real>>, h: seq<seq<real>>, rank: nat, s: nat, k: nat, x: seq<real>)
    requires plan.Has(s, k) && Carries(plan, v, rank, s, k, x)
    requires |h| == |v| && h[s] == Half(rule, v[s])
    ensures Carries(plan, h, rank, s, k, Half(rule, x))
  {
    var c, at := ShardSize(plan, s, k), At(plan, s, k);
    SliceFits(x, c, rank);
    SliceGrows(|x|, c, rank);
    HalfOfPart(rule, x, SliceStart(|x|, c, rank), SliceStart(|x|, c, rank + 1));
    HalfOfPart(rule, v[s], at, at + c);
    assert Slice(Half(rule, x), c, rank) == Half(rule, Slice(x, c, rank));
    assert ShardIn(plan, h, s, k) == Half(rule, ShardIn(plan, v, s, k));
    hide At, ShardSize, Slice, SliceStart;
  }

  lemma {:induction false} CopyMatches(rule: Rule, plan: Plan, st: RankState, rank: nat, f: FullState)
    requires FullOk(plan, f) && Matches(plan, st, rank, f)
    ensures Matches(plan, CopiedDown(rule, st), rank, CopiedFull(rule, plan, f))
  {
    var u, g := CopiedDown(rule, st), CopiedFull(rule, plan, f);
    assert RankOk(plan, u);
    forall s, k | plan.Has(s, k) ensures MatchesAt(plan, u, rank, g, s, k) {
      assert MatchesAt(plan, st, rank, f, s, k);
      CarriesHalf(rule, plan, st.master, u.half, rank, s, k, f.master[s][k]);
      assert g.half[s][k] == Half(rule, f.master[s][k]);
    }
    hide MatchesAt, Carries;
  }

  // ------------------------------------------------------------------- all runs

  lemma {:induction false} BeginsMatch(rule: Rule, plan: Plan, f: FullState, start: seq<RankState>, net: Net,
                                       trs: seq<DelayedUpdate.Training<Kept, seq<real>, seq<real>>>)
    requires plan.Ok() && FullOk(plan, f) && Trainings(rule, plan, start, net, trs)
    requires AllMatch(plan, start, f)
    ensures AllMatch(plan, RanksAt(rule, plan, start, net, trs, 0), f)
    ensures AllMatch(plan, RanksAt(rule, plan, start, net, trs, 1), CopiedFull(rule, plan, f))
  {
    hide Matches, RankAt, TrainingOf, CopiedDown, CopiedFull, FullOk;
    forall r | 0 <= r < plan.world
      ensures Matches(plan, RanksAt(rule, plan, start, net, trs, 0)[r], r, f)
      ensures Matches(plan, RanksAt(rule, plan, start, net, trs, 1)[r], r, CopiedFull(rule, plan, f))
    {
      assert Matches(plan, start[r], r, f) && trs[r] == TrainingOf(rule, plan, start[r], r, net);
      RankBegins(rule, plan, start[r], r, net);
      CopyMatches(rule, plan, start[r], r, f);
    }
  }

  lemma {:induction false} StepIsNext(rule: Rule, plan: Plan, start: seq<RankState>, net: Net,
                                      trs: seq<DelayedUpdate.Training<Kept, seq<real>, seq<real>>>, k: nat)
    requires plan.Ok() && Trainings(rule, plan, start, net, trs)
    requires CanStep(plan, RanksAt(rule, plan, start, net, trs, k + 1), AllArriving(plan, net, k))
    ensures AllStep(rule, plan, RanksAt(rule, plan, start, net, trs, k + 1), AllArriving(plan, net, k))
         == RanksAt(rule, plan, start, net, trs, k + 2)
  {
    hide RankAt, TrainingOf, Arriving, RankOk, RankStep;
    var before, after := RanksAt(rule, plan, start, net, trs, k + 1), RanksAt(rule, plan, start, net, trs, k + 2);
    var stepped := AllStep(rule, plan, before, AllArriving(plan, net, k));
    forall r | 0 <= r < plan.world ensures stepped[r] == after[r] {
      assert trs[r] == TrainingOf(rule, plan, start[r], r, net);
      assert RankOk(plan, before[r]) && PerGroup(plan, AllArriving(plan, net, k)[r]);
      RankSteps(rule, plan, start[r], r, net, k);
    }
  }

  lemma {:induction false} DeliveredIs(rule: Rule, plan: Plan, model: Model, start: seq<RankState>, net: Net,
                                       trs: seq<DelayedUpdate.Training<Kept, seq<real>, seq<real>>>, t: nat, f: FullState)
    requires plan.Ok() && ModelOk(plan, model) && FullOk(plan, f) && Trainings(rule, plan, start, net, trs)
    requires Delivered(rule, plan, model, start, net, trs, t)
    requires AllMatch(plan, RanksAt(rule, plan, start, net, trs, t), f)
    ensures PerParam(plan, f.half) && AllArrived(plan, model, t, f.half, AllArriving(plan, net, t))
  {
    GatherMatches(plan, RanksAt(rule, plan, start, net, trs, t), f);
    hide AllArrived, AllMatch, GatheredAll, RanksAt, RankOk, Plan.Ok, ModelOk;
  }

  lemma {:induction false} DelayedUnfolds(rule: Rule, plan: Plan, model: Model, f0: FullState, k: nat)
    requires plan.Ok() && ModelOk(plan, model) && FullOk(plan, f0)
    ensures DelayedFull(rule, plan, model, f0, 0) == f0
    ensures DelayedFull(rule, plan, model, f0, 1) == CopiedFull(rule, plan, f0)
    ensures var f, g := DelayedFull(rule, plan, model, f0, k + 1), DelayedFull(rule, plan, model, f0, k);
            && FullOk(plan, f) && FullOk(plan, g) && PerParam(plan, g.half)
            && DelayedFull(rule, plan, model, f0, k + 2) == FullStep(rule, plan, f, AverageGrads(plan, model, k, g.half))
  {
    hide CopiedFull, FullStep, AverageGrads, Plan.Ok, ModelOk, PerParam;
    FullHalf(plan, DelayedFull(rule, plan, model, f0, k));
  }

  /** All ranks carry the delayed reference at the start of every iteration. */
  lemma {:induction false} RanksMatch(rule: Rule, plan: Plan, model: Model, f0: FullState, start: seq<RankState>,
                                      net: Net, trs: seq<DelayedUpdate.Training<Kept, seq<real>, seq<real>>>, k: nat)
    requires plan.Ok() && ModelOk(plan, model) && FullOk(plan, f0) && Trainings(rule, plan, start, net, trs)
    requires AllMatch(plan, start, f0)
    requires forall t :: 0 <= t < k - 1 ==> Delivered(rule, plan, model, start, net, trs, t)
    ensures AllMatch(plan, RanksAt(rule, plan, start, net, trs, k), DelayedFull(rule, plan, model, f0, k))
    decreases k
  {
    hide *;
    BeginsMatch(rule, plan, f0, start, net, trs);
    DelayedUnfolds(rule, plan, model, f0, if k < 2 then 0 else k - 2);
    if k >= 2 {
      RanksMatch(rule, plan, model, f0, start, net, trs, k - 1);
      RanksMatch(rule, plan, model, f0, start, net, trs, k - 2);
      var f, g := DelayedFull(rule, plan, model, f0, k - 1), DelayedFull(rule, plan, model, f0, k - 2);
      DeliveredIs(rule, plan, model, start, net, trs, k - 2, g);
      IterationMatches(rule, plan, model, k - 2, g.half,
                       RanksAt(rule, plan, start, net, trs, k - 1), AllArriving(plan, net, k - 2), f);
      StepIsNext(rule, plan, start, net, trs, k - 2);
    }
  }

  /** A rank's buffers in a state of the protocol. */
  function Observed(s: DelayedUpdate.State<Kept, seq<real>, seq<real>>): RankState
  {
    Unkept(s.fp32, s.fp16)
  }

  /** Every rank has reached the start of iteration k in its own interleaving. */
  ghost predicate AllStarted(plan: Plan, trs: seq<DelayedUpdate.Training<Kept, seq<real>, seq<real>>>, affinity: bool,
                             es: seq<seq<DelayedUpdate.Event>>, k: nat)
  {
    && |trs| == |es| == plan.world
    && forall r :: 0 <= r < plan.world ==> Started(trs[r], affinity, es[r], k)
  }

  ghost predicate Started(tr: DelayedUpdate.Training<Kept, seq<real>, seq<real>>, affinity: bool,
                          es: seq<DelayedUpdate.Event>, k: nat)
  {
    Sized(tr) && DelayedUpdate.StartOf(tr, affinity, es, k)
  }

  ghost function ObservedIn(tr: DelayedUpdate.Training<Kept, seq<real>, seq<real>>, affinity: bool,
                            es: seq<DelayedUpdate.Event>, k: nat): RankState
    requires Started(tr, affinity, es, k)
  {
    Observed(DelayedUpdate.At(tr, affinity, es))
  }

  lemma {:induction false} ObservedIs(tr: DelayedUpdate.Training<Kept, seq<real>, seq<real>>, affinity: bool,
                                      es: seq<DelayedUpdate.Event>, k: nat)
    requires Started(tr, affinity, es, k)
    ensures Sized(tr) && ObservedIn(tr, affinity, es, k) == RankAt(tr, k)
  {
    hide DelayedUpdate.Version, DelayedUpdate.Seen, DelayedUpdate.Run;
    DelayedUpdate.AtStart(tr, affinity, es, k);
  }

  /** The ranks' buffers there. */
  ghost function ObservedAll(plan: Plan, trs: seq<DelayedUpdate.Training<Kept, seq<real>, seq<real>>>, affinity: bool,
                             es: seq<seq<DelayedUpdate.Event>>, k: nat): seq<RankState>
    requires AllStarted(plan, trs, affinity, es, k)
  {
    seq(plan.world, r requires 0 <= r < plan.world => ObservedIn(trs[r], affinity, es[r], k))
  }

  lemma {:induction false} ObservedAllIs(rule: Rule, plan: Plan, start: seq<RankState>, net: Net,
                                         trs: seq<DelayedUpdate.Training<Kept, seq<real>, seq<real>>>,
                                         affinity: bool, es: seq<seq<DelayedUpdate.Event>>, k: nat)
    requires Trainings(rule, plan, start, net, trs) && AllStarted(plan, trs, affinity, es, k)
    ensures ObservedAll(plan, trs, affinity, es, k) == RanksAt(rule, plan, start, net, trs, k)
  {
    hide RankAt, Started, ObservedIn, TrainingOf;
    var seen, ranks := ObservedAll(plan, trs, affinity, es, k), RanksAt(rule, plan, start, net, trs, k);
    forall r | 0 <= r < plan.world ensures seen[r] == ranks[r] {
      ObservedIs(trs[r], affinity, es[r], k);
    }
  }

  /** At the start of iteration k the ranks gather the delayed reference, whatever both started from. */
  lemma {:induction false} DelayedFrom(rule: Rule, plan: Plan, model: Model, f0: FullState, start: seq<RankState>, net: Net,
                                       trs: seq<DelayedUpdate.Training<Kept, seq<real>, seq<real>>>,
                                       affinity: bool, es: seq<seq<DelayedUpdate.Event>>, k: nat)
    requires plan.Ok() && ModelOk(plan, model) && FullOk(plan, f0)
    requires AllMatch(plan, start, f0) && Trainings(rule, plan, start, net, trs)
    requires forall t :: 0 <= t < k - 1 ==> Delivered(rule, plan, model, start, net, trs, t)
    requires AllStarted(plan, trs, affinity, es, k)
    ensures var ranks := ObservedAll(plan, trs, affinity, es, k);
            && (forall r :: 0 <= r < |ranks| ==> RankOk(plan, ranks[r]))
            && GatheredAll(plan, ranks) == DelayedFull(rule, plan, model, f0, k).half
  {
    hide *;
    RanksMatch(rule, plan, model, f0, start, net, trs, k);
    ObservedAllIs(rule, plan, start, net, trs, affinity, es, k);
    GatherMatches(plan, RanksAt(rule, plan, start, net, trs, k), DelayedFull(rule, plan, model, f0, k));
  }

  // -------------------------------------------------- what the workers start from

  function HandedAll(worker: Worker, ranks: seq<RankState>): seq<RankState>
  {
    seq(|ranks|, r requires 0 <= r < |ranks| => Handed(worker, ranks[r]))
  }

  /** The reference with an empty optimizer. */
  ghost function HandedFull(worker: Worker, plan: Plan, f: FullState): (r: FullState)
    requires FullOk(plan, f)
    ensures FullOk(plan, r)
  {
    f.(slots := seq(|plan.groups|, s requires 0 <= s < |plan.groups| =>
      seq(|plan.groups[s]|, k requires 0 <= k < |plan.groups[s]| => Empty(worker, |f.master[s][k]|))))
  }

  lemma {:induction false} HandedMatchesAt(worker: Worker, plan: Plan, st: RankState, rank: nat, f: FullState, s: nat, k: nat)
    requires FullOk(plan, f) && Matches(plan, st, rank, f) && plan.Has(s, k)
    ensures MatchesAt(plan, Handed(worker, st), rank, HandedFull(worker, plan, f), s, k)
  {
    var u, g := Handed(worker, st), HandedFull(worker, plan, f);
    assert MatchesAt(plan, st, rank, f, s, k);
    ShardFits(plan, u.slots, s, k);
    SliceOfConstant(|f.master[s][k]|, ShardSize(plan, s, k), rank, worker.initial, |st.master[s]|, At(plan, s, k));
    assert g.slots[s][k] == Empty(worker, |f.master[s][k]|) && u.slots[s] == Empty(worker, |st.master[s]|);
    hide Slice, At, ShardSize, FullOk, RankOk;
  }

  lemma {:induction false} HandedMatches(worker: Worker, plan: Plan, ranks: seq<RankState>, f: FullState)
    requires FullOk(plan, f) && AllMatch(plan, ranks, f)
    ensures AllMatch(plan, HandedAll(worker, ranks), HandedFull(worker, plan, f))
  {
    forall r | 0 <= r < plan.world ensures Matches(plan, HandedAll(worker, ranks)[r], r, HandedFull(worker, plan, f)) {
      assert Matches(plan, ranks[r], r, f);
      forall s, k | plan.Has(s, k)
        ensures MatchesAt(plan, Handed(worker, ranks[r]), r, HandedFull(worker, plan, f), s, k)
      {
        HandedMatchesAt(worker, plan, ranks[r], r, f, s, k);
      }
      HandedOk(worker, plan, ranks[r]);
      hide MatchesAt, FullOk, RankOk, Handed, HandedFull;
    }
  }

  lemma {:induction false} HandedOk(worker: Worker, plan: Plan, st: RankState)
    requires RankOk(plan, st)
    ensures RankOk(plan, Handed(worker, st))
  {
  }

  /** Where delayed training starts: weights after the step with zero gradients at construction, an empty optimizer. */
  ghost function DelayedStart(rule: Rule, worker: Worker, plan: Plan, x: seq<seq<seq<real>>>): (f: FullState)
    requires plan.Ok() && PerParam(plan, x)
    ensures FullOk(plan, f)
  {
    HandedFull(worker, plan, Start(rule, plan, x))
  }

  /** The step with zero gradients leaves the optimizer state of every element as an empty optimizer has it. */
  ghost predicate LeavesInitial(rule: Rule, worker: Worker, plan: Plan, x: seq<seq<seq<real>>>)
    requires plan.Ok() && PerParam(plan, x)
  {
    forall s, k, j :: plan.Has(s, k) && 0 <= j < |x[s][k]| ==> SlotAfter(rule, plan, x, s, k, j) == worker.initial
  }

  /** The optimizer state of one element after construction. */
  ghost function SlotAfter(rule: Rule, plan: Plan, x: seq<seq<seq<real>>>, s: nat, k: nat, j: nat): Slot
    requires plan.Ok() && PerParam(plan, x) && plan.Has(s, k) && j < |x[s][k]|
  {
    rule.update(plan.groupIds[s], x[s][k][j], 0.0, rule.initial).1
  }

  /** Delayed training starts where synchronous training does if and only if the step with zero gradients leaves no
      trace in the optimizer; an optimizer that counts its steps is one behind. */
  lemma {:induction false} StartsAgree(rule: Rule, worker: Worker, plan: Plan, x: seq<seq<seq<real>>>)
    requires plan.Ok() && PerParam(plan, x)
    ensures DelayedStart(rule, worker, plan, x) == Start(rule, plan, x) <==> LeavesInitial(rule, worker, plan, x)
  {
    var f, g := Start(rule, plan, x), DelayedStart(rule, worker, plan, x);
    forall s, k, j | plan.Has(s, k) && 0 <= j < |x[s][k]|
      ensures |f.slots[s][k]| == |g.slots[s][k]| == |x[s][k]|
      ensures f.slots[s][k][j] == SlotAfter(rule, plan, x, s, k, j) && g.slots[s][k][j] == worker.initial
    {
      SlotsOfStart(rule, worker, plan, x, s, k, j);
    }
    if LeavesInitial(rule, worker, plan, x) {
      SameSlots(rule, worker, plan, x);
    } else {
      var s, k, j :| plan.Has(s, k) && 0 <= j < |x[s][k]| && SlotAfter(rule, plan, x, s, k, j) != worker.initial;
      assert f.slots[s][k][j] != g.slots[s][k][j];
    }
    hide Start, DelayedStart, SlotAfter, Plan.Ok, PerParam;
  }

  lemma {:induction false} SlotsOfStart(rule: Rule, worker: Worker, plan: Plan, x: seq<seq<seq<real>>>, s: nat, k: nat, j: nat)
    requires plan.Ok() && PerParam(plan, x) && plan.Has(s, k) && j < |x[s][k]|
    ensures var f, g := Start(rule, plan, x), DelayedStart(rule, worker, plan, x);
            && |f.slots[s][k]| == |g.slots[s][k]| == |x[s][k]|
            && f.slots[s][k][j] == SlotAfter(rule, plan, x, s, k, j) && g.slots[s][k][j] == worker.initial
  {
  }

  lemma {:induction false} SameSlots(rule: Rule, worker: Worker, plan: Plan, x: seq<seq<seq<real>>>)
    requires plan.Ok() && PerParam(plan, x) && LeavesInitial(rule, worker, plan, x)
    ensures DelayedStart(rule, worker, plan, x) == Start(rule, plan, x)
  {
    var f, g := Start(rule, plan, x), DelayedStart(rule, worker, plan, x);
    forall s | 0 <= s < |plan.groups| ensures f.slots[s] == g.slots[s] {
      forall k | 0 <= k < |plan.groups[s]| ensures f.slots[s][k] == g.slots[s][k] {
        assert plan.Has(s, k);
        forall j | 0 <= j < |x[s][k]| ensures f.slots[s][k][j] == g.slots[s][k][j] {
          SlotsOfStart(rule, worker, plan, x, s, k, j);
          assert SlotAfter(rule, plan, x, s, k, j) == worker.initial;
        }
      }
    }
  }

  /** Delayed training on shards, over every interleaving of every rank with its worker: at the start of iteration k the
      ranks gather exactly the parameters of unpartitioned training one step behind, by the workers' own optimizers. */
  lemma {:induction false} DelayedShardedTraining(
      rule: Rule, worker: Worker, plan: Plan, model: Model, x: seq<seq<seq<real>>>, shards: seq<seq<seq<seq<real>>>>,
      start: seq<RankState>, net: Net, trs: seq<DelayedUpdate.Training<Kept, seq<real>, seq<real>>>,
      affinity: bool, es: seq<seq<DelayedUpdate.Event>>, k: nat)
    requires plan.Ok() && ModelOk(plan, model) && PerParam(plan, x)
    requires AllConstructed(rule, plan, x, shards, start)
    requires Trainings(OneRule(worker, rule.half), plan, HandedAll(worker, start), net, trs)
    requires forall t :: 0 <= t < k - 1 ==>
               Delivered(OneRule(worker, rule.half), plan, model, HandedAll(worker, start), net, trs, t)
    requires AllStarted(plan, trs, affinity, es, k)
    ensures var ranks := ObservedAll(plan, trs, affinity, es, k);
            && (forall r :: 0 <= r < |ranks| ==> RankOk(plan, ranks[r]))
            && GatheredAll(plan, ranks)
               == DelayedFull(OneRule(worker, rule.half), plan, model, DelayedStart(rule, worker, plan, x), k).half
  {
    HandedStart(rule, worker, plan, x, shards, start);
    hide *;
    DelayedFrom(OneRule(worker, rule.half), plan, model, DelayedStart(rule, worker, plan, x), HandedAll(worker, start),
                net, trs, affinity, es, k);
  }

  lemma {:induction false} HandedStart(rule: Rule, worker: Worker, plan: Plan, x: seq<seq<seq<real>>>,
                                       shards: seq<seq<seq<seq<real>>>>, start: seq<RankState>)
    requires plan.Ok() && PerParam(plan, x) && AllConstructed(rule, plan, x, shards, start)
    ensures AllMatch(plan, HandedAll(worker, start), DelayedStart(rule, worker, plan, x))
    ensures ShapedStart(plan, HandedAll(worker, start))
  {
    StartMatches(rule, plan, x, shards, start);
    HandedMatches(worker, plan, start, Start(rule, plan, x));
    StartShaped(rule, plan, x, shards, start);
    hide AllMatch, AllConstructed, Start, Plan.Ok, PerParam;
  }

  // ------------------------------------------------------------------ existence

  ghost predicate ShapedStart(plan: Plan, start: seq<RankState>)
  {
    && |start| == plan.world
    && forall r :: 0 <= r < plan.world ==> |start[r].master| == |start[r].slots| == |start[r].half| == |plan.groups|
  }

  ghost function TrainingsOf(rule: Rule, plan: Plan, start: seq<RankState>, net: Net)
    : (trs: seq<DelayedUpdate.Training<Kept, seq<real>, seq<real>>>)
    requires ShapedStart(plan, start)
    ensures Trainings(rule, plan, start, net, trs)
  {
    seq(plan.world, r requires 0 <= r < plan.world => TrainingOf(rule, plan, start[r], r, net))
  }

  /** What arrives in the first n iterations is what the reduce-scatters deliver. */
  ghost predicate Delivers(rule: Rule, plan: Plan, model: Model, start: seq<RankState>, net: Net, n: nat)
    requires plan.Ok() && ModelOk(plan, model) && ShapedStart(plan, start)
  {
    forall t :: 0 <= t < n ==> Delivered(rule, plan, model, start, net, TrainingsOf(rule, plan, start, net), t)
  }

  /** net, but with gs in iteration n. */
  function With(net: Net, n: nat, gs: seq<seq<seq<real>>>): Net
  {
    (t: nat, r: nat, j: int) => if t == n && r < |gs| && 0 <= j < |gs[r]| then gs[r][j] else net(t, r, j)
  }

  lemma {:induction false} ElementSame(rule: Rule, plan: Plan, st: RankState, r: nat, net: Net, other: Net, k: nat, j: nat)
    requires |st.master| == |st.slots| == |st.half| == |plan.groups| == |plan.groupIds| && j < |plan.groups|
    requires net(k, r, j) == other(k, r, j)
    requires var a, b := TrainingOf(rule, plan, st, r, net), TrainingOf(rule, plan, st, r, other);
             Sized(a) && Sized(b) && DelayedUpdate.Version(a, k) == DelayedUpdate.Version(b, k)
    ensures var v := DelayedUpdate.Version(TrainingOf(rule, plan, st, r, net), k + 1);
            var u := DelayedUpdate.Version(TrainingOf(rule, plan, st, r, other), k + 1);
            |v| == |u| == |plan.groups| && v[j] == u[j]
  {
    hide *;
    VersionIs(rule, plan, st, r, net, k, j);
    VersionIs(rule, plan, st, r, other, k, j);
  }

  lemma {:induction false} WithElsewhere(net: Net, n: nat, gs: seq<seq<seq<real>>>, t: nat, r: nat, j: int)
    requires t != n
    ensures With(net, n, gs)(t, r, j) == net(t, r, j)
  {
  }

  lemma {:induction false} SizedOf(rule: Rule, plan: Plan, st: RankState, r: nat, net: Net)
    requires |st.master| == |st.slots| == |st.half| == |plan.groups|
    ensures var tr := TrainingOf(rule, plan, st, r, net);
            && Sized(tr) && tr.groups == |plan.groups|
            && tr.w0 == seq(|plan.groups|, j requires 0 <= j < |plan.groups| => Kept(st.master[j], st.slots[j]))
  {
  }

  lemma {:induction false} VersionSame(rule: Rule, plan: Plan, st: RankState, r: nat, net: Net, n: nat,
                                       gs: seq<seq<seq<real>>>, k: nat)
    requires |st.master| == |st.slots| == |st.half| == |plan.groups| == |plan.groupIds| && k <= n
    ensures var a, b := TrainingOf(rule, plan, st, r, net), TrainingOf(rule, plan, st, r, With(net, n, gs));
            Sized(a) && Sized(b) && DelayedUpdate.Version(a, k) == DelayedUpdate.Version(b, k)
    decreases k
  {
    hide *;
    var other := With(net, n, gs);
    var a, b := TrainingOf(rule, plan, st, r, net), TrainingOf(rule, plan, st, r, other);
    SizedOf(rule, plan, st, r, net);
    SizedOf(rule, plan, st, r, other);
    if k == 0 {
      FirstSame(a, b);
    } else {
      VersionSame(rule, plan, st, r, net, n, gs, k - 1);
      var v, u := DelayedUpdate.Version(a, k), DelayedUpdate.Version(b, k);
      VersionSize(a, k);
      VersionSize(b, k);
      forall j | 0 <= j < |plan.groups| ensures v[j] == u[j] {
        WithElsewhere(net, n, gs, k - 1, r, j);
        ElementSame(rule, plan, st, r, net, other, k - 1, j);
      }
    }
  }

  lemma {:induction false} FirstSame(a: DelayedUpdate.Training<Kept, seq<real>, seq<real>>,
                                     b: DelayedUpdate.Training<Kept, seq<real>, seq<real>>)
    requires Sized(a) && Sized(b) && a.w0 == b.w0
    ensures DelayedUpdate.Version(a, 0) == DelayedUpdate.Version(b, 0)
  {
    DelayedUpdate.VersionStarts(a);
    DelayedUpdate.VersionStarts(b);
  }

  lemma {:induction false} VersionSize(tr: DelayedUpdate.Training<Kept, seq<real>, seq<real>>, k: nat)
    requires Sized(tr)
    ensures |DelayedUpdate.Version(tr, k)| == tr.groups
  {
    hide DelayedUpdate.Version;
  }

  lemma {:induction false} RankSame(rule: Rule, plan: Plan, st: RankState, r: nat, net: Net, n: nat,
                                    gs: seq<seq<seq<real>>>, k: nat)
    requires |st.master| == |st.slots| == |st.half| == |plan.groups| == |plan.groupIds| && k <= n
    ensures var a, b := TrainingOf(rule, plan, st, r, net), TrainingOf(rule, plan, st, r, With(net, n, gs));
            Sized(a) && Sized(b) && RankAt(a, k) == RankAt(b, k)
  {
    var a, b := TrainingOf(rule, plan, st, r, net), TrainingOf(rule, plan, st, r, With(net, n, gs));
    VersionSame(rule, plan, st, r, net, n, gs, if k == 0 then 0 else k - 1);
    DelayedUpdate.SeenSame(a, b, k);
    hide DelayedUpdate.Version, DelayedUpdate.Seen;
  }

  /** Replacing what arrives in iteration n changes no rank's buffers up to iteration n, and no other iteration. */
  lemma {:induction false} RanksSame(rule: Rule, plan: Plan, start: seq<RankState>, net: Net, n: nat,
                                     gs: seq<seq<seq<real>>>, t: nat)
    requires plan.Ok() && ShapedStart(plan, start) && t <= n
    ensures RanksAt(rule, plan, start, net, TrainingsOf(rule, plan, start, net), t)
         == RanksAt(rule, plan, start, With(net, n, gs), TrainingsOf(rule, plan, start, With(net, n, gs)), t)
    ensures t < n ==> AllArriving(plan, With(net, n, gs), t) == AllArriving(plan, net, t)
  {
    var other := With(net, n, gs);
    var a := RanksAt(rule, plan, start, net, TrainingsOf(rule, plan, start, net), t);
    var b := RanksAt(rule, plan, start, other, TrainingsOf(rule, plan, start, other), t);
    forall r | 0 <= r < plan.world
      ensures a[r] == b[r] && (t < n ==> AllArriving(plan, other, t)[r] == AllArriving(plan, net, t)[r])
    {
      RankSame(rule, plan, start[r], r, net, n, gs, t);
    }
    hide RankAt, TrainingOf;
  }

  lemma {:induction false} ArrivingIs(plan: Plan, net: Net, n: nat, gs: seq<seq<seq<real>>>)
    requires |gs| == plan.world && forall r :: 0 <= r < |gs| ==> |gs[r]| == |plan.groups|
    ensures AllArriving(plan, With(net, n, gs), n) == gs
  {
    var all := AllArriving(plan, With(net, n, gs), n);
    forall r | 0 <= r < plan.world ensures all[r] == gs[r] {
      assert forall j :: 0 <= j < |plan.groups| ==> all[r][j] == gs[r][j];
    }
  }

  lemma {:induction false} ArrivedShape(plan: Plan, model: Model, t: nat, w: seq<seq<seq<real>>>, gs: seq<seq<seq<real>>>)
    requires plan.Ok() && ModelOk(plan, model) && PerParam(plan, w) && AllArrived(plan, model, t, w, gs)
    ensures |gs| == plan.world && forall r :: 0 <= r < |gs| ==> |gs[r]| == |plan.groups|
  {
    forall r | 0 <= r < |gs| ensures |gs[r]| == |plan.groups| { assert GradsArrived(plan, model, t, w, gs[r], r); }
  }

  /** What was delivered stays delivered, and gs is delivered in iteration n. */
  lemma {:induction false} WithDelivers(rule: Rule, plan: Plan, model: Model, start: seq<RankState>, net: Net, n: nat,
                                        gs: seq<seq<seq<real>>>, f: FullState)
    requires plan.Ok() && ModelOk(plan, model) && FullOk(plan, f) && PerParam(plan, f.half) && ShapedStart(plan, start)
    requires Delivers(rule, plan, model, start, net, n) && AllArrived(plan, model, n, f.half, gs)
    requires AllMatch(plan, RanksAt(rule, plan, start, net, TrainingsOf(rule, plan, start, net), n), f)
    ensures Delivers(rule, plan, model, start, With(net, n, gs), n + 1)
  {
    var other := With(net, n, gs);
    ArrivedShape(plan, model, n, f.half, gs);
    ArrivingIs(plan, net, n, gs);
    GatherMatches(plan, RanksAt(rule, plan, start, net, TrainingsOf(rule, plan, start, net), n), f);
    hide AllArrived, AllMatch, RanksAt, AllArriving, With, TrainingsOf, Trainings, RankOk, PerParam, GatheredAll;
    forall t | 0 <= t < n + 1
      ensures Delivered(rule, plan, model, start, other, TrainingsOf(rule, plan, start, other), t)
    {
      RanksSame(rule, plan, start, net, n, gs, t);
      assert t < n ==> Delivered(rule, plan, model, start, net, TrainingsOf(rule, plan, start, net), t);
    }
  }

  lemma {:induction false} StartShaped(rule: Rule, plan: Plan, x: seq<seq<seq<real>>>,
                                       shards: seq<seq<seq<seq<real>>>>, start: seq<RankState>)
    requires plan.Ok() && PerParam(plan, x) && AllConstructed(rule, plan, x, shards, start)
    ensures ShapedStart(plan, start)
  {
    forall r | 0 <= r < plan.world
      ensures |start[r].master| == |start[r].slots| == |start[r].half| == |plan.groups|
    {
      assert Constructed(rule, plan, x, r, shards[r], start[r]);
    }
  }

  lemma {:induction false} DeliveriesFrom(rule: Rule, plan: Plan, model: Model, f0: FullState, start: seq<RankState>, n: nat)
    requires plan.Ok() && ModelOk(plan, model) && FullOk(plan, f0) && AllMatch(plan, start, f0) && ShapedStart(plan, start)
    ensures exists net: Net :: Delivers(rule, plan, model, start, net, n)
    decreases n
  {
    hide *;
    if n == 0 {
      NothingDelivered(rule, plan, model, start, (t: nat, r: nat, j: int) => []);
    } else {
      DeliveriesFrom(rule, plan, model, f0, start, n - 1);
      var net: Net :| Delivers(rule, plan, model, start, net, n - 1);
      DeliversParts(rule, plan, model, start, net, n - 1);
      RanksMatch(rule, plan, model, f0, start, net, TrainingsOf(rule, plan, start, net), n - 1);
      var f := DelayedFull(rule, plan, model, f0, n - 1);
      FullHalf(plan, f);
      var gs := AllBuffers(plan, model, n - 1, f.half);
      WithDelivers(rule, plan, model, start, net, n - 1, gs, f);
      assert Delivers(rule, plan, model, start, With(net, n - 1, gs), n);
    }
  }

  /** Such deliveries exist for every model and any number of iterations. */
  lemma {:induction false} DeliveriesExist(rule: Rule, worker: Worker, plan: Plan, model: Model, x: seq<seq<seq<real>>>,
                                           shards: seq<seq<seq<seq<real>>>>, start: seq<RankState>, n: nat)
    requires plan.Ok() && ModelOk(plan, model) && PerParam(plan, x)
    requires AllConstructed(rule, plan, x, shards, start)
    ensures ShapedStart(plan, HandedAll(worker, start))
    ensures exists net: Net :: Delivers(OneRule(worker, rule.half), plan, model, HandedAll(worker, start), net, n)
  {
    HandedStart(rule, worker, plan, x, shards, start);
    hide *;
    DeliveriesFrom(OneRule(worker, rule.half), plan, model, DelayedStart(rule, worker, plan, x), HandedAll(worker, start), n);
  }

  // ------------------------------------------------------------------ going on

  /** Every rank can reach the start of iteration k. */
  ghost predicate AllReach(plan: Plan, trs: seq<DelayedUpdate.Training<Kept, seq<real>, seq<real>>>, affinity: bool, k: nat)
    requires |trs| == plan.world
  {
    forall r :: 0 <= r < plan.world ==> Sized(trs[r]) && DelayedUpdate.Reaches(trs[r], affinity, k)
  }

  /** The ranks get through every iteration if and only if all sub-groups belong to the first parameter group. */
  lemma {:induction false} DelayedGoesOnIff(rule: Rule, plan: Plan, start: seq<RankState>, net: Net,
                                            trs: seq<DelayedUpdate.Training<Kept, seq<real>, seq<real>>>, affinity: bool)
    requires plan.Ok() && Trainings(rule, plan, start, net, trs)
    ensures (forall k: nat :: AllReach(plan, trs, affinity, k)) <==> forall s :: 0 <= s < |plan.groups| ==> plan.groupIds[s] == 0
  {
    forall r | 0 <= r < plan.world
      ensures Sized(trs[r])
      ensures DelayedUpdate.OneGroup(trs[r]) <==> forall s :: 0 <= s < |plan.groups| ==> plan.groupIds[s] == 0
      ensures (forall k: nat :: DelayedUpdate.Reaches(trs[r], affinity, k)) <==> DelayedUpdate.OneGroup(trs[r])
      ensures DelayedUpdate.Reaches(trs[r], affinity, 2) <==> DelayedUpdate.OneGroup(trs[r])
    {
      GroupsOf(rule, plan, start[r], r, net);
      DelayedUpdate.GoesOnIffOneGroup(trs[r], affinity);
    }
    hide DelayedUpdate.OneGroup, DelayedUpdate.Reaches, TrainingOf;
    if forall k: nat :: AllReach(plan, trs, affinity, k) {
      assert AllReach(plan, trs, affinity, 2);
      assert DelayedUpdate.Reaches(trs[0], affinity, 2);
    }
  }

  lemma {:induction false} GroupsOf(rule: Rule, plan: Plan, st: RankState, r: nat, net: Net)
    requires plan.Ok() && |st.master| == |st.slots| == |plan.groups|
    ensures DelayedUpdate.OneGroup(TrainingOf(rule, plan, st, r, net))
       <==> forall s :: 0 <= s < |plan.groups| ==> plan.groupIds[s] == 0
  {
    var tr := TrainingOf(rule, plan, st, r, net);
    assert forall s :: 0 <= s < |plan.groups| ==> tr.gid(s) == plan.groupIds[s];
  }

  lemma {:induction false} NothingDelivered(rule: Rule, plan: Plan, model: Model, start: seq<RankState>, net: Net)
    requires plan.Ok() && ModelOk(plan, model) && ShapedStart(plan, start)
    ensures Delivers(rule, plan, model, start, net, 0)
  {
  }

  lemma {:induction false} DeliversParts(rule: Rule, plan: Plan, model: Model, start: seq<RankState>, net: Net, n: nat)
    requires plan.Ok() && ModelOk(plan, model) && ShapedStart(plan, start) && Delivers(rule, plan, model, start, net, n)
    ensures forall t :: 0 <= t < n - 1 ==> Delivered(rule, plan, model, start, net, TrainingsOf(rule, plan, start, net), t)
  {
    hide Delivered, TrainingsOf;
  }
}
