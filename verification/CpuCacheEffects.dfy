/** What every hook does to the CPU copies: which are made, which are dropped, and which gathers they serve. */
module CpuCacheEffects {
  import opened Prelude
  import opened CoordinatorState
  import opened CoordinatorPool
  import opened CoordinatorRuns
  import opened CoordinatorEffects
  import opened CpuCache

  /** Module m gives p up when it is left, as far as the trace is concerned. */
  ghost predicate Given(cfg: Config, sys: System, m: int, p: int)
  {
    p in cfg.moduleParams(m) && !cfg.external(p) && MayGiveUp(cfg, sys.state.trace, p)
  }

  /** p has the same copy as before, or none as before. */
  ghost predicate SameCopy(a: Cache, b: Cache, p: int)
  {
    (p in a.copies <==> p in b.copies) && (p in a.copies ==> b.copies[p] == a.copies[p])
  }

  /** After forward, what a module gives up is copied, with its value; after backward its copy is dropped; partitioning
      everything drops every copy; no other hook touches one. */
  ghost predicate CopiesMove(cfg: Config, sys: System, r: System, e: Hook, p: int)
  {
    match e
    case ExitForward(m) =>
      if Given(cfg, sys, m, p) then p in r.cache.copies && r.cache.copies[p] == Full(cfg, sys.cache, p)
      else SameCopy(sys.cache, r.cache, p)
    case ExitBackward(m) => if Given(cfg, sys, m, p) then p !in r.cache.copies else SameCopy(sys.cache, r.cache, p)
    case PartitionAll => p !in r.cache.copies
    case _ => SameCopy(sys.cache, r.cache, p)
  }

  /** A gather is served from copies if and only if every parameter it lists had one when it was issued. */
  ghost predicate SourcesMove(sys: System, r: System)
  {
    var before, now := sys.state.pool.handles, r.state.pool.handles;
    && |r.cache.fromCpu| == |now| && |sys.cache.fromCpu| == |before| <= |now|
    && forall h :: 0 <= h < |now| ==>
         (r.cache.fromCpu[h] <==> if h < |before| then sys.cache.fromCpu[h] else forall p :: p in now[h].params ==> p in sys.cache.copies)
  }

  lemma {:induction false} TouchedIs(cfg: Config, sys: System, m: int, p: int)
    requires RunInv(cfg, sys.brackets, sys.state)
    ensures p in Touched(cfg, sys.state.trace, m) <==> Given(cfg, sys, m, p)
  {
    assert Inv(cfg, sys.state);
    GivesUp(cfg, sys.state, m, p);
    hide Inv, MayGiveUp, ParamsToRelease;
  }

  lemma {:induction false} SaveMoves(cfg: Config, sys: System, r: System, m: int, ps: set<int>, p: int)
    requires p in ps <==> Given(cfg, sys, m, p)
    requires r.cache == sys.cache.(copies := sys.cache.copies + map p | p in ps :: DataOf(sys.cache, p))
    requires p in ps ==> DataOf(sys.cache, p) == Full(cfg, sys.cache, p)
    ensures CopiesMove(cfg, sys, r, ExitForward(m), p)
  {
    hide Given, Full, DataOf;
  }

  lemma {:induction false} DropMoves(cfg: Config, sys: System, r: System, m: int, ps: set<int>, p: int)
    requires p in ps <==> Given(cfg, sys, m, p)
    requires r.cache == sys.cache.(copies := sys.cache.copies - ps)
    ensures CopiesMove(cfg, sys, r, ExitBackward(m), p)
  {
    hide Given, Full;
  }

  lemma {:induction false} ExitMoves(cfg: Config, sys: System, e: Hook, p: int)
    requires CacheInv(cfg, sys) && CpuCache.Allowed(sys, e) && (e.ExitForward? || e.ExitBackward?)
    ensures Next(cfg, sys, e).Ok? && CopiesMove(cfg, sys, Next(cfg, sys, e).value, e, p)
  {
    hide *;
    CacheParts(cfg, sys);
    ExitIs(cfg, sys, e);
    TouchedIs(cfg, sys, e.m, p);
    var ps, r := Touched(cfg, sys.state.trace, e.m), Next(cfg, sys, e).value;
    if e.ExitForward? {
      TouchedReady(cfg, sys.brackets, sys.state, e.m);
      if p in ps { ReadyValue(cfg, sys, p); }
      SaveMoves(cfg, sys, r, e.m, ps, p);
    } else {
      DropMoves(cfg, sys, r, e.m, ps, p);
    }
  }

  lemma {:induction false} ReadyValue(cfg: Config, sys: System, p: int)
    requires DataCurrent(cfg, sys.cache, sys.state.pool) && sys.state.pool.StatusOf(p) == Available
    ensures DataOf(sys.cache, p) == Full(cfg, sys.cache, p)
  {
    hide Full;
  }

  lemma {:induction false} EntryCopies(cfg: Config, c: Cache, a: Pool, b: Pool)
    requires Entered(cfg, c, a, b).Some?
    ensures Entered(cfg, c, a, b).value.copies == c.copies
  {
    hide NewSources, Arrived, ArrivesWith;
  }

  lemma {:induction false} OtherCopies(cfg: Config, sys: System, e: Hook)
    requires RunInv(cfg, sys.brackets, sys.state) && Next(cfg, sys, e).Ok? && (e.Enter? || e.EndIteration? || e.Rewrite?)
    ensures Next(cfg, sys, e).value.cache.copies == sys.cache.copies
  {
    hide RunInv, EnterModule, Reset, Entered;
    if e.Enter? {
      EnterIs(cfg, sys, e.m);
      EntryCopies(cfg, sys.cache, sys.state.pool, EnterModule(cfg, sys.state, e.m).value.pool);
    }
  }

  lemma {:induction false} OtherMoves(cfg: Config, sys: System, e: Hook, p: int)
    requires CacheInv(cfg, sys) && Next(cfg, sys, e).Ok? && (e.Enter? || e.EndIteration? || e.Rewrite?)
    ensures CopiesMove(cfg, sys, Next(cfg, sys, e).value, e, p)
  {
    hide *;
    CacheParts(cfg, sys);
    OtherCopies(cfg, sys, e);
    KeepsCopies(cfg, sys, Next(cfg, sys, e).value, e, p);
  }

  lemma {:induction false} KeepsCopies(cfg: Config, sys: System, r: System, e: Hook, p: int)
    requires r.cache.copies == sys.cache.copies && (e.Enter? || e.EndIteration? || e.Rewrite?)
    ensures CopiesMove(cfg, sys, r, e, p)
  {
    hide Full, Given;
  }

  lemma {:induction false} PartitionMoves(cfg: Config, sys: System, p: int)
    requires CacheInv(cfg, sys) && CpuCache.Allowed(sys, Hook.PartitionAll)
    ensures Next(cfg, sys, Hook.PartitionAll).Ok? && p !in Next(cfg, sys, Hook.PartitionAll).value.cache.copies
  {
    hide *;
    CacheParts(cfg, sys);
    PartitionAllIs(cfg, sys);
    NothingLeft(cfg, sys.brackets, sys.state, sys.cache);
  }

  /** Every hook of every run moves the copies in exactly that way. */
  lemma {:induction false} HooksMoveCopies(cfg: Config, shards: int -> seq<seq<real>>, es: seq<Hook>, e: Hook, p: int)
    requires cfg.WellFormed() && CpuCache.Run(cfg, shards, es).Some? && CpuCache.Allowed(CpuCache.Run(cfg, shards, es).value, e)
    requires Next(cfg, CpuCache.Run(cfg, shards, es).value, e).Ok?
    ensures CopiesMove(cfg, CpuCache.Run(cfg, shards, es).value, Next(cfg, CpuCache.Run(cfg, shards, es).value, e).value, e, p)
  {
    var sys := CpuCache.Run(cfg, shards, es).value;
    hide CpuCache.Run, Next, CacheInv, RunInv, Given;
    match e
    case Enter(m) => OtherMoves(cfg, sys, e, p);
    case ExitForward(m) => ExitMoves(cfg, sys, e, p);
    case ExitBackward(m) => ExitMoves(cfg, sys, e, p);
    case EndIteration => OtherMoves(cfg, sys, e, p);
    case PartitionAll => PartitionMoves(cfg, sys, p);
    case Rewrite(x) => OtherMoves(cfg, sys, e, p);
  }

  lemma {:induction false} EntrySources(cfg: Config, c: Cache, a: Pool, b: Pool)
    requires Entered(cfg, c, a, b).Some?
    ensures Entered(cfg, c, a, b).value.fromCpu == NewSources(c, b.handles)
  {
    hide NewSources, Arrived, ArrivesWith;
  }

  lemma {:induction false} HandlesGrow(cfg: Config, s: State, m: int)
    requires Inv(cfg, s) && cfg.WellFormed() && EnterModule(cfg, s, m).Ok?
    ensures |s.pool.handles| <= |EnterModule(cfg, s, m).value.pool.handles|
  {
    EntryIs(cfg, s, m);
    hide EnterModule, Inv;
  }

  /** On entry of a module, the gathers issued then, prefetched ones included, are served from copies exactly if they can be. */
  lemma {:induction false} EntriesServeCopies(cfg: Config, shards: int -> seq<seq<real>>, es: seq<Hook>, m: int)
    requires cfg.WellFormed() && CpuCache.Run(cfg, shards, es).Some? && Next(cfg, CpuCache.Run(cfg, shards, es).value, Hook.Enter(m)).Ok?
    ensures SourcesMove(CpuCache.Run(cfg, shards, es).value, Next(cfg, CpuCache.Run(cfg, shards, es).value, Hook.Enter(m)).value)
  {
    var sys := CpuCache.Run(cfg, shards, es).value;
    hide *;
    CacheParts(cfg, sys);
    EnterIs(cfg, sys, m);
    HandlesGrow(cfg, sys.state, m);
    var r := EnterModule(cfg, sys.state, m).value;
    EntrySources(cfg, sys.cache, sys.state.pool, r.pool);
    SourcesIntro(sys, CpuCache.Next(cfg, sys, Hook.Enter(m)).value);
  }

  lemma {:induction false} SourcesIntro(sys: System, r: System)
    requires CopiesThere(sys.cache, sys.state.pool) && |sys.state.pool.handles| <= |r.state.pool.handles|
    requires r.cache.fromCpu == NewSources(sys.cache, r.state.pool.handles)
    ensures SourcesMove(sys, r)
  {
  }

  lemma {:induction false} EnterIs(cfg: Config, sys: System, m: int)
    requires RunInv(cfg, sys.brackets, sys.state) && Next(cfg, sys, Hook.Enter(m)).Ok?
    ensures Inv(cfg, sys.state) && EnterModule(cfg, sys.state, m).Ok?
    ensures var r, n := EnterModule(cfg, sys.state, m).value, Next(cfg, sys, Hook.Enter(m)).value;
            n.state == r && Entered(cfg, sys.cache, sys.state.pool, r.pool) == Some(n.cache)
  {
    assert Inv(cfg, sys.state);
    hide Inv, EnterModule, Entered;
  }
}
