/** The optional CPU copies of full parameters: a gather whose parameters all have one is served from the copies
    instead of the network. */
module CpuCache {
  import opened Prelude
  import opened Blocks
  import opened CoordinatorState
  import opened CoordinatorPool
  import opened CoordinatorRuns
  import CoordinatorTrace
  import Shards

  // ----------------------------------------------------------- one parameter

  /** A parameter's pinned CPU buffers: the copy in use, and the buffer kept so that pinning is not repeated. */
  class PinnedCopy {
    var active: array?<real>
    var pool: array?<real>

    function Value(): Option<seq<real>>
      reads this, active
    {
      if active == null then None else Some(active[..])
    }

    constructor ()
      ensures Value() == None && pool == null
    {
      active, pool := null, null;
    }

    /** _ensure_pinned_cpu_full_param: the buffer in use, else the kept one, else a new one, of the right size. */
    method EnsurePinned(numel: nat) returns (buffer: array<real>)
      modifies this
      ensures active == buffer && buffer.Length == numel
      ensures var kept := if old(active) != null then old(active) else old(pool);
              if kept != null && kept.Length == numel then buffer == kept && pool == old(pool)
              else fresh(buffer) && pool == buffer
    {
      var candidate := active;
      if candidate == null && pool != null { candidate := pool; }
      if candidate == null || candidate.Length != numel {
        buffer := new real[numel];
        pool := buffer;
      } else {
        buffer := candidate;
      }
      active := buffer;
    }

    /** After forward: the full parameter is copied down. */
    method Save(data: seq<real>)
      modifies this, active, pool
      ensures Value() == Some(data)
    {
      var buffer := EnsurePinned(|data|);
      forall k | 0 <= k < |data| { buffer[k] := data[k]; }
      assert buffer[..] == data;
    }

    /** After backward, and when everything is released: the copy is dropped, its buffer kept. */
    method Retire()
      modifies this
      ensures Value() == None
      ensures pool == if old(active) != null then old(active) else old(pool)
    {
      if active != null && pool != active { pool := active; }
      active := null;
    }
  }

  // ---------------------------------------------------------------- the system

  /** The ranks' shards of every parameter; the CPU copies and the full parameters on the GPU, by value; and for every
      gather whether it is served from copies. */
  datatype Cache = Cache(
    shards: int -> seq<seq<real>>, copies: map<int, seq<real>>, data: map<int, seq<real>>, fromCpu: seq<bool>)

  /** The gather of the current shards: end to end, cut to the parameter's length. */
  function Full(cfg: Config, c: Cache, p: int): seq<real>
  {
    var flat := Shards.Gathered(c.shards(p));
    if cfg.numel(p) <= |flat| then flat[..cfg.numel(p)] else flat
  }

  /** If the ranks hold the shards a parameter was partitioned into, that is the parameter. */
  lemma {:induction false} FullIsParameter(cfg: Config, c: Cache, p: int, x: seq<real>, world: nat)
    requires world > 0 && |c.shards(p)| == world && |x| == cfg.numel(p)
    requires forall r :: 0 <= r < world ==> Shards.IsShard(c.shards(p)[r], x, world, r)
    ensures Full(cfg, c, p) == x
  {
    Shards.SingleGather(c.shards(p), x, world);
  }

  datatype Hook = Enter(m: int) | ExitForward(m: int) | ExitBackward(m: int) | EndIteration | PartitionAll
    | Rewrite(shards: int -> seq<seq<real>>)

  /** The coordinator's view of a hook; rewriting the shards does not concern it. */
  function Plain(e: Hook): Event
    requires !e.Rewrite?
  {
    match e
    case Enter(m) => Event.Enter(m)
    case ExitForward(m) => Exit(m)
    case ExitBackward(m) => Exit(m)
    case EndIteration => Event.EndIteration
    case PartitionAll => Event.PartitionAll
  }

  /** Hook discipline, coordinator state, caches, and whether everything was just partitioned. */
  datatype System = System(brackets: Bracket, state: State, cache: Cache, partitioned: bool)

  /** A gather is served from copies when every one of its parameters has one. */
  predicate AllCopied(c: Cache, h: Handle)
  {
    forall p :: p in h.params ==> p in c.copies
  }

  function NewSources(c: Cache, handles: seq<Handle>): seq<bool>
  {
    seq(|handles|, h requires 0 <= h < |handles| => if h < |c.fromCpu| then c.fromCpu[h] else AllCopied(c, handles[h]))
  }

  /** The gather that brings p when module entry makes it available. */
  function Source(before: Pool, p: int): nat
  {
    if p in before.registry then before.registry[p] else |before.handles|
  }

  function Arrived(before: Pool, after: Pool): set<int>
  {
    set p | p in after.status.Keys && after.StatusOf(p) == Available && before.StatusOf(p) != Available
  }

  /** The value p has after arriving: its copy, or the gather of the shards. */
  function ArrivesWith(cfg: Config, c: Cache, before: Pool, p: int): Option<seq<real>>
  {
    var h := Source(before, p);
    if h < |c.fromCpu| && c.fromCpu[h] then (if p in c.copies then Some(c.copies[p]) else None)
    else Some(Full(cfg, c, p))
  }

  /** Module entry: gathers are issued, and what arrives gets its value. None: a copy had disappeared. */
  ghost function Entered(cfg: Config, c: Cache, before: Pool, after: Pool): Option<Cache>
  {
    var d := c.(fromCpu := NewSources(c, after.handles));
    if exists p :: p in Arrived(before, after) && ArrivesWith(cfg, d, before, p).None? then None
    else Some(d.(data := c.data + map p | p in Arrived(before, after) :: ArrivesWith(cfg, d, before, p).GetOr([])))
  }

  /** The parameters whose copies a module exit touches. */
  function Touched(cfg: Config, t: Trace, m: int): set<int>
  {
    set p | p in cfg.ParamsOf(m) && p in ParamsToRelease(cfg, t, m) && !cfg.external(p)
  }

  function DataOf(c: Cache, p: int): seq<real> { if p in c.data then c.data[p] else [] }

  ghost predicate Allowed(sys: System, e: Hook)
  {
    match e
    case Rewrite(_) => sys.partitioned
    case _ => CoordinatorRuns.Allowed(sys.brackets, Plain(e))
  }

  datatype SystemFailure = Coordinator(failure: Failure) | CopyMissing

  ghost function Next(cfg: Config, sys: System, e: Hook): Result<System, SystemFailure>
    requires RunInv(cfg, sys.brackets, sys.state)
  {
    if e.Rewrite? then
      Ok(sys.(cache := sys.cache.(shards := e.shards)))
    else
      var r := StepRun(cfg, sys.state, Plain(e));
      if r.Err? then Err(Coordinator(r.error)) else
        var b := AfterEvent(sys.brackets, Plain(e));
        var c := sys.cache;
        match e
        case Enter(m) =>
          var d := Entered(cfg, c, sys.state.pool, r.value.pool);
          if d.None? then Err(CopyMissing) else Ok(System(b, r.value, d.value, false))
        case ExitForward(m) =>
          var ps := Touched(cfg, sys.state.trace, m);
          Ok(System(b, r.value, c.(copies := c.copies + map p | p in ps :: DataOf(c, p)), sys.partitioned))
        case ExitBackward(m) =>
          Ok(System(b, r.value, c.(copies := c.copies - Touched(cfg, sys.state.trace, m)), sys.partitioned))
        case EndIteration => Ok(System(b, r.value, c, sys.partitioned))
        case PartitionAll => Ok(System(b, r.value, c.(copies := c.copies - SetOf(cfg.allParams)), true))
  }

  // ---------------------------------------------------------------- invariant

  ghost predicate CopiesCurrent(cfg: Config, c: Cache)
  {
    forall p :: p in c.copies ==> c.copies[p] == Full(cfg, c, p)
  }

  ghost predicate DataCurrent(cfg: Config, c: Cache, s: Pool)
  {
    forall p :: s.StatusOf(p) == Available ==> p in c.data && c.data[p] == Full(cfg, c, p)
  }

  /** A gather under way that is served from copies finds the copies it needs. */
  ghost predicate CopiesThere(c: Cache, s: Pool)
  {
    && |c.fromCpu| == |s.handles|
    && forall p :: p in s.registry && s.StatusOf(p) == InFlight && s.registry[p] < |c.fromCpu| && c.fromCpu[s.registry[p]]
        ==> p in c.copies
  }

  /** Only parameters of modules are gathered or copied. */
  ghost predicate Known(cfg: Config, c: Cache, s: Pool)
  {
    && (forall p :: p in c.copies ==> p in cfg.allParams)
    && (forall p :: s.Live(p) ==> p in cfg.allParams)
  }

  ghost predicate CacheInv(cfg: Config, sys: System)
  {
    && RunInv(cfg, sys.brackets, sys.state) && cfg.WellFormed()
    && CopiesCurrent(cfg, sys.cache) && DataCurrent(cfg, sys.cache, sys.state.pool)
    && CopiesThere(sys.cache, sys.state.pool) && Known(cfg, sys.cache, sys.state.pool)
    && (sys.partitioned ==> sys.cache.copies == map[] && sys.brackets.between && sys.brackets.open == {}
                            && forall p :: !sys.state.pool.Live(p))
  }

  // ------------------------------------------------------------ what entry does

  /** Every registration of b is one of a, or belongs to a gather issued since that lists the parameter. */
  ghost predicate Extends(a: Pool, b: Pool)
  {
    && |a.handles| <= |b.handles|
    && forall p :: p in b.registry ==>
         || (p in a.registry && b.registry[p] == a.registry[p])
         || (|a.handles| <= b.registry[p] < |b.handles| && p in b.handles[b.registry[p]].params)
  }

  ghost predicate SameParams(a: Pool, b: Pool)
  {
    |a.handles| <= |b.handles| && forall h :: 0 <= h < |a.handles| ==> b.handles[h].params == a.handles[h].params
  }

  lemma {:induction false} ExtendsTrans(a: Pool, b: Pool, c: Pool)
    requires Extends(a, b) && Extends(b, c) && SameParams(b, c)
    ensures Extends(a, c)
  {
  }

  lemma {:induction false} GatherExtends(cfg: Config, a: Pool, ps: set<int>)
    requires PoolInv(a)
    ensures Extends(a, AllGather(cfg, a, ps)) && SameParams(a, AllGather(cfg, a, ps))
  {
    var g := AllGather(cfg, a, ps);
    forall p | p in g.registry
      ensures (p in a.registry && g.registry[p] == a.registry[p])
           || (|a.handles| <= g.registry[p] < |g.handles| && p in g.handles[g.registry[p]].params)
    {
      AllGatherHandle(cfg, a, ps, p);
      SortedMember(a.Missing(ps), p);
    }
  }

  lemma {:induction false} WaitExtends(g: Pool, ps: set<int>, m: int)
    ensures Extends(g, FetchWait(g, ps, m)) && SameParams(g, FetchWait(g, ps, m))
  {
  }

  /** What arrives was in flight, or was gathered by the entry itself, in its first gather. */
  ghost predicate CameFrom(a: Pool, b: Pool, p: int)
  {
    if p in a.registry then a.StatusOf(p) == InFlight && a.registry[p] < |a.handles|
    else |a.handles| < |b.handles| && p in b.handles[|a.handles|].params
  }

  lemma {:induction false} FetchedCame(cfg: Config, a: Pool, m: int, p: int)
    requires PoolInv(a) && p in Arrived(a, Fetched(cfg, a, m))
    ensures CameFrom(a, Fetched(cfg, a, m), p)
  {
    var ps := cfg.ParamsOf(m);
    var g := AllGather(cfg, a, ps);
    AllGatherStatus(cfg, a, ps, p);
    FetchWaitStatus(g, ps, m, p);
    AllGatherHandle(cfg, a, ps, p);
    SortedMember(a.Missing(ps), p);
    WaitExtends(g, ps, m);
  }

  /** Prefetching makes nothing available. */
  lemma {:induction false} PrefetchArrives(cfg: Config, a: Pool, f: Pool, ps: set<int>, p: int)
    requires p in Arrived(a, AllGather(cfg, f, ps))
    ensures p in Arrived(a, f)
  {
    AllGatherStatus(cfg, f, ps, p);
  }

  lemma {:induction false} CameLater(a: Pool, f: Pool, b: Pool, p: int)
    requires CameFrom(a, f, p) && SameParams(f, b)
    ensures CameFrom(a, b, p)
  {
  }

  /** The parameters the prefetch asks for belong to modules of the trace. */
  lemma {:induction false} WantedKnown(cfg: Config, t: Trace, s: Pool, p: int)
    requires CoordinatorTrace.ReplayInv(cfg, t) && cfg.WellFormed()
    requires p in Scan(cfg, s, t.queue.value).wanted
    ensures p in cfg.allParams
  {
    var q := t.queue.value;
    ScanCovers(cfg, s, q);
    var e :| e in q[..Scan(cfg, s, q).count] && e.param == p;
    assert e in q && e in TraceFrom(cfg, t.moduleOrder, t.stepId);
    CoordinatorTrace.TraceEntries(cfg, t.moduleOrder, t.stepId, e);
  }

  /** All of this for the entry of a module, prefetch included. */
  ghost predicate EntryFacts(cfg: Config, a: Pool, b: Pool)
  {
    && Extends(a, b)
    && (forall p :: p in Arrived(a, b) ==> CameFrom(a, b, p))
    && (forall p :: b.Live(p) ==> a.Live(p) || p in cfg.allParams)
    && (forall p :: a.StatusOf(p) == Available ==> b.StatusOf(p) == Available)
  }

  lemma {:induction false} FetchedFacts(cfg: Config, a: Pool, m: int)
    requires PoolInv(a) && cfg.WellFormed()
    ensures PoolInv(Fetched(cfg, a, m)) && EntryFacts(cfg, a, Fetched(cfg, a, m))
  {
    hide *;
    var f := Fetched(cfg, a, m);
    FetchedReady(cfg, a, m);
    FetchedExtends(cfg, a, m);
    forall p | p in Arrived(a, f) ensures CameFrom(a, f, p) { FetchedCame(cfg, a, m, p); }
    forall p
      ensures f.Live(p) ==> a.Live(p) || p in cfg.allParams
      ensures a.StatusOf(p) == Available ==> f.StatusOf(p) == Available
    {
      FetchedStatus(cfg, a, m, p);
    }
    EntryIntro(cfg, a, f);
  }

  lemma {:induction false} FetchedExtends(cfg: Config, a: Pool, m: int)
    requires PoolInv(a)
    ensures Extends(a, Fetched(cfg, a, m))
  {
    var ps := cfg.ParamsOf(m);
    var g := AllGather(cfg, a, ps);
    GatherExtends(cfg, a, ps);
    WaitExtends(g, ps, m);
    hide AllGather, FetchWait, PoolInv, Extends, SameParams;
    ExtendsTrans(a, g, FetchWait(g, ps, m));
  }

  lemma {:induction false} FetchedStatus(cfg: Config, a: Pool, m: int, p: int)
    requires PoolInv(a) && cfg.WellFormed()
    ensures Fetched(cfg, a, m).Live(p) ==> a.Live(p) || p in cfg.allParams
    ensures a.StatusOf(p) == Available ==> Fetched(cfg, a, m).StatusOf(p) == Available
  {
    AllGatherStatus(cfg, a, cfg.ParamsOf(m), p);
    FetchWaitStatus(AllGather(cfg, a, cfg.ParamsOf(m)), cfg.ParamsOf(m), m, p);
    hide AllGather, FetchWait, PoolInv;
  }

  lemma {:induction false} EntryIntro(cfg: Config, a: Pool, b: Pool)
    requires Extends(a, b)
    requires forall p :: p in Arrived(a, b) ==> CameFrom(a, b, p)
    requires forall p :: b.Live(p) ==> a.Live(p) || p in cfg.allParams
    requires forall p :: a.StatusOf(p) == Available ==> b.StatusOf(p) == Available
    ensures EntryFacts(cfg, a, b)
  {
    hide Extends, CameFrom, Arrived;
  }

  lemma {:induction false} PrefetchFacts(cfg: Config, a: Pool, f: Pool, ps: set<int>)
    requires PoolInv(f) && EntryFacts(cfg, a, f) && forall p :: p in ps ==> p in cfg.allParams
    ensures EntryFacts(cfg, a, AllGather(cfg, f, ps))
  {
    var b := AllGather(cfg, f, ps);
    AllGatherKeeps(cfg, f, ps);
    GatherExtends(cfg, f, ps);
    ExtendsTrans(a, f, b);
    forall p | p in Arrived(a, b) ensures CameFrom(a, b, p) {
      PrefetchArrives(cfg, a, f, ps, p);
      CameLater(a, f, b, p);
    }
    forall p
      ensures b.Live(p) ==> a.Live(p) || p in cfg.allParams
      ensures a.StatusOf(p) == Available ==> b.StatusOf(p) == Available
    {
      AllGatherStatus(cfg, f, ps, p);
    }
    hide AllGather, Extends, CameFrom, SameParams;
  }

  lemma {:induction false} EntryIs(cfg: Config, s: State, m: int)
    requires Inv(cfg, s) && cfg.WellFormed() && EnterModule(cfg, s, m).Ok?
    ensures EntryFacts(cfg, s.pool, EnterModule(cfg, s, m).value.pool)
  {
    var u := State(s.pool, Prologue(s.trace, m).value);
    FetchedFacts(cfg, s.pool, m);
    if u.trace.mode != Complete {
      PlainFetch(cfg, u, m);
    } else {
      FetchIsPrefetch(cfg, u, m);
      if cfg.prefetchBucket > 0 {
        DiscardKeeps(cfg, u.trace, m);
        var t, f := NextTrace(cfg, u.trace, m), Fetched(cfg, s.pool, m);
        var wanted := Scan(cfg, f, t.queue.value).wanted;
        forall p | p in wanted ensures p in cfg.allParams { WantedKnown(cfg, t, f, p); }
        PrefetchFacts(cfg, s.pool, f, wanted);
      }
    }
    hide EntryFacts, Fetched, AllGather;
  }

  // --------------------------------------------------------- every hook keeps it

  lemma {:induction false} ArrivesCurrent(cfg: Config, c: Cache, a: Pool, b: Pool, p: int)
    requires CopiesCurrent(cfg, c) && CopiesThere(c, a) && |a.handles| <= |b.handles|
    requires CameFrom(a, b, p)
    ensures ArrivesWith(cfg, c.(fromCpu := NewSources(c, b.handles)), a, p) == Some(Full(cfg, c, p))
  {
  }

  lemma {:induction false} EnteredKeeps(cfg: Config, c: Cache, a: Pool, b: Pool)
    requires CopiesCurrent(cfg, c) && DataCurrent(cfg, c, a) && CopiesThere(c, a) && Known(cfg, c, a)
    requires PoolInv(a) && EntryFacts(cfg, a, b)
    ensures Entered(cfg, c, a, b).Some?
    ensures var d := Entered(cfg, c, a, b).value;
            && CopiesCurrent(cfg, d) && DataCurrent(cfg, d, b) && CopiesThere(d, b) && Known(cfg, d, b)
            && d.copies == c.copies
  {
    var d := c.(fromCpu := NewSources(c, b.handles));
    forall p | p in Arrived(a, b) ensures ArrivesWith(cfg, d, a, p) == Some(Full(cfg, c, p)) {
      ArrivesCurrent(cfg, c, a, b, p);
    }
    var r := Entered(cfg, c, a, b).value;
    forall p | b.StatusOf(p) == Available ensures p in r.data && r.data[p] == Full(cfg, c, p) {
      if a.StatusOf(p) != Available { assert p in Arrived(a, b); }
    }
    forall p | p in b.registry && b.StatusOf(p) == InFlight && b.registry[p] < |r.fromCpu| && r.fromCpu[b.registry[p]]
      ensures p in r.copies
    {
      StillThere(c, a, b, p);
    }
    hide NewSources, Arrived, ArrivesWith, Extends, CameFrom, PoolInv, AllCopied;
  }

  lemma {:induction false} StillThere(c: Cache, a: Pool, b: Pool, p: int)
    requires CopiesThere(c, a) && Extends(a, b) && PoolInv(a) && p in b.registry && a.StatusOf(p) != Available
    requires b.registry[p] < |b.handles| && NewSources(c, b.handles)[b.registry[p]]
    ensures p in c.copies
  {
    var h := b.registry[p];
    if p in a.registry && h == a.registry[p] && h < |a.handles| {
      if a.StatusOf(p) == NotAvailable { PartitionedIsUnregistered(a, p); assert false; }
      assert c.fromCpu[h];
    } else {
      assert AllCopied(c, b.handles[h]);
    }
  }

  lemma {:induction false} EnterKeepsCache(cfg: Config, sys: System, m: int)
    requires CacheInv(cfg, sys) && EnterModule(cfg, sys.state, m).Ok?
    ensures Next(cfg, sys, Hook.Enter(m)).Ok? && CacheInv(cfg, Next(cfg, sys, Hook.Enter(m)).value)
  {
    EntryIs(cfg, sys.state, m);
    var r := EnterModule(cfg, sys.state, m).value;
    assert Inv(cfg, sys.state);
    EnterKeepsRun(cfg, sys.brackets, sys.state, m);
    EnteredKeeps(cfg, sys.cache, sys.state.pool, r.pool);
    hide EntryFacts, Entered, RunInv, CopiesThere, Known, DataCurrent, EnterModule, PoolInv;
  }

  /** A module still open has its parameters available and unregistered. */
  lemma {:induction false} OpenReady(cfg: Config, b: Bracket, s: State, m: int, p: int)
    requires RunInv(cfg, b, s) && m in b.open && p in cfg.ParamsOf(m)
    ensures s.pool.StatusOf(p) == Available && p !in s.pool.registry
  {
    assert m in s.pool.ActiveOf(p);
  }

  /** What a module exit does to the pool, as far as the caches care. */
  ghost predicate Shrinks(a: Pool, b: Pool)
  {
    && b.registry == a.registry && b.handles == a.handles
    && forall p :: b.StatusOf(p) != NotAvailable ==> b.StatusOf(p) == a.StatusOf(p)
  }

  lemma {:induction false} ReleaseShrinks(cfg: Config, s: State, m: int)
    ensures Shrinks(s.pool, Release(cfg, s, m).pool)
  {
    var r := Release(cfg, s, m).pool;
    forall p ensures r.StatusOf(p) != NotAvailable ==> r.StatusOf(p) == s.pool.StatusOf(p) {
      LeaveStatus(cfg, s.pool, cfg.ParamsOf(m), m, ParamsToRelease(cfg, s.trace, m), p);
    }
  }

  lemma {:induction false} ShrinkKeeps(cfg: Config, c: Cache, a: Pool, b: Pool)
    requires DataCurrent(cfg, c, a) && CopiesThere(c, a) && Known(cfg, c, a) && Shrinks(a, b)
    ensures DataCurrent(cfg, c, b) && CopiesThere(c, b) && Known(cfg, c, b)
  {
  }

  /** Saving copies of parameters that are available keeps the copies current. */
  lemma {:induction false} SaveKeeps(cfg: Config, c: Cache, s: Pool, ps: set<int>)
    requires CopiesCurrent(cfg, c) && DataCurrent(cfg, c, s) && CopiesThere(c, s) && Known(cfg, c, s)
    requires forall p :: p in ps ==> s.StatusOf(p) == Available && p in cfg.allParams
    ensures var d := c.(copies := c.copies + map p | p in ps :: DataOf(c, p));
            CopiesCurrent(cfg, d) && DataCurrent(cfg, d, s) && CopiesThere(d, s) && Known(cfg, d, s)
  {
  }

  /** Dropping copies of parameters that are not in flight leaves every gather the copies it needs. */
  lemma {:induction false} DropKeeps(cfg: Config, c: Cache, s: Pool, ps: set<int>)
    requires CopiesCurrent(cfg, c) && DataCurrent(cfg, c, s) && CopiesThere(c, s) && Known(cfg, c, s)
    requires forall p :: p in ps ==> p !in s.registry
    ensures var d := c.(copies := c.copies - ps);
            CopiesCurrent(cfg, d) && DataCurrent(cfg, d, s) && CopiesThere(d, s) && Known(cfg, d, s)
  {
  }

  lemma {:induction false} TouchedReady(cfg: Config, b: Bracket, s: State, m: int)
    requires RunInv(cfg, b, s) && m in b.open && cfg.WellFormed()
    ensures forall p :: p in Touched(cfg, s.trace, m) ==>
              s.pool.StatusOf(p) == Available && p !in s.pool.registry && p in cfg.allParams
  {
    forall p | p in Touched(cfg, s.trace, m)
      ensures s.pool.StatusOf(p) == Available && p !in s.pool.registry && p in cfg.allParams
    {
      OpenReady(cfg, b, s, m, p);
    }
  }

  lemma {:induction false} ExitKeepsCache(cfg: Config, sys: System, e: Hook)
    requires CacheInv(cfg, sys) && Allowed(sys, e) && (e.ExitForward? || e.ExitBackward?)
    ensures Next(cfg, sys, e).Ok? && CacheInv(cfg, Next(cfg, sys, e).value)
  {
    hide *;
    var m := e.m;
    var c, pool, ps := sys.cache, sys.state.pool, Touched(cfg, sys.state.trace, m);
    CacheParts(cfg, sys);
    ExitIs(cfg, sys, e);
    TouchedReady(cfg, sys.brackets, sys.state, m);
    ExitKeepsRun(cfg, sys.brackets, sys.state, m);
    ReleaseShrinks(cfg, sys.state, m);
    if e.ExitForward? { SaveKeeps(cfg, c, pool, ps); } else { DropKeeps(cfg, c, pool, ps); }
    ShrinkKeeps(cfg, Next(cfg, sys, e).value.cache, pool, Release(cfg, sys.state, m).pool);
    CacheIntro(cfg, Next(cfg, sys, e).value);
  }

  lemma {:induction false} CacheParts(cfg: Config, sys: System)
    requires CacheInv(cfg, sys)
    ensures RunInv(cfg, sys.brackets, sys.state) && cfg.WellFormed()
    ensures CopiesCurrent(cfg, sys.cache) && DataCurrent(cfg, sys.cache, sys.state.pool)
    ensures CopiesThere(sys.cache, sys.state.pool) && Known(cfg, sys.cache, sys.state.pool)
    ensures sys.partitioned ==> sys.cache.copies == map[] && sys.brackets.between && sys.brackets.open == {}
    ensures sys.partitioned ==> forall p :: sys.state.pool.StatusOf(p) == NotAvailable
  {
    assert forall p :: !sys.state.pool.Live(p) ==> sys.state.pool.StatusOf(p) == NotAvailable;
    hide RunInv, CopiesCurrent, DataCurrent, CopiesThere, Known;
  }

  lemma {:induction false} CacheIntro(cfg: Config, sys: System)
    requires RunInv(cfg, sys.brackets, sys.state) && cfg.WellFormed()
    requires CopiesCurrent(cfg, sys.cache) && DataCurrent(cfg, sys.cache, sys.state.pool)
    requires CopiesThere(sys.cache, sys.state.pool) && Known(cfg, sys.cache, sys.state.pool)
    requires sys.partitioned ==> sys.cache.copies == map[] && sys.brackets.between && sys.brackets.open == {}
    requires sys.partitioned ==> forall p :: sys.state.pool.StatusOf(p) == NotAvailable
    ensures CacheInv(cfg, sys)
  {
    hide RunInv, CopiesCurrent, DataCurrent, CopiesThere, Known;
  }

  lemma {:induction false} ExitIs(cfg: Config, sys: System, e: Hook)
    requires CacheInv(cfg, sys) && Allowed(sys, e) && (e.ExitForward? || e.ExitBackward?)
    ensures e.m in sys.brackets.open && !sys.partitioned && Next(cfg, sys, e).Ok?
    ensures var ps, r := Touched(cfg, sys.state.trace, e.m), Next(cfg, sys, e).value;
            && r.brackets == AfterEvent(sys.brackets, Exit(e.m)) && r.state == Release(cfg, sys.state, e.m)
            && r.partitioned == false
            && r.cache == if e.ExitForward? then sys.cache.(copies := sys.cache.copies + map p | p in ps :: DataOf(sys.cache, p))
                          else sys.cache.(copies := sys.cache.copies - ps)
  {
    hide RunInv, CopiesCurrent, DataCurrent, CopiesThere, Known, Touched, Release, AfterEvent;
  }

  lemma {:induction false} EndKeepsCache(cfg: Config, sys: System)
    requires CacheInv(cfg, sys) && Next(cfg, sys, Hook.EndIteration).Ok?
    ensures CacheInv(cfg, Next(cfg, sys, Hook.EndIteration).value)
  {
    EndKeepsRun(cfg, sys.brackets, sys.state);
    var r := Reset(cfg, sys.state).value;
    assert Shrinks(sys.state.pool, r.pool);
    ShrinkKeeps(cfg, sys.cache, sys.state.pool, r.pool);
    assert forall p :: r.pool.Live(p) <==> sys.state.pool.Live(p);
    hide RunInv, CopiesThere, DataCurrent, Known, Reset;
  }

  /** Between iterations everything can be partitioned, and then no copy and no full parameter is left. */
  lemma {:induction false} NothingLeft(cfg: Config, b: Bracket, s: State, c: Cache)
    requires RunInv(cfg, b, s) && b.between && Known(cfg, c, s.pool)
    ensures var r := ReleaseAll(cfg, s.pool, SetOf(cfg.allParams));
            (forall p :: !r.Live(p)) && r.registry == map[] && |r.handles| == |s.pool.handles|
    ensures c.copies - SetOf(cfg.allParams) == map[]
  {
    var r := ReleaseAll(cfg, s.pool, SetOf(cfg.allParams));
    forall p ensures !r.Live(p) {
      ReleaseAllStatus(cfg, s.pool, SetOf(cfg.allParams), p);
      assert s.pool.StatusOf(p) == InFlight ==> p in s.pool.registry;
    }
    forall k ensures k !in c.copies - SetOf(cfg.allParams) {
      if k in c.copies { assert k in cfg.allParams && k in SetOf(cfg.allParams); }
    }
    EmptyMap(c.copies - SetOf(cfg.allParams));
  }

  lemma {:induction false} PartitionAllKeepsCache(cfg: Config, sys: System)
    requires CacheInv(cfg, sys) && Allowed(sys, Hook.PartitionAll)
    ensures Next(cfg, sys, Hook.PartitionAll).Ok? && CacheInv(cfg, Next(cfg, sys, Hook.PartitionAll).value)
  {
    hide *;
    CacheParts(cfg, sys);
    PartitionAllIs(cfg, sys);
    NothingLeft(cfg, sys.brackets, sys.state, sys.cache);
    StepKeeps(cfg, sys.brackets, sys.state, Event.PartitionAll);
    var r := Next(cfg, sys, Hook.PartitionAll).value;
    NothingToSay(cfg, r.cache, r.state.pool);
    CacheIntro(cfg, r);
  }

  lemma {:induction false} PartitionAllIs(cfg: Config, sys: System)
    requires CacheInv(cfg, sys) && Allowed(sys, Hook.PartitionAll)
    ensures CoordinatorRuns.Allowed(sys.brackets, Event.PartitionAll) && sys.brackets.between
    ensures Inv(cfg, sys.state) && StepRun(cfg, sys.state, Event.PartitionAll).Ok?
    ensures Next(cfg, sys, Hook.PartitionAll).Ok? && |sys.cache.fromCpu| == |sys.state.pool.handles|
    ensures var r := Next(cfg, sys, Hook.PartitionAll).value;
            && r.state == StepRun(cfg, sys.state, Event.PartitionAll).value
            && r.state.pool == ReleaseAll(cfg, sys.state.pool, SetOf(cfg.allParams))
            && r.brackets == AfterEvent(sys.brackets, Event.PartitionAll) == Bracket({}, true)
            && r.cache == sys.cache.(copies := sys.cache.copies - SetOf(cfg.allParams))
  {
    hide ReleaseAll, PoolInv, TraceInv;
  }

  lemma {:induction false} NothingToSay(cfg: Config, c: Cache, s: Pool)
    requires c.copies == map[] && s.registry == map[] && |c.fromCpu| == |s.handles| && forall p :: !s.Live(p)
    ensures CopiesCurrent(cfg, c) && DataCurrent(cfg, c, s) && CopiesThere(c, s) && Known(cfg, c, s)
    ensures forall p :: s.StatusOf(p) == NotAvailable
  {
    forall p ensures s.StatusOf(p) == NotAvailable { assert !s.Live(p); }
  }

  /** Rewriting the shards when everything is partitioned leaves nothing out of date. */
  lemma {:induction false} RewriteKeeps(cfg: Config, sys: System, shards: int -> seq<seq<real>>)
    requires CacheInv(cfg, sys) && sys.partitioned
    ensures Next(cfg, sys, Rewrite(shards)).Ok? && CacheInv(cfg, Next(cfg, sys, Rewrite(shards)).value)
  {
    CacheParts(cfg, sys);
    var r := Next(cfg, sys, Rewrite(shards)).value;
    assert r.state == sys.state && r.brackets == sys.brackets && r.cache.copies == map[] && r.partitioned;
    assert DataCurrent(cfg, r.cache, r.state.pool);
    hide RunInv, Next;
    CacheIntro(cfg, r);
  }

  lemma {:induction false} HookKeepsCache(cfg: Config, sys: System, e: Hook)
    requires CacheInv(cfg, sys) && Allowed(sys, e)
    ensures Next(cfg, sys, e).Ok? ==> CacheInv(cfg, Next(cfg, sys, e).value)
    ensures Next(cfg, sys, e) != Err(CopyMissing)
  {
    match e
    case Enter(m) =>
      if EnterModule(cfg, sys.state, m).Ok? { EnterKeepsCache(cfg, sys, m); }
    case ExitForward(m) => ExitKeepsCache(cfg, sys, e);
    case ExitBackward(m) => ExitKeepsCache(cfg, sys, e);
    case EndIteration => if Next(cfg, sys, e).Ok? { EndKeepsCache(cfg, sys); }
    case PartitionAll => PartitionAllKeepsCache(cfg, sys);
    case Rewrite(shards) => RewriteKeeps(cfg, sys, shards);
  }

  // ------------------------------------------------------------------- runs

  /** Construction left these shards. */
  function Fresh(shards: int -> seq<seq<real>>): System
  {
    System(Bracket({}, true), Initial, Cache(shards, map[], map[], []), true)
  }

  lemma {:induction false} FreshInv(cfg: Config, shards: int -> seq<seq<real>>)
    requires cfg.WellFormed()
    ensures CacheInv(cfg, Fresh(shards))
  {
    InitialInv(cfg);
  }

  /** The system after a list of hooks, if the discipline was kept and none failed. */
  ghost function Run(cfg: Config, shards: int -> seq<seq<real>>, es: seq<Hook>): (r: Option<System>)
    requires cfg.WellFormed()
    ensures r.Some? ==> CacheInv(cfg, r.value)
  {
    if es == [] then FreshInv(cfg, shards); Some(Fresh(shards)) else
      var before := Run(cfg, shards, es[..|es| - 1]);
      if before.None? || !Allowed(before.value, es[|es| - 1]) || Next(cfg, before.value, es[|es| - 1]).Err? then None
      else
        HookKeepsCache(cfg, before.value, es[|es| - 1]);
        Some(Next(cfg, before.value, es[|es| - 1]).value)
  }

  /** In every reachable state a CPU copy is the gather of the current shards, so is every available parameter,
      whichever way it was gathered, and no gather served from copies ever finds one missing. */
  lemma {:induction false} CopiesAgree(cfg: Config, shards: int -> seq<seq<real>>, es: seq<Hook>, e: Hook, p: int)
    requires cfg.WellFormed() && Run(cfg, shards, es).Some? && Allowed(Run(cfg, shards, es).value, e)
    ensures var sys := Run(cfg, shards, es).value;
            && (p in sys.cache.copies ==> sys.cache.copies[p] == Full(cfg, sys.cache, p))
            && (sys.state.pool.StatusOf(p) == Available ==> p in sys.cache.data && sys.cache.data[p] == Full(cfg, sys.cache, p))
            && Next(cfg, sys, e) != Err(CopyMissing)
  {
    HookKeepsCache(cfg, Run(cfg, shards, es).value, e);
    hide RunInv, Run, Next, CopiesThere, Known;
  }

  /** Shards are rewritten only while there is no CPU copy and no full parameter. */
  lemma {:induction false} RewriteFindsNone(cfg: Config, shards: int -> seq<seq<real>>, next: int -> seq<seq<real>>, es: seq<Hook>)
    requires cfg.WellFormed() && Run(cfg, shards, es).Some? && Allowed(Run(cfg, shards, es).value, Rewrite(next))
    ensures Run(cfg, shards, es).value.cache.copies == map[]
    ensures forall p :: Run(cfg, shards, es).value.state.pool.StatusOf(p) == NotAvailable
  {
    hide *;
    CacheParts(cfg, Run(cfg, shards, es).value);
    MayRewrite(Run(cfg, shards, es).value, next);
  }

  lemma {:induction false} MayRewrite(sys: System, next: int -> seq<seq<real>>)
    ensures Allowed(sys, Rewrite(next)) <==> sys.partitioned
  {
  }
}
