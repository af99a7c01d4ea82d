/** The gradient pipeline of one rank during one backward pass, as values.

    Gradients are collected in a bucket; a full bucket is reduce-scattered, and while that is under way the
    next bucket is collected. The reduce-scatter itself is the one of ReduceScatter.dfy: for each tensor a rank
    receives its slice of its own divided gradient plus what the other ranks contribute to that slice. */
module GradientSpec {
  import opened Prelude
  import opened Blocks
  import opened ReduceScatter
  import opened SubGroups

  /** Sizes of the parameters and of their shards, where shards live in the flat gradient buffers, what the
      other ranks contribute, the bucket size, and whether a reduce-scatter may write into the flat gradient
      buffer (the synchronous version never does). Parameters are named by ds_id. */
  datatype Config = Config(
    params: set<int>, numel: int -> nat, size: int -> nat, offset: int -> nat, total: nat,
    world: nat, rank: nat, others: (int, int) -> real, bucketSize: nat, direct: bool)
  {
    /** How much of its shard a rank really has. */
    function Len(p: int): nat { SliceLength(numel(p), size(p), rank) }

    ghost predicate Ok()
    {
      && 0 <= rank < world
      && (forall p: int :: size(p) == Chunk(numel(p), world))
      && (forall p :: p in params ==> offset(p) + size(p) <= total)
      && (forall p, q :: p in params && q in params && p != q ==>
            offset(p) + size(p) <= offset(q) || offset(q) + size(q) <= offset(p))
    }

    /** The flat buffers list the parameters in ascending id order. */
    ghost predicate Ascends()
    {
      forall p, q :: p in params && q in params && p < q ==> offset(p) + size(p) <= offset(q)
    }
  }

  /** Where a collected gradient is: copied into the bucket's flat buffer, or left where autograd put it. */
  datatype Where = InBucket(at: nat) | Own(data: seq<real>)

  /** What a reduce-scatter reads: a private buffer with every tensor divided by the number of ranks, or, for one
      evenly divisible tensor in the bucket buffer, that part of the bucket buffer itself. */
  datatype Input = View(at: nat) | Private(data: seq<seq<real>>)

  /** Where it writes: into the flat fp16 gradient buffer, or into new storage. */
  datatype Output = Direct(first: nat) | Fresh

  /** A submitted reduce-scatter; flat is its output once it has completed. */
  datatype Pending = Pending(params: seq<int>, input: Input, output: Output, flat: Option<seq<real>>)

  datatype Pipe = Pipe(
    bucket: seq<int>, places: map<int, Where>, buffer: seq<real>, pending: Option<Pending>,
    grad: seq<real>, fp32: seq<real>, micro: nat)

  // ------------------------------------------------------------------- pieces

  function Plus(a: seq<real>, b: seq<real>): (r: seq<real>)
    requires |a| == |b|
    ensures |r| == |a|
  {
    seq(|a|, j requires 0 <= j < |a| => a[j] + b[j])
  }

  function Elements(cfg: Config, ps: seq<int>): nat
  {
    GroupSize(ps, cfg.numel)
  }

  ghost predicate Shaped(cfg: Config, s: Pipe)
  {
    |s.buffer| == cfg.bucketSize && |s.grad| == |s.fp32| == cfg.total
  }

  /** The gradient of a collected parameter, read where it is now. */
  function Content(cfg: Config, s: Pipe, p: int): seq<real>
    requires PlaceOk(cfg, s, p)
  {
    match s.places[p]
    case InBucket(at) => s.buffer[at..at + cfg.numel(p)]
    case Own(data) => data
  }

  predicate PlaceOk(cfg: Config, s: Pipe, p: int)
  {
    && p in s.places
    && (s.places[p].InBucket? ==> s.places[p].at + cfg.numel(p) <= |s.buffer|)
    && (s.places[p].Own? ==> |s.places[p].data| == cfg.numel(p))
  }

  // --------------------------------------------------------------- operations

  /** __add_grad_to_ipg_bucket */
  function Add(cfg: Config, s: Pipe, p: int, g: seq<real>): Pipe
    requires |s.buffer| == cfg.bucketSize
  {
    var e := Elements(cfg, s.bucket);
    if e + |g| < cfg.bucketSize then
      s.(bucket := s.bucket + [p], places := s.places[p := InBucket(e)], buffer := Put(s.buffer, e, g))
    else
      s.(bucket := s.bucket + [p], places := s.places[p := Own(g)])
  }

  /** The test that lets a reduce-scatter write straight into the flat gradient buffer. */
  predicate LooksContiguous(cfg: Config, ps: seq<int>)
    requires ps != []
  {
    cfg.offset(ps[0]) + GroupSize(ps, cfg.size) == cfg.offset(ps[|ps| - 1]) + cfg.size(ps[|ps| - 1])
  }

  function Target(cfg: Config, ps: seq<int>): Output
    requires ps != []
  {
    if cfg.direct && LooksContiguous(cfg, ps) then Direct(cfg.offset(ps[0])) else Fresh
  }

  ghost predicate Placed(cfg: Config, s: Pipe, ps: seq<int>)
  {
    forall i :: 0 <= i < |ps| ==> PlaceOk(cfg, s, ps[i])
  }

  /** The only tensor, divisible by the number of ranks, lies in the bucket buffer: it is divided and read there. */
  predicate TakesView(cfg: Config, s: Pipe, ps: seq<int>)
    requires cfg.world > 0
  {
    |ps| == 1 && cfg.numel(ps[0]) % cfg.world == 0 && ps[0] in s.places && s.places[ps[0]].InBucket?
  }

  /** __avg_scatter_grads of the bucket in ascending id order; the bucket is empty afterwards. */
  ghost function Submit(cfg: Config, s: Pipe): Pipe
    requires cfg.world > 0 && s.bucket != [] && Placed(cfg, s, Sorted(SetOf(s.bucket)))
  {
    var ps := Sorted(SetOf(s.bucket));
    SortedFull(s.bucket);
    var out := Target(cfg, ps);
    if TakesView(cfg, s, ps) then
      var at := s.places[ps[0]].at;
      assert PlaceOk(cfg, s, ps[0]);
      s.(bucket := [], buffer := Put(s.buffer, at, Divided(s.buffer[at..at + cfg.numel(ps[0])], cfg.world)),
         pending := Some(Pending(ps, View(at), out, None)))
    else
      s.(bucket := [], pending := Some(Pending(ps, Private(DividedContents(cfg, s, ps)), out, None)))
  }

  lemma {:induction false} SortedFull(xs: seq<int>)
    requires xs != []
    ensures Sorted(SetOf(xs)) != []
  {
    assert xs[0] in SetOf(xs);
  }

  ghost function DividedContents(cfg: Config, s: Pipe, ps: seq<int>): (d: seq<seq<real>>)
    requires cfg.world > 0 && Placed(cfg, s, ps)
    ensures |d| == |ps|
  {
    seq(|ps|, i requires 0 <= i < |ps| => Divided(Content(cfg, s, ps[i]), cfg.world))
  }

  /** What this rank receives for p when its own divided gradient reads as x. */
  function ReceivedSlice(cfg: Config, p: int, x: seq<real>): (r: seq<real>)
    requires |x| == cfg.numel(p)
    ensures |r| == cfg.Len(p)
  {
    var mine := Slice(x, cfg.size(p), cfg.rank);
    seq(|mine|, j requires 0 <= j < |mine| => mine[j] + cfg.others(p, j))
  }

  /** What the reduce-scatter reads for its i-th tensor if it reads now. */
  function Reads(cfg: Config, s: Pipe, pe: Pending, i: nat): seq<real>
    requires i < |pe.params| && InputOk(cfg, s, pe)
  {
    match pe.input
    case View(at) => s.buffer[at..at + cfg.numel(pe.params[i])]
    case Private(data) => data[i]
  }

  predicate InputOk(cfg: Config, s: Pipe, pe: Pending)
  {
    match pe.input
    case View(at) => |pe.params| == 1 && at + cfg.numel(pe.params[0]) <= |s.buffer|
    case Private(data) => |data| == |pe.params| && forall i :: 0 <= i < |data| ==> |data[i]| == cfg.numel(pe.params[i])
  }

  /** What padding happens to contain: the j-th padding element behind tensor i. */
  type Padding = (int, int) -> real

  /** One tensor's part of the output: the received slice and, behind it, padding of unknown value. */
  function OutputBlock(cfg: Config, i: int, p: int, x: seq<real>, junk: Padding): (b: seq<real>)
    requires |x| == cfg.numel(p)
    ensures |b| == cfg.size(p)
  {
    ReceivedSlice(cfg, p, x) + seq(cfg.size(p) - cfg.Len(p), j => junk(i, j))
  }

  ghost function OutputBlocks(cfg: Config, s: Pipe, pe: Pending, junk: Padding): (bs: seq<seq<real>>)
    requires cfg.Ok() && InputOk(cfg, s, pe)
    ensures Lengths(bs) == Sizes(pe.params, cfg.size)
  {
    seq(|pe.params|, i requires 0 <= i < |pe.params| =>
      OutputBlock(cfg, i, pe.params[i], Reads(cfg, s, pe, i), junk))
  }

  ghost predicate PendingOk(cfg: Config, s: Pipe)
  {
    && s.pending.Some? && InputOk(cfg, s, s.pending.value)
    && (s.pending.value.output.Direct? ==>
          s.pending.value.output.first + GroupSize(s.pending.value.params, cfg.size) <= |s.grad|)
    && (s.pending.value.flat.Some? ==> |s.pending.value.flat.value| == GroupSize(s.pending.value.params, cfg.size))
  }

  /** The collective completes: it reads its input as it is now and writes its whole output. */
  ghost function Complete(cfg: Config, s: Pipe, junk: Padding): (r: Pipe)
    requires cfg.Ok() && Shaped(cfg, s) && PendingOk(cfg, s)
    ensures Shaped(cfg, r) && PendingOk(cfg, r) && r == s.(grad := r.grad, pending := r.pending)
    ensures r.pending == Some(s.pending.value.(flat := r.pending.value.flat)) && r.pending.value.flat.Some?
  {
    var pe := s.pending.value;
    if pe.flat.Some? then s else
      FlattenTotal(OutputBlocks(cfg, s, pe, junk));
      var flat := Flatten(OutputBlocks(cfg, s, pe, junk));
      var t := s.(pending := Some(pe.(flat := Some(flat))));
      if pe.output.Direct? then t.(grad := Put(s.grad, pe.output.first, flat)) else t
  }

  /** Where the i-th tensor's slice starts in the output. */
  function PartAt(cfg: Config, pe: Pending, i: nat): nat
    requires i < |pe.params|
  {
    Off(Sizes(pe.params, cfg.size), i)
  }

  /** The i-th view of the output, read now. */
  ghost function Part(cfg: Config, s: Pipe, i: nat): (x: seq<real>)
    requires PendingOk(cfg, s) && s.pending.value.flat.Some? && i < |s.pending.value.params|
    ensures |x| == cfg.Len(s.pending.value.params[i])
  {
    var pe := s.pending.value;
    var at, len := PartAt(cfg, pe, i), cfg.Len(pe.params[i]);
    PartInside(cfg, pe, i);
    if pe.output.Direct? then s.grad[pe.output.first + at..pe.output.first + at + len]
    else pe.flat.value[at..at + len]
  }

  lemma {:induction false} PartInside(cfg: Config, pe: Pending, i: nat)
    requires i < |pe.params|
    ensures PartAt(cfg, pe, i) + cfg.Len(pe.params[i]) <= PartAt(cfg, pe, i) + cfg.size(pe.params[i])
         <= GroupSize(pe.params, cfg.size)
  {
    BlockFits(Sizes(pe.params, cfg.size), i);
  }

  /** The view is the parameter's own place in the flat gradient buffer. */
  predicate SamePlace(cfg: Config, pe: Pending, i: nat)
    requires i < |pe.params|
  {
    pe.output.Direct? && pe.output.first + PartAt(cfg, pe, i) == cfg.offset(pe.params[i])
  }

  /** This rank's shard of p is all padding. */
  predicate NothingHere(cfg: Config, p: int)
  {
    cfg.size(p) * cfg.rank > cfg.numel(p)
  }

  /** p's place in a flat gradient buffer. */
  function Seg(cfg: Config, v: seq<real>, p: int): (x: seq<real>)
    requires cfg.offset(p) + cfg.Len(p) <= |v|
    ensures |x| == cfg.Len(p)
  {
    v[cfg.offset(p)..cfg.offset(p) + cfg.Len(p)]
  }

  /** The slice is kept where it is, copied to the parameter's place or, past the first micro step, added there. */
  ghost function LandedGrad(cfg: Config, s: Pipe, i: nat): (grad: seq<real>)
    requires PendingOk(cfg, s) && s.pending.value.flat.Some? && i < |s.pending.value.params|
    requires cfg.offset(s.pending.value.params[i]) + cfg.Len(s.pending.value.params[i]) <= |s.grad|
    ensures |grad| == |s.grad|
  {
    var p := s.pending.value.params[i];
    if SamePlace(cfg, s.pending.value, i) then s.grad
    else if s.micro == 0 then Put(s.grad, cfg.offset(p), Part(cfg, s, i))
    else Put(s.grad, cfg.offset(p), Plus(Seg(cfg, s.grad, p), Part(cfg, s, i)))
  }

  /** One turn of __partition_grads: what the place then holds is copied into this iteration's fp32 buffer. */
  ghost function LandOne(cfg: Config, s: Pipe, i: nat): (r: Pipe)
    requires cfg.Ok() && Shaped(cfg, s) && PendingOk(cfg, s) && s.pending.value.flat.Some?
    requires i < |s.pending.value.params| && s.pending.value.params[i] in cfg.params
    ensures Shaped(cfg, r) && r == s.(grad := r.grad, fp32 := r.fp32)
  {
    var p := s.pending.value.params[i];
    if NothingHere(cfg, p) then s else
      var grad := LandedGrad(cfg, s, i);
      s.(grad := grad, fp32 := Put(s.fp32, cfg.offset(p), Seg(cfg, grad, p)))
  }

  /** The first n parameters of the pending reduce-scatter. */
  ghost function Land(cfg: Config, s: Pipe, n: nat): (r: Pipe)
    requires cfg.Ok() && Shaped(cfg, s) && PendingOk(cfg, s) && s.pending.value.flat.Some?
    requires n <= |s.pending.value.params| && forall i :: 0 <= i < n ==> s.pending.value.params[i] in cfg.params
    ensures Shaped(cfg, r) && r == s.(grad := r.grad, fp32 := r.fp32)
  {
    if n == 0 then s else LandOne(cfg, Land(cfg, s, n - 1), n - 1)
  }

  ghost predicate CanWait(cfg: Config, s: Pipe)
  {
    && cfg.Ok() && Shaped(cfg, s)
    && (s.pending.Some? ==> PendingOk(cfg, s)
                            && forall i :: 0 <= i < |s.pending.value.params| ==> s.pending.value.params[i] in cfg.params)
  }

  /** _flush_pending_rs: wait for the pending reduce-scatter, if any, and take its slices. */
  ghost function Flush(cfg: Config, s: Pipe, junk: Padding): (r: Pipe)
    requires CanWait(cfg, s)
    ensures Shaped(cfg, r) && r == s.(grad := r.grad, fp32 := r.fp32, pending := None)
  {
    if s.pending.None? then s else Land(cfg, Complete(cfg, s, junk), |s.pending.value.params|).(pending := None)
  }

  /** __reduce_and_partition_ipg_grads: first the previous one, then this bucket is submitted. */
  ghost function Reduce(cfg: Config, s: Pipe, junk: Padding): Pipe
    requires CanWait(cfg, s) && Placed(cfg, s, Sorted(SetOf(s.bucket)))
  {
    if s.bucket == [] then s else Submit(cfg, Flush(cfg, s, junk))
  }

  /** The synchronous version: the bucket is submitted, awaited and taken at once. */
  ghost function ReduceNow(cfg: Config, s: Pipe, junk: Padding): Pipe
    requires CanWait(cfg, s) && s.pending.None? && Placed(cfg, s, Sorted(SetOf(s.bucket)))
    requires s.bucket != [] ==> CanWait(cfg, Submit(cfg, s))
  {
    if s.bucket == [] then s else Flush(cfg, Submit(cfg, s), junk)
  }

  /** The bucket must be reduced before p is added. */
  predicate Overflows(cfg: Config, s: Pipe, p: int)
  {
    Elements(cfg, s.bucket) > 0 && Elements(cfg, s.bucket) + cfg.numel(p) > cfg.bucketSize
  }
}
