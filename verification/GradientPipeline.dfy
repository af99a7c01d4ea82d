/** The gradient pipeline itself: buckets, flat buffers and the pending reduce-scatter, updated in place.

    Every method ends in the state GradientSpec names, and keeps the invariant of GradientRuns. The gradient a
    hook delivers and the padding a collective writes come from outside and are parameters. */
module GradientPipeline {
  import opened Prelude
  import opened Blocks
  import opened ReduceScatter
  import opened SubGroups
  import opened GradientSpec
  import opened GradientRuns
  import opened GradientTheorems

  class GradientPipeline {
    const cfg: Config
    const buffer: array<real>
    const grad: array<real>
    const fp32: array<real>
    var bucket: seq<int>
    var places: map<int, Where>
    var pending: Option<Pending>
    var micro: nat
    ghost var book: Book

    function Abs(): Pipe
      reads this`bucket, this`places, this`pending, this`micro, buffer, grad, fp32
    {
      Pipe(bucket, places, buffer[..], pending, grad[..], fp32[..], micro)
    }

    ghost predicate Separate()
    {
      buffer != grad && buffer != fp32 && grad != fp32
    }

    ghost predicate Valid()
      reads this, buffer, grad, fp32
    {
      Separate() && Inv(cfg, book, Abs()) && (cfg.direct ==> cfg.Ascends())
    }

    constructor (cfg: Config)
      requires cfg.Ok() && (cfg.direct ==> cfg.Ascends())
      ensures Valid() && this.cfg == cfg && Started(cfg, Abs()) && book == Book(map[], {}, grad[..], fp32[..])
      ensures fresh(buffer) && fresh(grad) && fresh(fp32)
    {
      this.cfg := cfg;
      buffer, grad, fp32 := new real[cfg.bucketSize], new real[cfg.total], new real[cfg.total];
      bucket, places, pending, micro := [], map[], None, 0;
      new;
      book := Book(map[], {}, grad[..], fp32[..]);
      StartInv(cfg, Abs());
    }

    // ----------------------------------------------------------------- adding

    /** __add_grad_to_ipg_bucket: the gradient is copied behind the ones before it if it fits, and left where it is
        otherwise. */
    method AddGradToBucket(p: int, g: seq<real>)
      requires Separate() && buffer.Length == cfg.bucketSize && |g| == cfg.numel(p)
      modifies this`bucket, this`places, buffer
      ensures Abs() == Add(cfg, old(Abs()), p, g)
    {
      var elements := Elements(cfg, bucket);
      if elements + |g| < cfg.bucketSize {
        CopyInto(buffer, elements, g);
        places := places[p := InBucket(elements)];
      } else {
        places := places[p := Own(g)];
      }
      bucket := bucket + [p];
    }

    // ------------------------------------------------------------- submitting

    /** The gradient of a collected parameter. */
    method GradOf(p: int) returns (g: seq<real>)
      requires PlaceOk(cfg, Abs(), p)
      ensures g == Content(cfg, Abs(), p)
    {
      match places[p]
      case InBucket(at) => g := buffer[at..at + cfg.numel(p)];
      case Own(data) => g := data;
    }

    /** The private copy a reduce-scatter of several tensors, or of one that needs padding, reads. */
    method DivideAll(ps: seq<int>) returns (data: seq<seq<real>>)
      requires cfg.world > 0 && Placed(cfg, Abs(), ps)
      ensures data == DividedContents(cfg, Abs(), ps)
    {
      data := [];
      for i := 0 to |ps|
        invariant |data| == i
        invariant forall k :: 0 <= k < i ==> data[k] == Divided(Content(cfg, Abs(), ps[k]), cfg.world)
      {
        var g := GradOf(ps[i]);
        data := data + [Divided(g, cfg.world)];
      }
    }

    /** Where the output goes: into the flat gradient buffer if the shards look contiguous there. */
    method ChooseOutput(ps: seq<int>) returns (out: Output)
      requires ps != []
      ensures out == Target(cfg, ps)
    {
      var first := cfg.offset(ps[0]);
      var total := GroupSize(ps, cfg.size);
      var last := ps[|ps| - 1];
      if cfg.direct && first + total == cfg.offset(last) + cfg.size(last) {
        out := Direct(first);
      } else {
        out := Fresh;
      }
    }

    /** __avg_scatter_grads, for the bucket put in id order. */
    method AvgScatterGrads()
      requires Separate() && cfg.world > 0 && bucket != [] && Distinct(bucket)
      requires Placed(cfg, Abs(), Sorted(SetOf(bucket)))
      modifies this`bucket, this`pending, buffer
      ensures Abs() == Submit(cfg, old(Abs()))
      ensures bucket == [] && pending.Some? && pending.value.flat.None?
      ensures var pe := pending.value;
              && Ascending(pe.params) && pe.params != [] && (forall p :: p in pe.params <==> p in old(bucket))
              && pe.output
                 == (var last := pe.params[|pe.params| - 1];
                     if cfg.direct
                        && cfg.offset(pe.params[0]) + Total(Sizes(pe.params, cfg.size)) == cfg.offset(last) + cfg.size(last)
                     then Direct(cfg.offset(pe.params[0])) else Fresh)
    {
      AscendingIds(bucket);
      hide Sorted, Content, DividedContents, Target, GroupSize, SetOf;
      var ps := SortIds(bucket);
      SortedFull(bucket);
      var out := ChooseOutput(ps);
      TargetIs(cfg, ps);
      if |ps| == 1 && cfg.numel(ps[0]) % cfg.world == 0 && places[ps[0]].InBucket? {
        var at := places[ps[0]].at;
        assert PlaceOk(cfg, Abs(), ps[0]);
        CopyInto(buffer, at, Divided(buffer[at..at + cfg.numel(ps[0])], cfg.world));
        pending := Some(Pending(ps, View(at), out, None));
      } else {
        var data := DivideAll(ps);
        pending := Some(Pending(ps, Private(data), out, None));
      }
      bucket := [];
    }

    // --------------------------------------------------------------- awaiting

    /** The collective, done by others at some moment before it is waited for: it reads its input and writes its
        output. */
    method CompleteCollective(junk: Padding)
      requires Separate() && cfg.Ok() && Shaped(cfg, Abs()) && PendingOk(cfg, Abs())
      modifies this`pending, grad
      ensures Abs() == Complete(cfg, old(Abs()), junk)
    {
      var pe := pending.value;
      if pe.flat.Some? { return; }
      FlattenTotal(OutputBlocks(cfg, Abs(), pe, junk));
      var blocks := ReceiveAll(pe, junk);
      var flat := Flatten(blocks);
      hide OutputBlocks, Flatten, Put;
      if pe.output.Direct? { CopyInto(grad, pe.output.first, flat); }
      pending := Some(pe.(flat := Some(flat)));
    }

    method ReceiveAll(pe: Pending, junk: Padding) returns (blocks: seq<seq<real>>)
      requires cfg.Ok() && InputOk(cfg, Abs(), pe)
      ensures blocks == OutputBlocks(cfg, Abs(), pe, junk)
    {
      blocks := [];
      for i := 0 to |pe.params|
        invariant |blocks| == i
        invariant forall k :: 0 <= k < i ==> blocks[k] == OutputBlock(cfg, k, pe.params[k], Reads(cfg, Abs(), pe, k), junk)
      {
        var mine := ReadInput(pe, i);
        blocks := blocks + [OutputBlock(cfg, i, pe.params[i], mine, junk)];
      }
    }

    method ReadInput(pe: Pending, i: nat) returns (x: seq<real>)
      requires InputOk(cfg, Abs(), pe) && i < |pe.params|
      ensures x == Reads(cfg, Abs(), pe, i) && |x| == cfg.numel(pe.params[i])
    {
      match pe.input
      case View(at) => x := buffer[at..at + cfg.numel(pe.params[i])];
      case Private(data) => x := data[i];
    }

    /** A view of the output. */
    method OutputView(i: nat) returns (x: seq<real>)
      requires PendingOk(cfg, Abs()) && pending.value.flat.Some? && i < |pending.value.params|
      ensures x == Part(cfg, Abs(), i)
    {
      var pe := pending.value;
      var at, len := PartAt(cfg, pe, i), cfg.Len(pe.params[i]);
      PartInside(cfg, pe, i);
      if pe.output.Direct? {
        assert grad[..][pe.output.first + at..pe.output.first + at + len]
            == grad[pe.output.first + at..pe.output.first + at + len];
        x := grad[pe.output.first + at..pe.output.first + at + len];
      } else {
        x := pe.flat.value[at..at + len];
      }
    }

    /** One parameter of __partition_grads. */
    method PartitionGrad(i: nat)
      requires Separate() && cfg.Ok() && Shaped(cfg, Abs()) && PendingOk(cfg, Abs()) && pending.value.flat.Some?
      requires i < |pending.value.params| && pending.value.params[i] in cfg.params
      modifies grad, fp32
      ensures Abs() == LandOne(cfg, old(Abs()), i)
    {
      hide *;
      ghost var s := Abs();
      PartsOf();
      LandOneIs(cfg, s, i);
      LandedGradSteps(cfg, s, i);
      var p := pending.value.params[i];
      SegIs(cfg, s.grad, p);
      SegIs(cfg, LandedGrad(cfg, s, i), p);
      if NothingHere(cfg, p) { return; }
      var at, len := cfg.offset(p), cfg.Len(p);
      var part := OutputView(i);
      if SamePlace(cfg, pending.value, i) {
      } else if micro == 0 {
        CopyInto(grad, at, part);
      } else {
        assert grad[..][at..at + len] == grad[at..at + len];
        CopyInto(grad, at, Plus(grad[at..at + len], part));
      }
      assert grad[..][at..at + len] == grad[at..at + len];
      CopyInto(fp32, at, grad[at..at + len]);
      PartsOf();
    }

    lemma PartsOf()
      ensures Abs() == Pipe(bucket, places, buffer[..], pending, grad[..], fp32[..], micro)
      ensures Separate() ==> buffer != grad && buffer != fp32 && grad != fp32
    {
    }

    /** __partition_grads */
    method PartitionGrads()
      requires Separate() && cfg.Ok() && Shaped(cfg, Abs()) && PendingOk(cfg, Abs()) && pending.value.flat.Some?
      requires forall i :: 0 <= i < |pending.value.params| ==> pending.value.params[i] in cfg.params
      modifies grad, fp32
      ensures Abs() == Land(cfg, old(Abs()), |pending.value.params|)
    {
      ghost var s := Abs();
      hide LandOne;
      for i := 0 to |pending.value.params|
        invariant Abs() == Land(cfg, s, i)
      {
        StillPending(cfg, s, Abs());
        PartitionGrad(i);
      }
    }

    /** _flush_pending_rs */
    method FlushPendingRs(junk: Padding)
      requires Separate() && CanWait(cfg, Abs())
      modifies this`pending, grad, fp32
      ensures Abs() == Flush(cfg, old(Abs()), junk)
    {
      hide Complete, Land, PendingOk;
      if pending.Some? {
        CompleteCollective(junk);
        PartitionGrads();
        pending := None;
      }
    }

    // ------------------------------------------------------------- the passes

    /** __reduce_and_partition_ipg_grads: the deferred version takes the previous slices and submits the bucket; the
        synchronous one submits the bucket and takes its slices. */
    method ReduceAndPartition(deferred: bool, junk: Padding)
      requires Valid() && micro == 0 && (!deferred ==> pending.None?)
      modifies this`bucket, this`pending, this`book, buffer, grad, fp32
      ensures CanEmpty(cfg, deferred, old(Abs())) && Abs() == Empty(cfg, deferred, old(Abs()), junk)
      ensures book == Emptied(deferred, old(book), old(Abs())) && Valid()
      ensures micro == 0 && bucket == [] && (!deferred ==> pending.None?)
    {
      hide *;
      ghost var b, s := book, Abs();
      Parts();
      EmptyKeeps(cfg, deferred, b, s, junk);
      EmptyIs(cfg, deferred, b, s, junk);
      EmptyFacts(cfg, b, s);
      book := Emptied(deferred, b, s);
      if bucket != [] {
        BucketIs(cfg, b, s);
        BucketDistinct(cfg, b, s);
        if deferred {
          FlushShape(cfg, s, junk);
          FlushPendingRs(junk);
          Parts();
          AvgScatterGrads();
        } else {
          AvgScatterGrads();
          SubmittedWaits(cfg, deferred, s);
          FlushPendingRs(junk);
        }
      }
      Parts();
    }

    /** A gradient hook. */
    method GradientReady(deferred: bool, p: int, g: seq<real>, junk: Padding)
      requires Valid() && (!deferred ==> pending.None?)
      requires Consistent(cfg, deferred, book, Abs()) && Guard(cfg, deferred, book, Abs(), Hook(p, g, junk))
      modifies this, buffer, grad, fp32
      ensures Consistent(cfg, deferred, old(book), old(Abs())) && Guard(cfg, deferred, old(book), old(Abs()), Hook(p, g, junk))
      ensures Progress(book, Abs()) == After(cfg, deferred, old(book), old(Abs()), Hook(p, g, junk))
      ensures Valid() && (!deferred ==> pending.None?)
    {
      ghost var b, s := book, Abs();
      hide *;
      Parts();
      HookParts(cfg, deferred, b, s, p, g, junk);
      StepKeeps(cfg, deferred, b, s, Hook(p, g, junk));
      if Overflows(cfg, Abs(), p) {
        ReduceAndPartition(deferred, junk);
      }
      Parts();
      ValidShape();
      book := book.(grads := b.grads[p := g]);
      AddGradToBucket(p, g);
      Parts();
      ConsistentParts(cfg, deferred, book, Abs());
    }

    /** independent_gradient_partition_epilogue */
    method Epilogue(deferred: bool, junk: Padding)
      requires Valid() && micro == 0 && (!deferred ==> pending.None?)
      modifies this, buffer, grad, fp32
      ensures Valid() && bucket == [] && micro == 1
      ensures CanEmpty(cfg, deferred, old(Abs()))
      ensures Abs() == Empty(cfg, deferred, old(Abs()), junk).(micro := 1)
      ensures book == Emptied(deferred, old(book), old(Abs()))
    {
      ReduceAndPartition(deferred, junk);
      AnyMicro(cfg, book, Abs(), 1);
      hide Inv, Empty, Emptied, CanEmpty;
      micro := 1;
    }

    /** What the optimizer step does first, and _partition_all_parameters after backward: the last slices are taken. */
    method TakeLast(junk: Padding)
      requires Valid() && AllClean(cfg, Abs())
      modifies this, grad, fp32
      ensures Valid() && pending.None? && CanWait(cfg, old(Abs()))
      ensures Abs() == Flush(cfg, old(Abs()), junk) && book == Took(old(book), PendingParams(old(Abs())))
    {
      hide *;
      ghost var b, s := book, Abs();
      Parts();
      FlushKeeps(cfg, b, s, junk);
      FlushShape(cfg, s, junk);
      FlushPendingRs(junk);
      book := Took(b, PendingParams(s));
      Parts();
    }

    lemma Parts()
      ensures Abs() == Pipe(bucket, places, buffer[..], pending, grad[..], fp32[..], micro)
      ensures Valid() <==> Separate() && Inv(cfg, book, Abs()) && (cfg.direct ==> cfg.Ascends())
    {
    }

    lemma ValidShape()
      requires Inv(cfg, book, Abs())
      ensures buffer.Length == cfg.bucketSize
    {
    }
  }

  lemma {:induction false} LandOneIs(cfg: Config, s: Pipe, i: nat)
    requires cfg.Ok() && Shaped(cfg, s) && PendingOk(cfg, s) && s.pending.value.flat.Some?
    requires i < |s.pending.value.params| && s.pending.value.params[i] in cfg.params
    ensures s.pending.Some? && |s.grad| == |s.fp32| == cfg.total
    ensures var p := s.pending.value.params[i];
            && cfg.offset(p) + cfg.Len(p) <= cfg.total
            && LandOne(cfg, s, i) == if NothingHere(cfg, p) then s else
                 s.(grad := LandedGrad(cfg, s, i), fp32 := Put(s.fp32, cfg.offset(p), Seg(cfg, LandedGrad(cfg, s, i), p)))
  {
    LenFits(cfg, s.pending.value.params[i]);
    hide PendingOk, LandedGrad, Put, Seg, NothingHere, Config.Ok;
  }

  lemma {:induction false} LandedGradSteps(cfg: Config, s: Pipe, i: nat)
    requires PendingOk(cfg, s) && s.pending.value.flat.Some? && i < |s.pending.value.params|
    requires cfg.offset(s.pending.value.params[i]) + cfg.Len(s.pending.value.params[i]) <= |s.grad|
    ensures var p, part := s.pending.value.params[i], Part(cfg, s, i);
            LandedGrad(cfg, s, i) == if SamePlace(cfg, s.pending.value, i) then s.grad
              else Put(s.grad, cfg.offset(p), if s.micro == 0 then part else Plus(Seg(cfg, s.grad, p), part))
  {
    hide PendingOk, Part, Put, Plus, Seg, SamePlace;
  }

  lemma {:induction false} SegIs(cfg: Config, v: seq<real>, p: int)
    requires cfg.offset(p) + cfg.Len(p) <= |v|
    ensures Seg(cfg, v, p) == v[cfg.offset(p)..cfg.offset(p) + cfg.Len(p)]
  {
  }

  lemma {:induction false} BucketDistinct(cfg: Config, b: Book, s: Pipe)
    requires Inv(cfg, b, s)
    ensures Distinct(s.bucket) && cfg.world > 0
  {
  }

  lemma {:induction false} SubmittedWaits(cfg: Config, deferred: bool, s: Pipe)
    requires CanEmpty(cfg, deferred, s) && !deferred && s.bucket != []
    ensures Placed(cfg, s, Sorted(SetOf(s.bucket))) && cfg.world > 0 && CanWait(cfg, Submit(cfg, s))
  {
  }

  lemma {:induction false} HookParts(cfg: Config, deferred: bool, b: Book, s: Pipe, p: int, g: seq<real>, junk: Padding)
    requires Consistent(cfg, deferred, b, s) && Guard(cfg, deferred, b, s, Hook(p, g, junk))
    ensures s.micro == 0 && (!deferred ==> s.pending.None?) && |g| == cfg.numel(p)
    ensures CanEmpty(cfg, deferred, s)
    ensures var u := if Overflows(cfg, s, p) then Empty(cfg, deferred, s, junk) else s;
            && |u.buffer| == cfg.bucketSize
            && After(cfg, deferred, b, s, Hook(p, g, junk))
               == Progress((if Overflows(cfg, s, p) then Emptied(deferred, b, s) else b).(grads := b.grads[p := g]), Add(cfg, u, p, g))
  {
    EmptyKeeps(cfg, deferred, b, s, junk);
    hide Inv, Empty, Add, Emptied;
  }

  lemma {:induction false} ConsistentParts(cfg: Config, deferred: bool, b: Book, s: Pipe)
    ensures Consistent(cfg, deferred, b, s) <==> Inv(cfg, b, s) && (cfg.direct ==> cfg.Ascends()) && (!deferred ==> s.pending.None?)
  {
  }
}
