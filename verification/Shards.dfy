/** Partitioning parameters into shards, and the three ways the shards are gathered back.

    A tensor is its flattened elements. torch.empty is an array whose initial elements are unknown,
    so everything below holds whatever the padding contains. */
module Shards {
  import opened Blocks

  function PaddingSize(numel: nat, world: nat): nat
    requires world > 0
  {
    if numel % world != 0 then world - numel % world else 0
  }

  function AlignedSize(numel: nat, world: nat): nat
    requires world > 0
  {
    numel + PaddingSize(numel, world)
  }

  /** The three ways the code computes a shard size agree: aligned size over world, ceiling, and
      (for the single-parameter buffer) ceiling times world back to the aligned size. */
  lemma {:induction false} ShardSizesAgree(numel: nat, world: nat)
    requires world > 0
    ensures AlignedSize(numel, world) % world == 0
    ensures AlignedSize(numel, world) / world == Chunk(numel, world)
    ensures Chunk(numel, world) * world == AlignedSize(numel, world)
    ensures numel <= AlignedSize(numel, world) < numel + world
  {
    var q, m := numel / world, numel % world;
    assert numel == world * q + m;
    if m == 0 {
      ChunkOfMultiple(numel, world);
    } else {
      assert AlignedSize(numel, world) == world * (q + 1) + 0;
      assert numel + world - 1 == world * (q + 1) + (m - 1);
      DivUnique(AlignedSize(numel, world), world, q + 1, 0);
      DivUnique(numel + world - 1, world, q + 1, m - 1);
    }
  }

  /** A rank's shard starts with its slice of the tensor; the rest is padding. */
  ghost predicate IsShard(shard: seq<real>, x: seq<real>, world: nat, rank: nat)
    requires world > 0
  {
    var c := Chunk(|x|, world);
    |shard| == c && Slice(x, c, rank) <= shard
  }

  /** _partition_param: the rank's piece of a full parameter, in new storage. */
  method PartitionParam(x: seq<real>, world: nat, rank: nat) returns (shard: array<real>)
    requires rank < world
    ensures fresh(shard) && IsShard(shard[..], x, world, rank)
  {
    ShardSizesAgree(|x|, world);
    var size := AlignedSize(|x|, world) / world;
    SliceFits(x, size, rank);
    shard := new real[size];
    var start, end := size * rank, size * (rank + 1);
    if start < |x| && end <= |x| {
      CopyInto(shard, 0, x[start..start + size]);
    } else if start < |x| {
      CopyInto(shard, 0, x[start..start + (|x| - start)]);
    }
    assert start == rank * size && end == (rank + 1) * size;
    SliceGrows(|x|, size, rank);
  }

  // ------------------------------------------------------------ coalesced wire

  function ShardSizes(xs: seq<seq<real>>, world: nat): seq<nat>
    requires world > 0
  {
    ChunkSizes(Lengths(xs), world)
  }

  /** Every rank holds its shard of every tensor: shards[r][i] is rank r's shard of tensor i. */
  ghost predicate Partitioned(shards: seq<seq<seq<real>>>, xs: seq<seq<real>>, world: nat)
    requires world > 0
  {
    && |shards| == world
    && forall r :: 0 <= r < world ==> RankHolds(shards[r], xs, world, r)
  }

  ghost predicate RankHolds(mine: seq<seq<real>>, xs: seq<seq<real>>, world: nat, rank: nat)
    requires world > 0
  {
    && |mine| == |xs|
    && forall i :: 0 <= i < |xs| ==> IsShard(mine[i], xs[i], world, rank)
  }

  /** What the all-gather leaves in every rank's output: the ranks' inputs in rank order. */
  function Gathered(inputs: seq<seq<real>>): seq<real>
  {
    Flatten(inputs)
  }

  /** What each rank sends: its shards end to end. */
  function Inputs(shards: seq<seq<seq<real>>>): seq<seq<real>>
  {
    seq(|shards|, r requires 0 <= r < |shards| => Flatten(shards[r]))
  }

  /** Packing a rank's shards for the wire. */
  method PackShards(shards: seq<seq<real>>) returns (input: array<real>)
    ensures fresh(input) && input[..] == Flatten(shards)
  {
    FlattenTotal(shards);
    input := new real[TotalSize(shards)];
    var offset := 0;
    for i := 0 to |shards|
      invariant offset == Off(Lengths(shards), i)
      invariant offset <= input.Length == Total(Lengths(shards))
      invariant input[..offset] == Flatten(shards[..i])
    {
      BlockFits(Lengths(shards), i);
      FlattenNext(shards, i);
      CopyInto(input, offset, shards[i]);
      assert input[..offset + |shards[i]|] == input[..offset] + shards[i];
      offset := offset + |shards[i]|;
    }
    assert shards[..|shards|] == shards;
    assert input[..input.Length] == input[..];
  }

  function TotalSize(xs: seq<seq<real>>): nat
  {
    Total(Lengths(xs))
  }

  lemma {:induction false} RankLengths(mine: seq<seq<real>>, xs: seq<seq<real>>, world: nat, rank: nat)
    requires world > 0 && RankHolds(mine, xs, world, rank)
    ensures Lengths(mine) == ShardSizes(xs, world)
    ensures |Flatten(mine)| == Total(ShardSizes(xs, world))
  {
    FlattenTotal(mine);
  }

  /** Rank r's row of the gathered buffer. */
  lemma {:induction false} WireRow(shards: seq<seq<seq<real>>>, xs: seq<seq<real>>, world: nat, r: nat)
    requires world > 0 && r < world && Partitioned(shards, xs, world)
    ensures var size, flat := Total(ShardSizes(xs, world)), Gathered(Inputs(shards));
            && |flat| == world * size && 0 <= size * r <= size * r + size <= |flat|
            && flat[size * r..size * r + size] == Flatten(shards[r])
  {
    var size := Total(ShardSizes(xs, world));
    forall k | 0 <= k < world ensures |Inputs(shards)[k]| == size {
      RankLengths(shards[k], xs, world, k);
    }
    FlattenRow(Inputs(shards), size, r);
    assert size * r == r * size;
  }

  /** Slice r of tensor i within rank r's own row. */
  lemma {:induction false} RowSlice(mine: seq<seq<real>>, xs: seq<seq<real>>, world: nat, r: nat, i: nat)
    requires world > 0 && i < |xs| && RankHolds(mine, xs, world, r)
    ensures var at, c := Off(ShardSizes(xs, world), i), Chunk(|xs[i]|, world);
            var len := |Slice(xs[i], c, r)|;
            && at + c <= |Flatten(mine)| == Total(ShardSizes(xs, world)) && len <= c
            && Flatten(mine)[at..at + len] == Slice(xs[i], c, r)
  {
    var c := Chunk(|xs[i]|, world);
    RankLengths(mine, xs, world, r);
    FlattenBlock(mine, i);
    SliceFits(xs[i], c, r);
    assert IsShard(mine[i], xs[i], world, r);
    PrefixOfPart(Flatten(mine), Off(ShardSizes(xs, world), i), mine[i], Slice(xs[i], c, r));
  }

  lemma {:induction false} PrefixOfPart(flat: seq<real>, at: nat, part: seq<real>, front: seq<real>)
    requires at + |part| <= |flat| && flat[at..at + |part|] == part && front <= part
    ensures flat[at..at + |front|] == front
  {
    assert flat[at..at + |front|] == flat[at..at + |part|][..|front|];
  }

  /** Slice r of tensor i, where the reassembly looks for it. */
  lemma {:induction false} WireSlice(shards: seq<seq<seq<real>>>, xs: seq<seq<real>>, world: nat, r: nat, i: nat)
    requires world > 0 && r < world && i < |xs| && Partitioned(shards, xs, world)
    ensures var size, at := Total(ShardSizes(xs, world)), Off(ShardSizes(xs, world), i);
            var c := Chunk(|xs[i]|, world);
            var flat, len := Gathered(Inputs(shards)), |Slice(xs[i], c, r)|;
            && at + c <= size && len <= c && 0 <= size * r && size * r + size <= |flat|
            && flat[size * r + at..size * r + at + len] == Slice(xs[i], c, r)
  {
    assert RankHolds(shards[r], xs, world, r);
    hide *;
    RowSlice(shards[r], xs, world, r, i);
    WireRow(shards, xs, world, r);
    var size := Total(ShardSizes(xs, world));
    NarrowTwice(Gathered(Inputs(shards)), size * r, size, Off(ShardSizes(xs, world), i),
                |Slice(xs[i], Chunk(|xs[i]|, world), r)|);
  }

  lemma {:induction false} NarrowTwice(flat: seq<real>, start: nat, size: nat, at: nat, len: nat)
    requires start + size <= |flat| && at + len <= size
    ensures flat[start..start + size][at..at + len] == flat[start + at..start + at + len]
  {
    var row, a, b := flat[start..start + size], flat[start..start + size][at..at + len], flat[start + at..start + at + len];
    forall k | 0 <= k < len ensures a[k] == b[k] {
      assert row[at + k] == flat[start + at + k];
    }
  }

  /** One tensor, put together from the first slice on. */
  method JoinSlices(flat: array<real>, numel: nat, c: nat, size: nat, at: nat, world: nat,
                    ghost shards: seq<seq<seq<real>>>, ghost xs: seq<seq<real>>, ghost i: nat)
    returns (x: seq<real>)
    requires world > 0 && Partitioned(shards, xs, world) && i < |xs|
    requires flat[..] == Gathered(Inputs(shards))
    requires numel == |xs[i]| && c == Chunk(numel, world)
    requires size == Total(ShardSizes(xs, world)) && at == Off(ShardSizes(xs, world), i)
    ensures x == xs[i]
  {
    x := [];
    for rank := 0 to world
      invariant x == xs[i][..SliceStart(numel, c, rank)]
    {
      var start := rank * c;
      WireSlice(shards, xs, world, rank, i);
      SliceFits(xs[i], c, rank);
      SliceNext(xs[i], c, rank);
      if start < numel {
        var len := Least2(numel - start, c);
        x := x + flat[size * rank + at..size * rank + at + len];
      }
    }
    ChunkCovers(numel, world);
    assert xs[i][..numel] == xs[i];
  }

  /** AllGatherCoalescedHandle.wait: the full tensors, whatever the padding held. The code joins each
      tensor's slices with torch.cat, which needs at least one. */
  method CoalescedWait(flat: array<real>, numels: seq<nat>, world: nat,
                       ghost shards: seq<seq<seq<real>>>, ghost xs: seq<seq<real>>)
    returns (data: seq<seq<real>>)
    requires world > 0 && Partitioned(shards, xs, world)
    requires flat[..] == Gathered(Inputs(shards))
    requires |numels| == |xs| && forall i :: 0 <= i < |xs| ==> numels[i] == |xs[i]| > 0
    ensures data == xs
  {
    hide *;
    data := [];
    SizesAre(numels, xs, world);
    var size := PartitionTotal(numels, world);
    var offset := 0;
    OffsetStarts(xs, world);
    for i := 0 to |numels|
      invariant data == xs[..i]
      invariant i <= |ShardSizes(xs, world)| && offset == Off(ShardSizes(xs, world), i)
    {
      var c := Chunk(numels[i], world);
      OffsetNext(xs, world, i);
      var x := JoinSlices(flat, numels[i], c, size, offset, world, shards, xs, i);
      data := data + [x];
      offset := offset + c;
    }
    assert xs[..|xs|] == xs;
  }

  lemma {:induction false} SizesAre(numels: seq<nat>, xs: seq<seq<real>>, world: nat)
    requires world > 0 && |numels| == |xs| && forall i :: 0 <= i < |xs| ==> numels[i] == |xs[i]|
    ensures PartitionTotal(numels, world) == Total(ShardSizes(xs, world)) && |ShardSizes(xs, world)| == |xs|
  {
    assert numels == Lengths(xs);
  }

  lemma {:induction false} OffsetStarts(xs: seq<seq<real>>, world: nat)
    requires world > 0
    ensures Off(ShardSizes(xs, world), 0) == 0
  {
  }

  lemma {:induction false} OffsetNext(xs: seq<seq<real>>, world: nat, i: nat)
    requires world > 0 && i < |xs|
    ensures |ShardSizes(xs, world)| == |xs|
    ensures Off(ShardSizes(xs, world), i + 1) == Off(ShardSizes(xs, world), i) + Chunk(|xs[i]|, world)
  {
  }

  function PartitionTotal(numels: seq<nat>, world: nat): nat
    requires world > 0
  {
    Total(ChunkSizes(numels, world))
  }

  // --------------------------------------------- the other two ways to gather

  /** A single parameter: its shards land in one buffer and the tensor is a prefix of it. */
  lemma {:induction false} SingleGather(shards: seq<seq<real>>, x: seq<real>, world: nat)
    requires world > 0 && |shards| == world
    requires forall r :: 0 <= r < world ==> IsShard(shards[r], x, world, r)
    ensures |Gathered(shards)| == Chunk(|x|, world) * world == AlignedSize(|x|, world)
    ensures |x| <= |Gathered(shards)| && Gathered(shards)[..|x|] == x
  {
    var c := Chunk(|x|, world);
    ShardSizesAgree(|x|, world);
    FlattenTotal(shards);
    EqualOffsets(Lengths(shards), c, world);
    SinglePrefix(shards, x, world, world);
    ChunkCovers(|x|, world);
    assert shards[..world] == shards && x[..|x|] == x;
  }

  lemma {:induction false} SinglePrefix(shards: seq<seq<real>>, x: seq<real>, world: nat, k: nat)
    requires world > 0 && |shards| == world && k <= world
    requires forall r :: 0 <= r < world ==> IsShard(shards[r], x, world, r)
    ensures |Flatten(shards[..k])| == k * Chunk(|x|, world)
    ensures x[..SliceStart(|x|, Chunk(|x|, world), k)] <= Flatten(shards[..k])
    decreases k
  {
    var c := Chunk(|x|, world);
    if k > 0 {
      SinglePrefix(shards, x, world, k - 1);
      FlattenNext(shards, k - 1);
      assert IsShard(shards[k - 1], x, world, k - 1);
      NextSlice(x, c, k - 1, Flatten(shards[..k - 1]), shards[k - 1]);
    }
  }

  lemma {:induction false} NextSlice(x: seq<real>, c: nat, k: nat, flat: seq<real>, shard: seq<real>)
    requires |flat| == k * c && x[..SliceStart(|x|, c, k)] <= flat
    requires |shard| == c && Slice(x, c, k) <= shard
    ensures |flat + shard| == (k + 1) * c
    ensures x[..SliceStart(|x|, c, k + 1)] <= flat + shard
  {
    SliceGrows(|x|, c, k);
    SliceNext(x, c, k);
    SliceFits(x, c, k);
    if SliceStart(|x|, c, k) == |flat| {
      assert x[..SliceStart(|x|, c, k + 1)] == flat + Slice(x, c, k);
    }
  }

  /** all_gather_coalesced with one parameter: its shard is gathered into one buffer of aligned size and
      narrowed to the parameter's own length. */
  method GatherOne(buffer: array<real>, numel: nat, world: nat, ghost shards: seq<seq<real>>, ghost x: seq<real>)
    returns (data: seq<real>)
    requires world > 0 && numel == |x| && |shards| == world
    requires forall r :: 0 <= r < world ==> IsShard(shards[r], x, world, r)
    requires buffer[..] == Gathered(shards)
    ensures data == x
  {
    SingleGather(shards, x, world);
    data := buffer[..numel];
    assert data == buffer[..][..numel];
  }

  /** One tensor of _allgather_params: every slice is copied to its place in new storage. */
  method Replicate(flat: array<real>, numel: nat, c: nat, size: nat, at: nat, world: nat,
                   ghost shards: seq<seq<seq<real>>>, ghost xs: seq<seq<real>>, ghost i: nat)
    returns (x: array<real>)
    requires world > 0 && Partitioned(shards, xs, world) && i < |xs|
    requires flat[..] == Gathered(Inputs(shards))
    requires numel == |xs[i]| && c == Chunk(numel, world)
    requires size == Total(ShardSizes(xs, world)) && at == Off(ShardSizes(xs, world), i)
    ensures fresh(x) && x[..] == xs[i]
  {
    x := new real[numel];
    for rank := 0 to world
      invariant x[..SliceStart(numel, c, rank)] == xs[i][..SliceStart(numel, c, rank)]
    {
      var start := rank * c;
      WireSlice(shards, xs, world, rank, i);
      SliceFits(xs[i], c, rank);
      SliceNext(xs[i], c, rank);
      if start < numel {
        var len := Least2(numel - start, c);
        var part := flat[size * rank + at..size * rank + at + len];
        ghost var before := x[..start];
        CopyInto(x, start, part);
        assert x[..start + len] == before + part;
      }
    }
    ChunkCovers(numel, world);
    assert xs[i][..numel] == xs[i] && x[..numel] == x[..];
  }

  /** _allgather_params: the full tensors again, so all three ways agree. */
  method AllGatherParams(flat: array<real>, numels: seq<nat>, world: nat,
                         ghost shards: seq<seq<seq<real>>>, ghost xs: seq<seq<real>>)
    returns (data: seq<seq<real>>)
    requires world > 0 && Partitioned(shards, xs, world)
    requires flat[..] == Gathered(Inputs(shards))
    requires |numels| == |xs| && forall i :: 0 <= i < |xs| ==> numels[i] == |xs[i]|
    ensures data == xs
  {
    data := [];
    var size := PartitionTotal(numels, world);
    assert numels == Lengths(xs);
    var offset := 0;
    for i := 0 to |numels|
      invariant data == xs[..i]
      invariant offset == Off(ShardSizes(xs, world), i)
    {
      var c := Chunk(numels[i], world);
      var x := Replicate(flat, numels[i], c, size, offset, world, shards, xs, i);
      data := data + [x[..]];
      offset := offset + c;
    }
    assert xs[..|xs|] == xs;
  }
}
