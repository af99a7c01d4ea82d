/** The coalesced reduce-scatter of gradients: every rank gets its slice of the average of every tensor. */
module ReduceScatter {
  import opened Blocks
  import opened Shards

  // ---------------------------------------------------------------- averages

  function Sum(xs: seq<real>): real
  {
    if xs == [] then 0.0 else Sum(xs[..|xs| - 1]) + xs[|xs| - 1]
  }

  function Divided(xs: seq<real>, world: nat): seq<real>
    requires world > 0
  {
    seq(|xs|, j requires 0 <= j < |xs| => xs[j] / (world as real))
  }

  lemma {:induction false} SumDivided(xs: seq<real>, world: nat)
    requires world > 0
    ensures Sum(Divided(xs, world)) == Sum(xs) / (world as real)
    decreases |xs|
  {
    if xs != [] {
      var n := |xs| - 1;
      assert Divided(xs, world)[..n] == Divided(xs[..n], world);
      SumDivided(xs[..n], world);
    }
  }

  /** All ranks contribute tensors of one length. */
  ghost predicate Same(xss: seq<seq<real>>, n: nat)
  {
    forall k :: 0 <= k < |xss| ==> |xss[k]| == n
  }

  ghost function Column(xss: seq<seq<real>>, n: nat, j: nat): seq<real>
    requires Same(xss, n) && j < n
  {
    seq(|xss|, k requires 0 <= k < |xss| => xss[k][j])
  }

  /** The element-wise average over ranks. */
  ghost function Average(xss: seq<seq<real>>, n: nat): seq<real>
    requires xss != [] && Same(xss, n)
  {
    seq(n, j requires 0 <= j < n => Sum(Column(xss, n, j)) / (|xss| as real))
  }

  /** The collective: rank r receives the sums of the r-th part of everybody's buffer. */
  ghost function Reduced(flats: seq<seq<real>>, size: nat, rank: nat): seq<real>
    requires rank < |flats| && Same(flats, |flats| * size)
  {
    seq(size, j requires 0 <= j < size => PartFits(|flats|, size, rank); Sum(Column(flats, |flats| * size, rank * size + j)))
  }

  lemma {:induction false} PartFits(world: nat, size: nat, rank: nat)
    requires rank < world
    ensures 0 <= rank * size <= rank * size + size <= world * size
  {
    MulMono(size, rank + 1, world);
    assert size * (rank + 1) == rank * size + size;
  }

  // ------------------------------------------------------------------- input

  /** The buffer carries, for rank r, the slice of tensor i already divided by the number of ranks. */
  ghost predicate SendsSlice(flat: seq<real>, xs: seq<seq<real>>, world: nat, r: nat, i: nat)
    requires world > 0 && i < |xs|
  {
    var size, at := Total(ShardSizes(xs, world)), Off(ShardSizes(xs, world), i);
    var c := Chunk(|xs[i]|, world);
    var len := |Slice(xs[i], c, r)|;
    && 0 <= size * r && len <= c && at + c <= size && size * r + size <= |flat|
    && flat[size * r + at..size * r + at + len] == Divided(Slice(xs[i], c, r), world)
  }

  ghost predicate SendsSlices(flat: seq<real>, xs: seq<seq<real>>, world: nat)
    requires world > 0
  {
    && |flat| == world * Total(ShardSizes(xs, world))
    && forall r, i :: 0 <= r < world && 0 <= i < |xs| ==> SendsSlice(flat, xs, world, r, i)
  }

  /** The layout is the one an all-gather of shards produces, divided by the number of ranks. */
  lemma {:induction false} DividedLayout(shards: seq<seq<seq<real>>>, xs: seq<seq<real>>, world: nat)
    requires world > 0 && Partitioned(shards, xs, world)
    ensures SendsSlices(Divided(Gathered(Inputs(shards)), world), xs, world)
  {
    var flat := Gathered(Inputs(shards));
    WireRow(shards, xs, world, 0);
    forall r, i | 0 <= r < world && 0 <= i < |xs| ensures SendsSlice(Divided(flat, world), xs, world, r, i) {
      WireSlice(shards, xs, world, r, i);
      DividedPart(flat, world, Total(ShardSizes(xs, world)) * r + Off(ShardSizes(xs, world), i),
                  |Slice(xs[i], Chunk(|xs[i]|, world), r)|);
    }
  }

  lemma {:induction false} DividedPart(flat: seq<real>, world: nat, at: nat, len: nat)
    requires world > 0 && at + len <= |flat|
    ensures Divided(flat, world)[at..at + len] == Divided(flat[at..at + len], world)
  {
  }

  /** A slice of one tensor, padded to the shard size with whatever new storage contains. */
  method PaddedChunk(x: seq<real>, world: nat, rank: nat) returns (part: seq<real>)
    requires rank < world
    ensures IsShard(part, x, world, rank)
  {
    var c := Chunk(|x|, world);
    SliceFits(x, c, rank);
    part := Slice(x, c, rank);
    var padding := c - |part|;
    if padding > 0 {
      var empty := new real[padding];
      part := part + empty[..];
    }
  }

  /** One rank's run of chunks: every tensor's slice for that rank. */
  method RankRow(xs: seq<seq<real>>, world: nat, rank: nat) returns (row: seq<real>, ghost mine: seq<seq<real>>)
    requires rank < world
    ensures RankHolds(mine, xs, world, rank) && row == Flatten(mine)
  {
    row, mine := [], [];
    for i := 0 to |xs|
      invariant |mine| == i && row == Flatten(mine)
      invariant forall k :: 0 <= k < i ==> IsShard(mine[k], xs[k], world, rank)
    {
      var part := PaddedChunk(xs[i], world, rank);
      FlattenOne(mine, part);
      row, mine := row + part, mine + [part];
    }
  }

  /** All chunks, rank-major: torch.cat of the list the code builds. */
  method Interleave(xs: seq<seq<real>>, world: nat) returns (all: seq<real>, ghost shards: seq<seq<seq<real>>>)
    requires world > 0
    ensures Partitioned(shards, xs, world) && all == Gathered(Inputs(shards))
  {
    hide RankHolds;
    all, shards := [], [];
    for rank := 0 to world
      invariant |shards| == rank && all == Flatten(Inputs(shards))
      invariant forall r :: 0 <= r < rank ==> RankHolds(shards[r], xs, world, r)
    {
      var row;
      ghost var mine;
      row, mine := RankRow(xs, world, rank);
      assert Inputs(shards + [mine]) == Inputs(shards) + [row];
      FlattenOne(Inputs(shards), row);
      all, shards := all + row, shards + [mine];
    }
  }

  /** tensor.div_(world) */
  method DivideInPlace(flat: array<real>, world: nat)
    requires world > 0
    modifies flat
    ensures flat[..] == Divided(old(flat[..]), world)
  {
    for j := 0 to flat.Length
      invariant forall k :: 0 <= k < j ==> flat[k] == old(flat[k]) / (world as real)
      invariant forall k :: j <= k < flat.Length ==> flat[k] == old(flat[k])
    {
      flat[j] := flat[j] / (world as real);
    }
  }

  /** The shortcut for one tensor that divides evenly: its slices are its shards, without any padding. */
  lemma {:induction false} OwnShards(x: seq<real>, world: nat) returns (shards: seq<seq<seq<real>>>)
    requires world > 0 && |x| % world == 0
    ensures Partitioned(shards, [x], world) && Gathered(Inputs(shards)) == x
  {
    var c := Chunk(|x|, world);
    shards := seq(world, r requires 0 <= r < world => [Slice(x, c, r)]);
    ChunkOfMultiple(|x|, world);
    forall r | 0 <= r < world ensures RankHolds(shards[r], [x], world, r) && Inputs(shards)[r] == Slice(x, c, r) {
      SliceGrows(|x|, c, r);
      MulMono(c, r + 1, world);
      assert c * world == |x| && c * (r + 1) == (r + 1) * c;
      assert Flatten(shards[r][..0]) == [];
      assert |Slice(x, c, r)| == c;
      assert IsShard(shards[r][0], [x][0], world, r);
    }
    SlicesTile(x, world);
    assert Inputs(shards) == seq(world, r requires 0 <= r < world => Slice(x, c, r));
  }

  /** The buffer reduce_scatter_coalesced submits. With one evenly divisible tensor it IS that tensor, so the
      division happens in place on the gradient; otherwise it is new storage and the tensors keep their values. */
  method ScatterInput(tensors: seq<array<real>>, world: nat, ghost xs: seq<seq<real>>) returns (flat: array<real>)
    requires world > 0 && tensors != []
    requires |xs| == |tensors| && forall i :: 0 <= i < |xs| ==> xs[i] == tensors[i][..]
    modifies tensors[0]
    ensures SendsSlices(flat[..], xs, world)
    ensures if |tensors| == 1 && |xs[0]| % world == 0 then flat == tensors[0]
            else fresh(flat) && tensors[0][..] == xs[0]
  {
    if |tensors| == 1 && tensors[0].Length % world == 0 {
      assert xs == [tensors[0][..]];
      DivideTensor(tensors[0], world);
      flat := tensors[0];
    } else {
      var contents := ReadAll(tensors, xs);
      flat := InterleavedInput(contents, world);
    }
  }

  method DivideTensor(x: array<real>, world: nat)
    requires world > 0 && x.Length % world == 0
    modifies x
    ensures SendsSlices(x[..], [old(x[..])], world)
  {
    ghost var before := x[..];
    ghost var shards := OwnShards(before, world);
    DivideInPlace(x, world);
    DividedLayout(shards, [before], world);
  }

  method InterleavedInput(xs: seq<seq<real>>, world: nat) returns (flat: array<real>)
    requires world > 0
    ensures fresh(flat) && SendsSlices(flat[..], xs, world)
  {
    var all;
    ghost var shards;
    all, shards := Interleave(xs, world);
    flat := new real[|all|](k requires 0 <= k < |all| => all[k]);
    assert flat[..] == all;
    DivideInPlace(flat, world);
    DividedLayout(shards, xs, world);
  }

  /** Flattened views of the tensors. */
  method ReadAll(tensors: seq<array<real>>, ghost xs: seq<seq<real>>) returns (contents: seq<seq<real>>)
    requires |xs| == |tensors| && forall i :: 0 <= i < |xs| ==> xs[i] == tensors[i][..]
    ensures contents == xs
  {
    contents := [];
    for i := 0 to |tensors|
      invariant contents == xs[..i]
    {
      contents := contents + [tensors[i][..]];
    }
    assert xs[..|xs|] == xs;
  }

  // ------------------------------------------------------------------ output

  /** The ranks' versions of tensor i. */
  ghost function Versions(grads: seq<seq<seq<real>>>, i: nat): seq<seq<real>>
    requires forall k :: 0 <= k < |grads| ==> i < |grads[k]|
  {
    seq(|grads|, k requires 0 <= k < |grads| => grads[k][i])
  }

  /** All ranks reduce the same list of tensor sizes. */
  ghost predicate Agree(grads: seq<seq<seq<real>>>, numels: seq<nat>)
  {
    forall k :: 0 <= k < |grads| ==>
      |grads[k]| == |numels| && forall i :: 0 <= i < |numels| ==> |grads[k][i]| == numels[i]
  }

  ghost predicate AllSend(flats: seq<seq<real>>, grads: seq<seq<seq<real>>>, numels: seq<nat>)
  {
    && flats != [] && |flats| == |grads| && Agree(grads, numels)
    && forall k :: 0 <= k < |flats| ==> SendsSlices(flats[k], grads[k], |flats|)
  }

  lemma {:induction false} SameSizes(flats: seq<seq<real>>, grads: seq<seq<seq<real>>>, numels: seq<nat>, k: nat)
    requires AllSend(flats, grads, numels) && k < |flats|
    ensures ShardSizes(grads[k], |flats|) == ChunkSizes(numels, |flats|)
    ensures |flats[k]| == |flats| * Total(ChunkSizes(numels, |flats|))
  {
    assert SendsSlices(flats[k], grads[k], |flats|);
  }

  /** The part of its output a rank finds tensor i in, without the padding. */
  ghost function Received(flats: seq<seq<real>>, numels: seq<nat>, rank: nat, i: nat): seq<real>
    requires rank < |flats| && i < |numels|
    requires Same(flats, |flats| * Total(ChunkSizes(numels, |flats|)))
  {
    var sizes := ChunkSizes(numels, |flats|);
    BlockFits(sizes, i);
    Reduced(flats, Total(sizes), rank)[Off(sizes, i)..Off(sizes, i) + SliceLength(numels[i], sizes[i], rank)]
  }

  /** It is exactly the rank's slice of the average, whatever the padding held. */
  lemma {:induction false} ReceivesSlice(flats: seq<seq<real>>, grads: seq<seq<seq<real>>>, numels: seq<nat>, rank: nat, i: nat)
    requires AllSend(flats, grads, numels) && rank < |flats| && i < |numels|
    ensures Same(flats, |flats| * Total(ChunkSizes(numels, |flats|))) && Same(Versions(grads, i), numels[i])
    ensures Received(flats, numels, rank, i)
         == Slice(Average(Versions(grads, i), numels[i]), Chunk(numels[i], |flats|), rank)
  {
    var world := |flats|;
    var size, c := Total(ChunkSizes(numels, world)), Chunk(numels[i], world);
    forall k | 0 <= k < world ensures |flats[k]| == world * size { SameSizes(flats, grads, numels, k); }
    BlockFits(ChunkSizes(numels, world), i);
    var avg := Average(Versions(grads, i), numels[i]);
    SliceFits(avg, c, rank);
    var got := Received(flats, numels, rank, i);
    forall j | 0 <= j < |got| ensures got[j] == Slice(avg, c, rank)[j] {
      ReceivesElement(flats, grads, numels, rank, i, j);
    }
  }

  lemma {:induction false} ReceivesElement(flats: seq<seq<real>>, grads: seq<seq<seq<real>>>, numels: seq<nat>,
                                           rank: nat, i: nat, j: nat)
    requires AllSend(flats, grads, numels) && rank < |flats| && i < |numels|
    requires j < SliceLength(numels[i], Chunk(numels[i], |flats|), rank)
    ensures var world := |flats|;
            var size, at, c := Total(ChunkSizes(numels, world)), Off(ChunkSizes(numels, world), i), Chunk(numels[i], world);
            && Same(flats, world * size) && Same(Versions(grads, i), numels[i])
            && at + j < size
            && j < |Slice(Average(Versions(grads, i), numels[i]), c, rank)|
            && Reduced(flats, size, rank)[at + j] == Slice(Average(Versions(grads, i), numels[i]), c, rank)[j]
  {
    var world := |flats|;
    var sizes := ChunkSizes(numels, world);
    var size, at, c := Total(sizes), Off(sizes, i), Chunk(numels[i], world);
    forall k | 0 <= k < world ensures |flats[k]| == world * size { SameSizes(flats, grads, numels, k); }
    BlockFits(sizes, i);
    PartFits(world, size, rank);
    var vs := Versions(grads, i);
    var avg := Average(vs, numels[i]);
    SliceAt(avg, c, rank, j);
    SliceFits(avg, c, rank);
    var sent, full := Column(flats, world * size, rank * size + (at + j)), Column(vs, numels[i], rank * c + j);
    forall k | 0 <= k < world ensures sent[k] == Divided(full, world)[k] {
      SentElement(flats, grads, numels, rank, i, j, k);
    }
    assert sent == Divided(full, world);
    SumDivided(full, world);
  }

  lemma {:induction false} SentElement(flats: seq<seq<real>>, grads: seq<seq<seq<real>>>, numels: seq<nat>,
                                       rank: nat, i: nat, j: nat, k: nat)
    requires AllSend(flats, grads, numels) && rank < |flats| && i < |numels| && k < |flats|
    requires j < SliceLength(numels[i], Chunk(numels[i], |flats|), rank)
    ensures var world := |flats|;
            var size, at, c := Total(ChunkSizes(numels, world)), Off(ChunkSizes(numels, world), i), Chunk(numels[i], world);
            && 0 <= rank * size + at + j < |flats[k]| && rank * c + j < numels[i]
            && flats[k][rank * size + at + j] == grads[k][i][rank * c + j] / (world as real)
  {
    var world := |flats|;
    var x, c := grads[k][i], Chunk(numels[i], world);
    SameSizes(flats, grads, numels, k);
    assert SendsSlice(flats[k], grads[k], world, rank, i);
    SliceFits(x, c, rank);
    SliceAt(x, c, rank, j);
    var size, at := Total(ChunkSizes(numels, world)), Off(ChunkSizes(numels, world), i);
    assert size * rank == rank * size;
    var lo, len := size * rank + at, |Slice(x, c, rank)|;
    assert flats[k][lo..lo + len][j] == Divided(Slice(x, c, rank), world)[j];
    assert flats[k][lo..lo + len][j] == flats[k][lo + j];
  }

  /** x is the rank's slice of the average of tensor i. */
  ghost predicate SliceOfAverage(grads: seq<seq<seq<real>>>, numels: seq<nat>, world: nat, rank: nat, i: nat, x: seq<real>)
    requires world > 0 && i < |numels|
  {
    && grads != [] && (forall k :: 0 <= k < |grads| ==> i < |grads[k]|)
    && Same(Versions(grads, i), numels[i])
    && x == Slice(Average(Versions(grads, i), numels[i]), Chunk(numels[i], world), rank)
  }

  lemma {:induction false} ReceivesIt(flats: seq<seq<real>>, grads: seq<seq<seq<real>>>, numels: seq<nat>, rank: nat, i: nat)
    requires AllSend(flats, grads, numels) && rank < |flats| && i < |numels|
    ensures Same(flats, |flats| * Total(ChunkSizes(numels, |flats|)))
    ensures SliceOfAverage(grads, numels, |flats|, rank, i, Received(flats, numels, rank, i))
  {
    ReceivesSlice(flats, grads, numels, rank, i);
    hide Slice, Average, Versions, Received, SendsSlices, Same;
  }

  /** The views reduce_scatter_coalesced returns: for every tensor, its part of the output without the padding. */
  method NarrowOutput(output: array<real>, numels: seq<nat>, world: nat, rank: nat,
                      ghost flats: seq<seq<real>>, ghost grads: seq<seq<seq<real>>>)
    returns (lst: seq<seq<real>>)
    requires AllSend(flats, grads, numels) && world == |flats| && rank < world
    requires Same(flats, world * Total(ChunkSizes(numels, world)))
    requires output[..] == Reduced(flats, Total(ChunkSizes(numels, world)), rank)
    ensures |lst| == |numels|
    ensures forall i :: 0 <= i < |numels| ==> SliceOfAverage(grads, numels, world, rank, i, lst[i])
  {
    hide *;
    lst := [];
    var offset := 0;
    ChunkOffset(numels, world, 0);
    for i := 0 to |numels|
      invariant i <= |ChunkSizes(numels, world)| && |lst| == i && offset == Off(ChunkSizes(numels, world), i)
      invariant forall k :: 0 <= k < i ==> SliceOfAverage(grads, numels, world, rank, k, lst[k])
    {
      var c := Chunk(numels[i], world);
      ReceivesIt(flats, grads, numels, rank, i);
      ReceivedPart(flats, numels, rank, i, output[..]);
      ChunkOffset(numels, world, i);
      var local := SliceLength(numels[i], c, rank);
      assert output[offset..offset + local] == output[..][offset..offset + local];
      lst := lst + [output[offset..offset + local]];
      offset := offset + c;
    }
  }

  lemma {:induction false} ChunkOffset(numels: seq<nat>, world: nat, i: nat)
    requires world > 0
    ensures |ChunkSizes(numels, world)| == |numels| && Off(ChunkSizes(numels, world), 0) == 0
    ensures i < |numels| ==>
              Off(ChunkSizes(numels, world), i + 1) == Off(ChunkSizes(numels, world), i) + Chunk(numels[i], world)
  {
  }

  /** Where a rank finds a tensor in its output. */
  lemma {:induction false} ReceivedPart(flats: seq<seq<real>>, numels: seq<nat>, rank: nat, i: nat, output: seq<real>)
    requires rank < |flats| && i < |numels| && Same(flats, |flats| * Total(ChunkSizes(numels, |flats|)))
    requires output == Reduced(flats, Total(ChunkSizes(numels, |flats|)), rank)
    ensures |ChunkSizes(numels, |flats|)| == |numels|
    ensures var at, len := Off(ChunkSizes(numels, |flats|), i), SliceLength(numels[i], Chunk(numels[i], |flats|), rank);
            at + len <= |output| && output[at..at + len] == Received(flats, numels, rank, i)
  {
    BlockFits(ChunkSizes(numels, |flats|), i);
    hide Chunk, Off;
  }

  /** Conservation: what the ranks receive for a tensor, end to end, is its whole average. */
  lemma {:induction false} ReceivedTile(flats: seq<seq<real>>, grads: seq<seq<seq<real>>>, numels: seq<nat>, i: nat)
    requires AllSend(flats, grads, numels) && i < |numels|
    requires Same(flats, |flats| * Total(ChunkSizes(numels, |flats|))) && Same(Versions(grads, i), numels[i])
    ensures Flatten(seq(|flats|, r requires 0 <= r < |flats| => Received(flats, numels, r, i)))
         == Average(Versions(grads, i), numels[i])
  {
    var world := |flats|;
    var avg := Average(Versions(grads, i), numels[i]);
    var got := seq(world, r requires 0 <= r < world => Received(flats, numels, r, i));
    forall r | 0 <= r < world ensures got[r] == Slice(avg, Chunk(numels[i], world), r) {
      ReceivesSlice(flats, grads, numels, r, i);
    }
    SlicesTile(avg, world);
    assert got == seq(world, r requires 0 <= r < world => Slice(avg, Chunk(numels[i], world), r));
  }
}
