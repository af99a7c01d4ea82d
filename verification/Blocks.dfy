/** Flat buffers: blocks laid end to end, equal rows, and a tensor cut into equal slices of which
    the last ones may be short or empty. */
module Blocks {

  function Flatten<T>(xss: seq<seq<T>>): seq<T>
  {
    if xss == [] then [] else Flatten(xss[..|xss| - 1]) + xss[|xss| - 1]
  }

  function Lengths<T>(xss: seq<seq<T>>): seq<nat>
  {
    seq(|xss|, i requires 0 <= i < |xss| => |xss[i]|)
  }

  /** Where block i starts when blocks of these sizes are laid end to end. */
  function Off(sizes: seq<nat>, i: nat): nat
    requires i <= |sizes|
  {
    if i == 0 then 0 else Off(sizes, i - 1) + sizes[i - 1]
  }

  function Total(sizes: seq<nat>): nat
  {
    Off(sizes, |sizes|)
  }

  lemma {:induction false} OffGrows(sizes: seq<nat>, i: nat, j: nat)
    requires i <= j <= |sizes|
    ensures Off(sizes, i) <= Off(sizes, j)
    decreases j
  {
    if i < j { OffGrows(sizes, i, j - 1); }
  }

  lemma {:induction false} BlockFits(sizes: seq<nat>, i: nat)
    requires i < |sizes|
    ensures Off(sizes, i + 1) == Off(sizes, i) + sizes[i] <= Total(sizes)
  {
    OffGrows(sizes, i + 1, |sizes|);
  }

  lemma {:induction false} OffPrefix(sizes: seq<nat>, more: seq<nat>, i: nat)
    requires i <= |sizes| && sizes <= more
    ensures Off(sizes, i) == Off(more, i)
    decreases i
  {
    if i > 0 { OffPrefix(sizes, more, i - 1); }
  }

  /** Different blocks do not overlap. */
  lemma {:induction false} BlocksDisjoint(sizes: seq<nat>, i: nat, j: nat)
    requires i < j < |sizes|
    ensures Off(sizes, i) + sizes[i] <= Off(sizes, j)
  {
    OffGrows(sizes, i + 1, j);
  }

  lemma {:induction false} FlattenNext<T>(xss: seq<seq<T>>, i: nat)
    requires i < |xss|
    ensures Flatten(xss[..i + 1]) == Flatten(xss[..i]) + xss[i]
  {
    assert xss[..i + 1][..i] == xss[..i];
  }

  lemma {:induction false} FlattenOne<T>(xss: seq<seq<T>>, xs: seq<T>)
    ensures Flatten(xss + [xs]) == Flatten(xss) + xs
  {
    assert (xss + [xs])[..|xss|] == xss;
  }

  lemma {:induction false} FlattenAppend<T>(a: seq<seq<T>>, b: seq<seq<T>>)
    ensures Flatten(a + b) == Flatten(a) + Flatten(b)
    decreases |b|
  {
    if b == [] {
      assert a + b == a;
    } else {
      var n := |b| - 1;
      assert (a + b)[..|a + b| - 1] == a + b[..n];
      FlattenAppend(a, b[..n]);
      assert (Flatten(a) + Flatten(b[..n])) + b[n] == Flatten(a) + (Flatten(b[..n]) + b[n]);
    }
  }

  lemma {:induction false} FlattenLength<T>(xss: seq<seq<T>>, i: nat)
    requires i <= |xss|
    ensures |Flatten(xss[..i])| == Off(Lengths(xss), i)
    decreases i
  {
    if i > 0 {
      FlattenLength(xss, i - 1);
      FlattenNext(xss, i - 1);
    }
  }

  lemma {:induction false} FlattenPrefix<T>(xss: seq<seq<T>>, i: nat, j: nat)
    requires i <= j <= |xss|
    ensures Flatten(xss[..i]) <= Flatten(xss[..j])
    decreases j
  {
    if i < j {
      FlattenPrefix(xss, i, j - 1);
      FlattenNext(xss, j - 1);
    }
  }

  /** Block i of a flat buffer, found at its offset, is what was put there. */
  lemma {:induction false} FlattenBlock<T>(xss: seq<seq<T>>, i: nat)
    requires i < |xss|
    ensures var at := Off(Lengths(xss), i);
            at + |xss[i]| <= |Flatten(xss)| && Flatten(xss)[at..at + |xss[i]|] == xss[i]
  {
    FlattenLength(xss, i);
    FlattenNext(xss, i);
    FlattenPrefix(xss, i + 1, |xss|);
    assert xss[..|xss|] == xss;
  }

  lemma {:induction false} FlattenTotal<T>(xss: seq<seq<T>>)
    ensures |Flatten(xss)| == Total(Lengths(xss))
  {
    FlattenLength(xss, |xss|);
    assert xss[..|xss|] == xss;
  }

  // ------------------------------------------------------------- equal rows

  lemma {:induction false} EqualOffsets(sizes: seq<nat>, size: nat, r: nat)
    requires r <= |sizes| && forall k :: 0 <= k < |sizes| ==> sizes[k] == size
    ensures Off(sizes, r) == r * size
    decreases r
  {
    if r > 0 { EqualOffsets(sizes, size, r - 1); }
  }

  /** In a buffer of equal rows, row r is found at r times the row size. */
  lemma {:induction false} FlattenRow<T>(rows: seq<seq<T>>, size: nat, r: nat)
    requires r < |rows| && forall k :: 0 <= k < |rows| ==> |rows[k]| == size
    ensures |Flatten(rows)| == |rows| * size
    ensures 0 <= r * size <= r * size + size <= |Flatten(rows)|
    ensures Flatten(rows)[r * size..r * size + size] == rows[r]
  {
    FlattenBlock(rows, r);
    FlattenTotal(rows);
    EqualOffsets(Lengths(rows), size, r);
    EqualOffsets(Lengths(rows), size, |rows|);
  }

  // ----------------------------------------------------------------- slices

  function Least2(a: nat, b: nat): nat { if a < b then a else b }

  /** Where slice r of a tensor of n elements starts, slices being c long and clipped at the end. */
  function SliceStart(n: nat, c: nat, r: nat): nat
  {
    Least2(r * c, n)
  }

  function SliceLength(n: nat, c: nat, r: nat): (len: nat)
    ensures len <= c
  {
    SliceGrows(n, c, r);
    SliceStart(n, c, r + 1) - SliceStart(n, c, r)
  }

  function Slice<T>(x: seq<T>, c: nat, r: nat): seq<T>
  {
    SliceGrows(|x|, c, r);
    x[SliceStart(|x|, c, r)..SliceStart(|x|, c, r + 1)]
  }

  lemma {:induction false} SliceGrows(n: nat, c: nat, r: nat)
    ensures (r + 1) * c == r * c + c
    ensures SliceStart(n, c, r) <= SliceStart(n, c, r + 1) <= n
  {
  }

  lemma {:induction false} SliceFits<T>(x: seq<T>, c: nat, r: nat)
    ensures |Slice(x, c, r)| == SliceLength(|x|, c, r) <= c
    ensures r * c < |x| ==> |Slice(x, c, r)| == Least2(|x| - r * c, c)
    ensures r * c >= |x| ==> Slice(x, c, r) == []
  {
    SliceGrows(|x|, c, r);
  }

  lemma {:induction false} SliceAt<T>(x: seq<T>, c: nat, r: nat, j: nat)
    requires j < SliceLength(|x|, c, r)
    ensures r * c + j < |x| && j < |Slice(x, c, r)| && Slice(x, c, r)[j] == x[r * c + j]
  {
    SliceGrows(|x|, c, r);
  }

  lemma {:induction false} SliceNext<T>(x: seq<T>, c: nat, r: nat)
    ensures x[..SliceStart(|x|, c, r)] + Slice(x, c, r) == x[..SliceStart(|x|, c, r + 1)]
  {
    SliceGrows(|x|, c, r);
  }

  /** The slices of a tensor on the first k ranks, end to end. */
  lemma {:induction false} SlicesPrefix<T>(x: seq<T>, c: nat, world: nat, k: nat)
    requires k <= world
    ensures Flatten(seq(world, r requires 0 <= r < world => Slice(x, c, r))[..k]) == x[..SliceStart(|x|, c, k)]
    decreases k
  {
    if k > 0 {
      SlicesPrefix(x, c, world, k - 1);
      FlattenNext(seq(world, r requires 0 <= r < world => Slice(x, c, r)), k - 1);
      SliceNext(x, c, k - 1);
    }
  }

  // -------------------------------------------------------------- shard size

  /** The size of every rank's shard: the ceiling of n / world. */
  function Chunk(n: nat, world: nat): nat
    requires world > 0
  {
    (n + world - 1) / world
  }

  /** The shard sizes of tensors of these sizes. */
  function ChunkSizes(numels: seq<nat>, world: nat): seq<nat>
    requires world > 0
  {
    seq(|numels|, i requires 0 <= i < |numels| => Chunk(numels[i], world))
  }

  lemma {:induction false} ChunkCovers(n: nat, world: nat)
    requires world > 0
    ensures world * Chunk(n, world) >= n
    ensures SliceStart(n, Chunk(n, world), world) == n
    ensures n == 0 || (Chunk(n, world) > 0 && (Chunk(n, world) - 1) * world < n)
  {
    var c := Chunk(n, world);
    assert n + world - 1 == world * c + (n + world - 1) % world;
  }

  lemma {:induction false} ChunkOfMultiple(n: nat, world: nat)
    requires world > 0 && n % world == 0
    ensures Chunk(n, world) == n / world && world * Chunk(n, world) == n
  {
    var c := n / world;
    assert n == world * c;
    DivUnique(n + world - 1, world, c, world - 1);
  }

  lemma {:induction false} DivUnique(x: nat, w: nat, q: nat, rem: nat)
    requires w > 0 && rem < w && x == w * q + rem
    ensures x / w == q && x % w == rem
  {
    var d := x / w;
    assert x == w * d + x % w;
    assert w * (d - q) == rem - x % w;
    MultipleBelow(w, d - q);
  }

  lemma {:induction false} MultipleBelow(w: int, k: int)
    requires w > 0 && 0 - w < w * k && w * k < w
    ensures k == 0
  {
    if k >= 1 {
      MulMono(w, 1, k);
      assert false;
    } else if k <= -1 {
      MulMono(w, k, -1);
      assert false;
    }
  }

  lemma {:induction false} MulMono(w: int, a: int, b: int)
    requires w >= 0 && a <= b
    ensures w * a <= w * b
  {
    assert w * b - w * a == w * (b - a);
  }

  /** The slices of all ranks, end to end, are the tensor: nothing is lost, repeated or reordered. */
  lemma {:induction false} SlicesTile<T>(x: seq<T>, world: nat)
    requires world > 0
    ensures Flatten(seq(world, r requires 0 <= r < world => Slice(x, Chunk(|x|, world), r))) == x
  {
    var c := Chunk(|x|, world);
    var all := seq(world, r requires 0 <= r < world => Slice(x, c, r));
    SlicesPrefix(x, c, world, world);
    ChunkCovers(|x|, world);
    assert all[..world] == all;
    assert x[..|x|] == x;
  }

  // ------------------------------------------------------------------ copying

  /** v with x written at position at. */
  function Put<T>(v: seq<T>, at: nat, x: seq<T>): (r: seq<T>)
    requires at + |x| <= |v|
    ensures |r| == |v|
  {
    v[..at] + x + v[at + |x|..]
  }

  /** dst.narrow(0, at, |src|).copy_(src), and memcpy(dst + at, src, |src|). */
  method CopyInto<T>(dst: array<T>, at: nat, src: seq<T>)
    requires at + |src| <= dst.Length
    modifies dst
    ensures dst[..] == Put(old(dst[..]), at, src)
    ensures dst[..] == old(dst[..at]) + src + old(dst[at + |src|..])
  {
    forall k | 0 <= k < |src| {
      dst[at + k] := src[k];
    }
  }
}
