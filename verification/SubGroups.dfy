/** How the optimizer lays out its shards: parameter groups are split into sub-groups, each sub-group is a
    flat buffer, and three different loops compute where a parameter's shard lives. */
module SubGroups {
  import opened Prelude
  import opened Blocks
  import opened Shards

  /** The shard sizes of a list of parameters. */
  function Sizes(ps: seq<int>, size: int -> nat): seq<nat>
  {
    seq(|ps|, i requires 0 <= i < |ps| => size(ps[i]))
  }

  function GroupSize(ps: seq<int>, size: int -> nat): nat
  {
    Total(Sizes(ps, size))
  }

  lemma {:induction false} GroupSizeOne(ps: seq<int>, p: int, size: int -> nat)
    ensures GroupSize(ps + [p], size) == GroupSize(ps, size) + size(p)
  {
    var a, b := Sizes(ps, size), Sizes(ps + [p], size);
    assert a <= b;
    OffPrefix(a, b, |ps|);
  }

  /** One sub-group of a split parameter group: without its last parameter it is below the limit, and unless
      it is the last sub-group it reaches the limit. */
  ghost predicate WellCut(g: seq<int>, size: int -> nat, limit: int, last: bool)
  {
    && g != []
    && (|g| > 1 ==> GroupSize(g[..|g| - 1], size) < limit)
    && (!last ==> GroupSize(g, size) >= limit)
  }

  /** _create_fp16_sub_groups. */
  method CreateSubGroups(ps: seq<int>, size: int -> nat, limit: Option<int>) returns (groups: seq<seq<int>>)
    requires Distinct(ps)
    ensures Flatten(groups) == ps
    ensures limit.None? || limit.value >= GroupSize(ps, size) ==> groups == [ps]
    ensures limit.Some? && limit.value < GroupSize(ps, size) ==>
              forall g :: 0 <= g < |groups| ==> WellCut(groups[g], size, limit.value, g == |groups| - 1)
  {
    if limit.None? || limit.value >= GroupSize(ps, size) {
      FlattenOne([], ps);
      return [ps];
    }
    groups := CutAll(ps, size, limit.value);
  }

  /** A sub-group ends when it reaches the limit or the parameter group ends. */
  method CutAll(ps: seq<int>, size: int -> nat, limit: int) returns (groups: seq<seq<int>>)
    requires Distinct(ps)
    ensures Flatten(groups) == ps
    ensures forall g :: 0 <= g < |groups| ==> WellCut(groups[g], size, limit, g == |groups| - 1)
  {
    OnlyLast(ps);
    EmptyGroup(size);
    hide *;
    groups := [];
    var group: seq<int>, local: int := [], 0;
    for i := 0 to |ps|
      invariant Flatten(groups) + group == ps[..i]
      invariant local == GroupSize(group, size)
      invariant group == [] || (i < |ps| && local < limit)
      invariant forall g :: 0 <= g < |groups| ==> WellCut(groups[g], size, limit, i == |ps| && g == |groups| - 1)
    {
      GroupSizeOne(group, ps[i], size);
      Cut(group, ps[i], size, limit);
      OneMore(Flatten(groups), group, ps, i);
      group, local := group + [ps[i]], local + size(ps[i]);
      if local >= limit || ps[i] == ps[|ps| - 1] {
        FlattenOne(groups, group);
        groups, group, local := groups + [group], [], 0;
      }
    }
    assert ps[..|ps|] == ps;
  }

  lemma {:induction false} OnlyLast(ps: seq<int>)
    requires Distinct(ps)
    ensures Flatten<int>([]) == []
    ensures forall i :: 0 <= i < |ps| && ps[i] == ps[|ps| - 1] ==> i == |ps| - 1
  {
  }

  lemma {:induction false} OneMore(a: seq<int>, b: seq<int>, ps: seq<int>, i: nat)
    requires i < |ps| && a + b == ps[..i]
    ensures a + (b + [ps[i]]) == ps[..i + 1] && (a + (b + [ps[i]])) + [] == ps[..i + 1]
  {
  }

  lemma {:induction false} EmptyGroup(size: int -> nat)
    ensures GroupSize([], size) == 0
  {
  }

  lemma {:induction false} Cut(g: seq<int>, p: int, size: int -> nat, limit: int)
    requires g == [] || GroupSize(g, size) < limit
    ensures WellCut(g + [p], size, limit, true)
    ensures GroupSize(g + [p], size) >= limit ==> WellCut(g + [p], size, limit, false)
  {
    assert (g + [p])[..|g + [p]| - 1] == g;
  }

  /** Every sub-group belongs to the parameter group it was cut from. */
  ghost predicate CutFrom(group: seq<int>, id: int, paramGroups: seq<seq<int>>)
  {
    0 <= id < |paramGroups| && forall p :: p in group ==> p in paramGroups[id]
  }

  lemma {:induction false} GroupDistinct(paramGroups: seq<seq<int>>, j: nat)
    requires Distinct(Flatten(paramGroups)) && j < |paramGroups|
    ensures Distinct(paramGroups[j])
  {
    FlattenBlock(paramGroups, j);
    var at := Off(Lengths(paramGroups), j);
    forall a, b | 0 <= a < b < |paramGroups[j]| ensures paramGroups[j][a] != paramGroups[j][b] {
      assert paramGroups[j][a] == Flatten(paramGroups)[at + a] && paramGroups[j][b] == Flatten(paramGroups)[at + b];
    }
  }

  lemma {:induction false} PartOf(cut: seq<seq<int>>, ps: seq<int>, g: nat, p: int)
    requires Flatten(cut) == ps && g < |cut| && p in cut[g]
    ensures p in ps
  {
    FlattenBlock(cut, g);
    var at := Off(Lengths(cut), g);
    assert p in ps[at..at + |cut[g]|];
  }

  /** Where the sub-groups of parameter group j stand: together, from a to b, and nowhere else. They are the group in
      order: whole if there is no limit or the group does not exceed it, otherwise cut where the limit is reached. */
  ghost predicate CutAt(groups: seq<seq<int>>, ids: seq<int>, ps: seq<int>, size: int -> nat, limit: Option<int>,
                        j: int, a: nat, b: nat)
  {
    && a <= b <= |groups| == |ids|
    && (forall s :: 0 <= s < |ids| ==> (ids[s] == j <==> a <= s < b))
    && Flatten(groups[a..b]) == ps
    && (limit.None? || Total(Sizes(ps, size)) <= limit.value ==> groups[a..b] == [ps])
    && (limit.Some? && limit.value < Total(Sizes(ps, size)) ==>
          forall s :: a <= s < b ==>
            && groups[s] != []
            && (|groups[s]| > 1 ==> Total(Sizes(groups[s][..|groups[s]| - 1], size)) < limit.value)
            && (s < b - 1 ==> Total(Sizes(groups[s], size)) >= limit.value))
  }

  ghost predicate GroupCut(groups: seq<seq<int>>, ids: seq<int>, ps: seq<int>, size: int -> nat, limit: Option<int>, j: int)
  {
    exists a: nat, b: nat :: CutAt(groups, ids, ps, size, limit, j, a, b)
  }

  lemma {:induction false} CutStays(groups: seq<seq<int>>, ids: seq<int>, more: seq<seq<int>>, moreIds: seq<int>, ps: seq<int>,
                                    size: int -> nat, limit: Option<int>, j: int)
    requires GroupCut(groups, ids, ps, size, limit, j) && |more| == |moreIds| && j !in moreIds
    ensures GroupCut(groups + more, ids + moreIds, ps, size, limit, j)
  {
    var a: nat, b: nat :| CutAt(groups, ids, ps, size, limit, j, a, b);
    assert (groups + more)[a..b] == groups[a..b];
    assert forall s :: |ids| <= s < |ids + moreIds| ==> (ids + moreIds)[s] in moreIds;
    hide Total, Sizes, Flatten;
    assert CutAt(groups + more, ids + moreIds, ps, size, limit, j, a, b);
  }

  lemma {:induction false} CutAdded(groups: seq<seq<int>>, ids: seq<int>, cut: seq<seq<int>>, ps: seq<int>,
                                    size: int -> nat, limit: Option<int>, j: int)
    requires |groups| == |ids| && j !in ids && Flatten(cut) == ps
    requires limit.None? || limit.value >= GroupSize(ps, size) ==> cut == [ps]
    requires limit.Some? && limit.value < GroupSize(ps, size) ==>
               forall g :: 0 <= g < |cut| ==> WellCut(cut[g], size, limit.value, g == |cut| - 1)
    ensures GroupCut(groups + cut, ids + seq(|cut|, _ => j), ps, size, limit, j)
  {
    var a, b := |groups|, |groups + cut|;
    assert (groups + cut)[a..b] == cut;
    hide Total, Sizes, Flatten;
    forall s | a <= s < b ensures (groups + cut)[s] == cut[s - a] { }
    assert CutAt(groups + cut, ids + seq(|cut|, _ => j), ps, size, limit, j, a, b);
  }

  /** The first half of _create_fp16_partitions_with_defragmentation: all sub-groups in order, each with the index
      of its parameter group. No parameter is lost, repeated or reordered, and every parameter group is cut by itself. */
  method CreatePartitions(paramGroups: seq<seq<int>>, size: int -> nat, limit: Option<int>)
    returns (groups: seq<seq<int>>, ids: seq<int>)
    requires Distinct(Flatten(paramGroups))
    ensures Flatten(groups) == Flatten(paramGroups) && |ids| == |groups|
    ensures forall s :: 0 <= s < |groups| ==> CutFrom(groups[s], ids[s], paramGroups)
    ensures forall j :: 0 <= j < |paramGroups| ==> GroupCut(groups, ids, paramGroups[j], size, limit, j)
  {
    hide GroupCut, CutFrom, WellCut, Flatten;
    groups, ids := [], [];
    assert Flatten<int>([]) == Flatten<int>(paramGroups[..0]);
    for j := 0 to |paramGroups|
      invariant Flatten(groups) == Flatten(paramGroups[..j]) && |ids| == |groups|
      invariant forall s :: 0 <= s < |groups| ==> CutFrom(groups[s], ids[s], paramGroups)
      invariant forall s :: 0 <= s < |ids| ==> ids[s] < j
      invariant forall k :: 0 <= k < j ==> GroupCut(groups, ids, paramGroups[k], size, limit, k)
    {
      GroupDistinct(paramGroups, j);
      var cut := CreateSubGroups(paramGroups[j], size, limit);
      FlattenAppend(groups, cut);
      FlattenNext(paramGroups, j);
      var its := seq(|cut|, _ => j);
      forall g | 0 <= g < |cut| ensures CutFrom(cut[g], j, paramGroups) { CutFromIs(cut, paramGroups, j, g); }
      forall k | 0 <= k < j ensures GroupCut(groups + cut, ids + its, paramGroups[k], size, limit, k) {
        CutStays(groups, ids, cut, its, paramGroups[k], size, limit, k);
      }
      CutAdded(groups, ids, cut, paramGroups[j], size, limit, j);
      groups, ids := groups + cut, ids + its;
    }
    assert paramGroups[..|paramGroups|] == paramGroups;
  }

  lemma {:induction false} CutFromIs(cut: seq<seq<int>>, paramGroups: seq<seq<int>>, j: nat, g: nat)
    requires j < |paramGroups| && Flatten(cut) == paramGroups[j] && g < |cut|
    ensures CutFrom(cut[g], j, paramGroups)
  {
    forall p | p in cut[g] ensures p in paramGroups[j] { PartOf(cut, paramGroups[j], g, p); }
  }

  // ---------------------------------------------------------------- positions

  datatype Position = Position(group: nat, offset: nat, count: nat)

  /** All parameters of all sub-groups, in order. */
  function AllParams(groups: seq<seq<int>>): seq<int>
  {
    Flatten(groups)
  }

  /** Where the k-th parameter of sub-group s stands in that list. */
  function Rank(groups: seq<seq<int>>, s: nat, k: nat): nat
    requires s < |groups|
  {
    Off(Lengths(groups), s) + k
  }

  lemma {:induction false} RankIs(groups: seq<seq<int>>, s: nat, k: nat)
    requires s < |groups| && k < |groups[s]|
    ensures Rank(groups, s, k) < |AllParams(groups)| && AllParams(groups)[Rank(groups, s, k)] == groups[s][k]
  {
    FlattenBlock(groups, s);
    var at := Off(Lengths(groups), s);
    assert AllParams(groups)[at..at + |groups[s]|][k] == AllParams(groups)[at + k];
  }

  lemma {:induction false} RankGrows(groups: seq<seq<int>>, s: nat, k: nat, t: nat, l: nat)
    requires s < |groups| && k < |groups[s]| && t < |groups| && l < |groups[t]|
    requires s < t || (s == t && k < l)
    ensures Rank(groups, s, k) < Rank(groups, t, l)
  {
    if s < t { BlocksDisjoint(Lengths(groups), s, t); }
  }

  /** No parameter is listed twice. */
  ghost predicate Once(groups: seq<seq<int>>)
  {
    Distinct(AllParams(groups))
  }

  lemma {:induction false} OneHome(groups: seq<seq<int>>, s: nat, k: nat, t: nat, l: nat)
    requires Once(groups)
    requires s < |groups| && k < |groups[s]| && t < |groups| && l < |groups[t]|
    requires groups[s][k] == groups[t][l]
    ensures s == t && k == l
  {
    RankIs(groups, s, k);
    RankIs(groups, t, l);
    if s < t || (s == t && k < l) {
      RankGrows(groups, s, k, t, l);
      assert false;
    } else if t < s || (s == t && l < k) {
      RankGrows(groups, t, l, s, k);
      assert false;
    }
  }

  ghost predicate PositionOk(pos: map<int, Position>, groups: seq<seq<int>>, size: int -> nat, s: nat, k: nat)
    requires s < |groups| && k < |groups[s]|
  {
    groups[s][k] in pos
    && pos[groups[s][k]] == Position(s, Off(Sizes(groups[s], size), k), size(groups[s][k]))
  }

  /** The inner loop of set_grad_positions. */
  method PlaceGroup(groups: seq<seq<int>>, size: int -> nat, s: nat, pos0: map<int, Position>)
    returns (pos: map<int, Position>)
    requires Once(groups) && s < |groups|
    requires forall t, l :: 0 <= t < s && 0 <= l < |groups[t]| ==> PositionOk(pos0, groups, size, t, l)
    ensures forall t, l :: 0 <= t <= s && 0 <= l < |groups[t]| ==> PositionOk(pos, groups, size, t, l)
  {
    pos := pos0;
    var offset := 0;
    for k := 0 to |groups[s]|
      invariant offset == Off(Sizes(groups[s], size), k)
      invariant forall t, l :: 0 <= t < s && 0 <= l < |groups[t]| ==> PositionOk(pos, groups, size, t, l)
      invariant forall l :: 0 <= l < k ==> PositionOk(pos, groups, size, s, l)
    {
      var p := groups[s][k];
      ghost var before := pos;
      pos := pos[p := Position(s, offset, size(p))];
      forall t, l | 0 <= t <= s && 0 <= l < |groups[t]| && (t < s || l < k) ensures PositionOk(pos, groups, size, t, l) {
        assert PositionOk(before, groups, size, t, l);
        if groups[t][l] == p { OneHome(groups, t, l, s, k); }
      }
      offset := offset + size(p);
    }
  }

  /** set_grad_positions: the sub-group, the offset inside it and the size of every parameter's shard. */
  method SetGradPositions(groups: seq<seq<int>>, size: int -> nat) returns (pos: map<int, Position>)
    requires Once(groups)
    ensures forall s, k :: 0 <= s < |groups| && 0 <= k < |groups[s]| ==> PositionOk(pos, groups, size, s, k)
  {
    pos := map[];
    for s := 0 to |groups|
      invariant forall t, l :: 0 <= t < s && 0 <= l < |groups[t]| ==> PositionOk(pos, groups, size, t, l)
    {
      pos := PlaceGroup(groups, size, s, pos);
    }
  }

  /** The offsets of all shards in the one fp16 gradient buffer. */
  method GradOffsets(groups: seq<seq<int>>, size: int -> nat) returns (offsets: map<int, nat>)
    requires Once(groups)
    ensures forall i :: 0 <= i < |AllParams(groups)| ==> OffsetOk(offsets, AllParams(groups), size, i)
  {
    offsets := OffsetsOf(AllParams(groups), size);
  }

  ghost predicate OffsetOk(offsets: map<int, nat>, all: seq<int>, size: int -> nat, i: nat)
    requires i < |all|
  {
    all[i] in offsets && offsets[all[i]] == Off(Sizes(all, size), i)
  }

  method OffsetsOf(all: seq<int>, size: int -> nat) returns (offsets: map<int, nat>)
    requires Distinct(all)
    ensures forall i :: 0 <= i < |all| ==> OffsetOk(offsets, all, size, i)
  {
    offsets := map[];
    var offset := 0;
    for i := 0 to |all|
      invariant offset == Off(Sizes(all, size), i)
      invariant forall j :: 0 <= j < i ==> OffsetOk(offsets, all, size, j)
    {
      BlockFits(Sizes(all, size), i);
      ghost var before := offsets;
      offsets := offsets[all[i] := offset];
      forall j | 0 <= j <= i ensures OffsetOk(offsets, all, size, j) {
        if j < i {
          assert OffsetOk(before, all, size, j);
          assert all[j] != all[i];
        }
      }
      offset := offset + size(all[i]);
    }
  }

  /** The sizes of the flat buffers. */
  function GroupSizes(groups: seq<seq<int>>, size: int -> nat): seq<nat>
  {
    seq(|groups|, s requires 0 <= s < |groups| => GroupSize(groups[s], size))
  }

  lemma {:induction false} SizesAt(ps: seq<int>, size: int -> nat, at: nat, part: seq<int>, k: nat)
    requires at + |part| <= |ps| && ps[at..at + |part|] == part && k <= |part|
    ensures Off(Sizes(ps, size), at + k) == Off(Sizes(ps, size), at) + Off(Sizes(part, size), k)
    decreases k
  {
    if k > 0 {
      SizesAt(ps, size, at, part, k - 1);
      assert ps[at..at + |part|][k - 1] == part[k - 1];
    }
  }

  /** Counted over all shards, a sub-group starts after the flat buffers before it. */
  lemma {:induction false} GroupStart(groups: seq<seq<int>>, size: int -> nat, s: nat)
    requires s <= |groups|
    ensures Off(Lengths(groups), s) <= |AllParams(groups)|
    ensures Off(Sizes(AllParams(groups), size), Off(Lengths(groups), s)) == Off(GroupSizes(groups, size), s)
    decreases s
  {
    FlattenTotal(groups);
    OffGrows(Lengths(groups), s, |groups|);
    if s > 0 {
      GroupStart(groups, size, s - 1);
      FlattenBlock(groups, s - 1);
      SizesAt(AllParams(groups), size, Off(Lengths(groups), s - 1), groups[s - 1], |groups[s - 1]|);
    }
  }

  /** The three layouts agree: the offset in the global gradient buffer is the start of the sub-group's flat
      buffer plus the offset inside the sub-group; and every shard ends within its sub-group. */
  lemma {:induction false} OffsetsAgree(groups: seq<seq<int>>, size: int -> nat, s: nat, k: nat)
    requires s < |groups| && k < |groups[s]|
    ensures Rank(groups, s, k) < |AllParams(groups)|
    ensures Off(Sizes(AllParams(groups), size), Rank(groups, s, k))
         == Off(GroupSizes(groups, size), s) + Off(Sizes(groups[s], size), k)
    ensures Off(Sizes(groups[s], size), k) + size(groups[s][k]) <= GroupSize(groups[s], size)
  {
    RankIs(groups, s, k);
    GroupStart(groups, size, s);
    FlattenBlock(groups, s);
    SizesAt(AllParams(groups), size, Off(Lengths(groups), s), groups[s], k);
    BlockFits(Sizes(groups[s], size), k);
  }

  // ------------------------------------------------------------- flat buffers

  /** _move_to_flat_buffer: the shards of a sub-group move into its part of the group's buffer, in order. */
  method MoveToFlatBuffer(shards: seq<seq<real>>, buffer: array<real>, base: nat)
    requires base + TotalSize(shards) <= buffer.Length
    modifies buffer
    ensures buffer[..] == old(buffer[..base]) + Flatten(shards) + old(buffer[base + TotalSize(shards)..])
  {
    ghost var rest := buffer[..];
    FlattenTotal(shards);
    var start := 0;
    for i := 0 to |shards|
      invariant start == Off(Lengths(shards), i) == |Flatten(shards[..i])|
      invariant start <= TotalSize(shards)
      invariant buffer[..] == rest[..base] + Flatten(shards[..i]) + rest[base + start..]
    {
      BlockFits(Lengths(shards), i);
      FlattenNext(shards, i);
      ghost var before := buffer[..];
      CopyInto(buffer, base + start, shards[i]);
      MovedOne(rest, base, Flatten(shards[..i]), shards[i], before, buffer[..]);
      start := start + |shards[i]|;
    }
    assert shards[..|shards|] == shards;
  }

  lemma {:induction false} MovedOne(rest: seq<real>, base: nat, front: seq<real>, part: seq<real>,
                                    before: seq<real>, after: seq<real>)
    requires base + |front| + |part| <= |rest|
    requires before == rest[..base] + front + rest[base + |front|..]
    requires after == before[..base + |front|] + part + before[base + |front| + |part|..]
    ensures after == rest[..base] + (front + part) + rest[base + |front + part|..]
  {
    assert before[..base + |front|] == rest[..base] + front;
    assert before[base + |front| + |part|..] == rest[base + |front| + |part|..];
  }

  /** The second half of _create_fp16_partitions_with_defragmentation: the sub-groups of one parameter group
      fill its buffer from end to end. */
  method FillGroupBuffer(subGroups: seq<seq<seq<real>>>, buffer: array<real>)
    requires buffer.Length == |Flatten(Flatten(subGroups))|
    modifies buffer
    ensures buffer[..] == Flatten(Flatten(subGroups))
  {
    var offset := 0;
    for i := 0 to |subGroups|
      invariant offset == |Flatten(Flatten(subGroups[..i]))| <= buffer.Length
      invariant buffer[..offset] == Flatten(Flatten(subGroups[..i]))
    {
      FlattenNext(subGroups, i);
      FlattenAppend(Flatten(subGroups[..i]), subGroups[i]);
      FlattenTotal(subGroups[i]);
      FlattenPrefix(subGroups, i + 1, |subGroups|);
      assert subGroups[..|subGroups|] == subGroups;
      PrefixFlattens(Flatten(subGroups[..i + 1]), Flatten(subGroups));
      ghost var front := buffer[..offset];
      MoveToFlatBuffer(subGroups[i], buffer, offset);
      assert buffer[..offset + TotalSize(subGroups[i])] == front + Flatten(subGroups[i]);
      offset := offset + TotalSize(subGroups[i]);
    }
    assert subGroups[..|subGroups|] == subGroups;
    assert buffer[..buffer.Length] == buffer[..];
  }

  lemma {:induction false} PrefixFlattens(a: seq<seq<real>>, b: seq<seq<real>>)
    requires a <= b
    ensures |Flatten(a)| <= |Flatten(b)|
  {
    assert b == a + b[|a|..];
    FlattenAppend(a, b[|a|..]);
  }

  // ---------------------------------------------------------- buffer numbering

  /** How many of the first j groups are not empty. */
  function Filled(sizes: seq<nat>, j: nat): nat
    requires j <= |sizes|
  {
    if j == 0 then 0 else Filled(sizes, j - 1) + if sizes[j - 1] > 0 then 1 else 0
  }

  /** The buffers, each named by the group it was made for: the non-empty groups in order. */
  ghost predicate BuffersOf(sizes: seq<nat>, n: nat, buffers: seq<int>)
    requires n <= |sizes|
  {
    && |buffers| == Filled(sizes, n)
    && forall b :: 0 <= b < |buffers| ==> 0 <= buffers[b] < n && sizes[buffers[b]] > 0 && Filled(sizes, buffers[b]) == b
  }

  /** _create_param_groups_fp16_flat_cpu_memory: only groups that hold anything get a buffer. */
  method GroupBuffers(sizes: seq<nat>) returns (buffers: seq<int>)
    ensures BuffersOf(sizes, |sizes|, buffers)
  {
    hide *;
    buffers := [];
    NoBuffers(sizes);
    for j := 0 to |sizes|
      invariant BuffersOf(sizes, j, buffers)
    {
      NextBuffer(sizes, j, buffers);
      if sizes[j] > 0 { buffers := buffers + [j]; }
    }
  }

  lemma {:induction false} NoBuffers(sizes: seq<nat>)
    ensures BuffersOf(sizes, 0, [])
  {
  }

  lemma {:induction false} NextBuffer(sizes: seq<nat>, j: nat, buffers: seq<int>)
    requires j < |sizes| && BuffersOf(sizes, j, buffers)
    ensures BuffersOf(sizes, j + 1, if sizes[j] > 0 then buffers + [j] else buffers)
  {
  }

  lemma {:induction false} FilledAtMost(sizes: seq<nat>, j: nat)
    requires j <= |sizes|
    ensures Filled(sizes, j) <= j
    ensures Filled(sizes, j) == j <==> forall k :: 0 <= k < j ==> sizes[k] > 0
    decreases j
  {
    if j > 0 { FilledAtMost(sizes, j - 1); }
  }

  lemma {:induction false} AllFilled(sizes: seq<nat>, buffers: seq<int>, j: nat)
    requires BuffersOf(sizes, |sizes|, buffers) && j < |sizes|
    requires forall k :: 0 <= k < |sizes| ==> sizes[k] > 0
    ensures j < |buffers| && buffers[j] == j
  {
    FilledAtMost(sizes, |sizes|);
    FilledAtMost(sizes, buffers[j]);
  }

  /** The lookup at index j succeeds and yields the buffer made for group j. */
  predicate FindsOwn(buffers: seq<int>, j: nat)
  {
    j < |buffers| && buffers[j] == j
  }

  /** The buffer of group j is looked up at index j, for every group has at least one sub-group. Every lookup
      succeeds and finds the group's own buffer if and only if no group is empty. */
  lemma {:induction false} EveryGroupFindsItsBuffer(sizes: seq<nat>, buffers: seq<int>)
    requires BuffersOf(sizes, |sizes|, buffers)
    ensures (forall j :: 0 <= j < |sizes| ==> FindsOwn(buffers, j))
       <==> (forall j :: 0 <= j < |sizes| ==> sizes[j] > 0)
  {
    if forall j :: 0 <= j < |sizes| ==> sizes[j] > 0 {
      forall j | 0 <= j < |sizes| ensures FindsOwn(buffers, j) {
        AllFilled(sizes, buffers, j);
      }
    } else {
      var j :| 0 <= j < |sizes| && sizes[j] == 0;
      assert !FindsOwn(buffers, j);
    }
  }
}
