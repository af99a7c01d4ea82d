/** Shared vocabulary: optional values, the total weight of a finite set of ids,
    and the ascending list of a finite set of ids. */
module Prelude {

  datatype Option<+T> = None | Some(value: T)
  {
    function GetOr(default: T): T { if Some? then value else default }
  }

  datatype Result<+T, +E> = Ok(value: T) | Err(error: E)

  /** The elements of a sequence, forgetting order and repetition. */
  function SetOf<T>(xs: seq<T>): set<T>
  {
    set x | x in xs
  }

  /** Some element of a nonempty set. */
  ghost function Choose<T>(s: set<T>): (x: T)
    requires s != {}
    ensures x in s
  {
    var x :| x in s;
    x
  }

  /** One step of iterating over a set: any element may come next. */
  method TakeAny<T(==)>(s: set<T>) returns (x: T)
    requires s != {}
    ensures x in s
  {
    x :| x in s;
  }

  ghost predicate Distinct<T>(xs: seq<T>)
  {
    forall i, j :: 0 <= i < j < |xs| ==> xs[i] != xs[j]
  }

  lemma SetOfNext<T>(xs: seq<T>, i: nat)
    requires i < |xs|
    ensures SetOf(xs[..i + 1]) == SetOf(xs[..i]) + {xs[i]}
  {
    assert xs[..i + 1] == xs[..i] + [xs[i]];
  }

  lemma DistinctNext<T>(xs: seq<T>, x: T)
    requires Distinct(xs) && x !in SetOf(xs)
    ensures Distinct(xs + [x]) && SetOf(xs + [x]) == SetOf(xs) + {x}
  {
    assert x !in xs;
  }

  lemma DistinctPrefix<T>(xs: seq<T>, i: nat)
    requires Distinct(xs) && i < |xs|
    ensures xs[i] !in SetOf(xs[..i])
  {
  }

  /** The order in which a loop over a set happens to visit it: any. */
  method AnyOrder(s: set<int>) returns (xs: seq<int>)
    ensures Distinct(xs) && SetOf(xs) == s
  {
    xs := [];
    var rest := s;
    assert SetOf(xs) == {};
    while rest != {}
      invariant Distinct(xs) && SetOf(xs) == s - rest && rest <= s
      decreases |rest|
    {
      var x := TakeAny(rest);
      DistinctNext(xs, x);
      xs, rest := xs + [x], rest - {x};
    }
  }

  /** The map m with every key of ks bound to v. */
  function Assign<K, V>(m: map<K, V>, ks: set<K>, v: V): map<K, V>
  {
    m + map k | k in ks :: v
  }

  lemma AssignOne<K, V>(m: map<K, V>, ks: set<K>, k: K, v: V)
    ensures Assign(m, ks + {k}, v) == Assign(m, ks, v)[k := v]
  {
  }

  lemma AssignNone<K, V>(m: map<K, V>, v: V)
    ensures Assign(m, {}, v) == m
  {
  }

  lemma AssignMore<K, V>(m: map<K, V>, a: set<K>, b: set<K>, v: V)
    ensures Assign(Assign(m, a, v), b, v) == Assign(m, a + b, v)
  {
  }

  lemma EmptyMap<K(!new), V>(m: map<K, V>)
    requires forall k :: k !in m
    ensures m == map[]
  {
  }

  /** Total weight of a finite set. The element picked first does not matter, see SetSumRemove. */
  ghost function SetSum(s: set<int>, w: int -> nat): nat
  {
    if s == {} then 0 else
      var x := Choose(s);
      w(x) + SetSum(s - {x}, w)
  }

  lemma {:induction false} SetSumRemove(s: set<int>, x: int, w: int -> nat)
    requires x in s
    ensures SetSum(s, w) == w(x) + SetSum(s - {x}, w)
    decreases |s|
  {
    var y := Choose(s);
    if y != x {
      SetSumRemove(s - {y}, x, w);
      SetSumRemove(s - {x}, y, w);
      assert s - {y} - {x} == s - {x} - {y};
    }
  }

  lemma {:induction false} SetSumUnion(a: set<int>, b: set<int>, w: int -> nat)
    requires a !! b
    ensures SetSum(a + b, w) == SetSum(a, w) + SetSum(b, w)
    decreases |a|
  {
    if a == {} {
      assert a + b == b;
    } else {
      var x := Choose(a);
      SetSumRemove(a, x, w);
      SetSumRemove(a + b, x, w);
      assert (a + b) - {x} == (a - {x}) + b;
      SetSumUnion(a - {x}, b, w);
    }
  }

  lemma {:induction false} SetSumSubset(a: set<int>, b: set<int>, w: int -> nat)
    requires a <= b
    ensures SetSum(b, w) == SetSum(a, w) + SetSum(b - a, w)
  {
    assert b == a + (b - a);
    SetSumUnion(a, b - a, w);
  }

  ghost predicate IsLeast(m: int, s: set<int>)
  {
    m in s && forall x :: x in s ==> m <= x
  }

  lemma {:induction false} LeastExists(s: set<int>)
    requires s != {}
    ensures exists m :: IsLeast(m, s)
    decreases |s|
  {
    var x := Choose(s);
    if s - {x} == {} {
      assert s == {x} + (s - {x});
      assert IsLeast(x, s);
    } else {
      LeastExists(s - {x});
      var m :| IsLeast(m, s - {x});
      var k := if x < m then x else m;
      forall y | y in s ensures k <= y {
        if y != x { assert y in s - {x}; }
      }
      assert IsLeast(k, s);
    }
  }

  ghost function Least(s: set<int>): (m: int)
    requires s != {}
    ensures IsLeast(m, s)
  {
    LeastExists(s);
    var m :| IsLeast(m, s);
    m
  }

  /** The elements of a finite set of ids in ascending order. */
  ghost function Sorted(s: set<int>): seq<int>
    decreases |s|
  {
    if s == {} then [] else [Least(s)] + Sorted(s - {Least(s)})
  }

  ghost predicate Ascending(r: seq<int>)
  {
    forall i, j :: 0 <= i < j < |r| ==> r[i] < r[j]
  }

  lemma {:induction false} SortedMember(s: set<int>, x: int)
    ensures x in Sorted(s) <==> x in s
    decreases |s|
  {
    if s != {} {
      SortedMember(s - {Least(s)}, x);
    }
  }

  lemma {:induction false} SortedLength(s: set<int>)
    ensures |Sorted(s)| == |s|
    decreases |s|
  {
    if s != {} {
      SortedLength(s - {Least(s)});
    }
  }

  lemma {:induction false} SortedAscends(s: set<int>)
    ensures Ascending(Sorted(s))
    decreases |s|
  {
    if s != {} {
      var m := Least(s);
      var rest := Sorted(s - {m});
      SortedAscends(s - {m});
      forall i | 0 <= i < |rest| ensures m < rest[i] {
        SortedMember(s - {m}, rest[i]);
      }
    }
  }

  /** Putting a list of distinct ids in ascending order yields Sorted of its elements. */
  method SortIds(xs: seq<int>) returns (ys: seq<int>)
    requires forall i, j :: 0 <= i < j < |xs| ==> xs[i] != xs[j]
    ensures ys == Sorted(SetOf(xs))
  {
    var rest := SetOf(xs);
    ys := [];
    while rest != {}
      invariant ys + Sorted(rest) == Sorted(SetOf(xs))
      decreases |rest|
    {
      assert Least(rest) in rest;
      var m :| m in rest && forall x :: x in rest ==> m <= x;
      assert m == Least(rest);
      ys, rest := ys + [m], rest - {m};
    }
  }

  /** What SortIds leaves: the same ids, ascending. */
  lemma {:induction false} AscendingIds(xs: seq<int>)
    ensures Ascending(Sorted(SetOf(xs))) && forall x :: x in Sorted(SetOf(xs)) <==> x in xs
  {
    SortedAscends(SetOf(xs));
    forall x ensures x in Sorted(SetOf(xs)) <==> x in xs { SortedMember(SetOf(xs), x); }
  }
}
