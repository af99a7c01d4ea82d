/** Completion flags shared between the data-path processor and the GPU: the pool that hands them out, and
    why waiting for equality works. */
module FlagPool {
  import opened Prelude
  import opened Blocks

  // ------------------------------------------------------------ bits and powers

  /** Bitwise and of two non-negative numbers. */
  function And(a: nat, b: nat): nat
  {
    if a == 0 || b == 0 then 0
    else 2 * And(a / 2, b / 2) + (if a % 2 == 1 && b % 2 == 1 then 1 else 0)
  }

  function Pow2(e: nat): (p: nat)
    ensures p > 0
  {
    if e == 0 then 1 else 2 * Pow2(e - 1)
  }

  ghost predicate IsPower(n: int)
  {
    exists e: nat :: n == Pow2(e)
  }

  /** x & (2^e - 1) is x modulo 2^e. */
  lemma {:induction false} MaskIsModulo(x: nat, e: nat)
    ensures And(x, Pow2(e) - 1) == x % Pow2(e)
    decreases e
  {
    if e > 0 {
      MaskIsModulo(x / 2, e - 1);
      MaskStep(x, Pow2(e) - 1);
      DoubleModulo(x, Pow2(e - 1));
    }
  }

  lemma {:induction false} DoubleModulo(x: nat, p: nat)
    requires p > 0
    ensures x % (2 * p) == 2 * ((x / 2) % p) + x % 2
  {
    var q, m := (x / 2) / p, (x / 2) % p;
    var t := p * q;
    assert x / 2 == t + m;
    assert 2 * p * q == 2 * t;
    DivUnique(x, 2 * p, q, 2 * m + x % 2);
  }

  lemma {:induction false} MaskStep(x: nat, mask: nat)
    requires mask % 2 == 1
    ensures And(x, mask) == 2 * And(x / 2, mask / 2) + x % 2
  {
    if x > 0 && x / 2 == 0 { assert And(x / 2, mask / 2) == 0; }
  }

  /** The constructor's test accepts exactly the powers of two. */
  lemma {:induction false} PowerTest(size: nat)
    requires size > 0
    ensures And(size, size - 1) == 0 <==> IsPower(size)
    decreases size
  {
    if size == 1 {
      assert 1 == Pow2(0);
    } else if size % 2 == 1 {
      OddIsNoPower(size);
      assert (size - 1) % 2 == 0 && (size - 1) / 2 == size / 2;
      AndSelf(size / 2);
    } else {
      var h := size / 2;
      assert (size - 1) / 2 == h - 1;
      PowerTest(h);
      HalfPower(h);
    }
  }

  lemma {:induction false} AndSelf(h: nat)
    ensures And(h, h) == h
    decreases h
  {
    if h > 0 { AndSelf(h / 2); }
  }

  lemma {:induction false} OddIsNoPower(n: nat)
    requires n > 1 && n % 2 == 1
    ensures !IsPower(n)
  {
    forall e: nat ensures n != Pow2(e) {
      if e > 0 { assert Pow2(e) % 2 == 0; }
    }
  }

  lemma {:induction false} HalfPower(h: nat)
    requires h > 0
    ensures IsPower(2 * h) <==> IsPower(h)
  {
    if IsPower(h) {
      var e: nat :| h == Pow2(e);
      assert 2 * h == Pow2(e + 1);
    }
    if IsPower(2 * h) {
      var e: nat :| 2 * h == Pow2(e);
      if e > 0 { assert h == Pow2(e - 1); }
    }
  }

  // -------------------------------------------------------------- round robin

  /** The k-th request gets this slot, and this value to wait for. */
  function SlotOf(k: nat, size: nat): nat
    requires size > 0
  {
    k % size
  }

  function GenOf(k: nat, size: nat): nat
    requires size > 0
  {
    k / size + 1
  }

  lemma {:induction false} NextRequest(k: nat, size: nat)
    requires size > 0
    ensures k % size + 1 < size ==> (k + 1) % size == k % size + 1 && (k + 1) / size == k / size
    ensures k % size + 1 == size ==> (k + 1) % size == 0 && (k + 1) / size == k / size + 1
    ensures (k + 1) % size == (k % size + 1) % size
  {
    var q, m := k / size, k % size;
    assert k == size * q + m;
    if m + 1 < size {
      DivUnique(k + 1, size, q, m + 1);
      DivUnique(m + 1, size, 0, m + 1);
    } else {
      assert k + 1 == size * (q + 1) + 0;
      DivUnique(k + 1, size, q + 1, 0);
      DivUnique(size, size, 1, 0);
    }
  }

  const GENERATION_LIMIT: nat := 0x4000_0000

  datatype Ticket = Ticket(slot: nat, generation: nat, address: int, expected: nat)

  datatype Overflow = GenerationOverflow(slot: nat, generation: nat)

  class GpuFlagPool {
    const size: nat
    const mask: nat
    const baseAddress: int
    const gens: array<nat>
    var next: nat
    /** How many requests were handed out since construction or the last reset. */
    ghost var count: nat

    ghost predicate Valid()
      reads this, gens
    {
      && size > 0 && IsPower(size) && mask == size - 1 && gens.Length == size
      && next == SlotOf(count, size)
      && forall i :: 0 <= i < size ==> gens[i] == count / size + (if i < count % size then 1 else 0)
    }

    constructor Init(size: nat, baseAddress: int)
      requires size > 0 && IsPower(size)
      ensures Valid() && fresh(gens) && count == 0 && this.size == size && this.baseAddress == baseAddress
    {
      this.size, this.mask, this.baseAddress := size, size - 1, baseAddress;
      this.gens := new nat[size](_ => 0);
      this.next, this.count := 0, 0;
      new;
      DivUnique(0, size, 0, 0);
    }

    /** acquire: the next slot in turn. Past the generation limit it raises, having already moved on. */
    method Acquire() returns (r: Result<Ticket, Overflow>)
      requires Valid()
      modifies this, gens
      ensures Valid() && count == old(count) + 1
      ensures var slot, gen := old(count) % size, old(count) / size + 1;
              r == if gen >= GENERATION_LIMIT then Err(GenerationOverflow(slot, gen))
                   else Ok(Ticket(slot, gen, baseAddress + slot * 4, gen))
    {
      var slot := next;
      NextRequest(count, size);
      ghost var e: nat :| size == Pow2(e);
      MaskIsModulo(next + 1, e);
      next := And(next + 1, mask);
      gens[slot] := gens[slot] + 1;
      var gen := gens[slot];
      count := count + 1;
      if gen >= GENERATION_LIMIT {
        return Err(GenerationOverflow(slot, gen));
      }
      return Ok(Ticket(slot, gen, baseAddress + slot * 4, gen));
    }

    /** reset: as after construction. */
    method Reset()
      requires Valid()
      modifies this, gens
      ensures Valid() && count == 0
    {
      forall i | 0 <= i < gens.Length { gens[i] := 0; }
      next, count := 0, 0;
      DivUnique(0, size, 0, 0);
    }
  }

  /** The constructor as callers see it: any other size is refused. */
  method NewPool(size: int, baseAddress: int) returns (pool: GpuFlagPool?)
    ensures pool != null <==> IsPower(size)
    ensures pool != null ==> fresh(pool) && pool.Valid() && pool.size == size && pool.count == 0
  {
    if size <= 0 { return null; }
    PowerTest(size);
    if And(size, size - 1) != 0 { return null; }
    pool := new GpuFlagPool.Init(size, baseAddress);
  }

  // ------------------------------------------------------------ the protocol

  /** Requests handed out so far, those whose completion was written (in the order of the writes), those whose
      wait has passed, and the flags. */
  datatype Flags = Flags(count: nat, written: seq<nat>, consumed: set<nat>, values: seq<int>)

  datatype Event = Acquire | Complete(k: nat) | Consume(k: nat)

  /** A wait passes when the flag equals the expected value. */
  predicate Passes(s: Flags, k: nat)
  {
    |s.values| > 0 && s.values[SlotOf(k, |s.values|)] == GenOf(k, |s.values|)
  }

  /** Completions arrive in any order, each once; a wait is consumed only when it passes. */
  function Next(s: Flags, e: Event): Option<Flags>
    requires |s.values| > 0
  {
    match e
    case Acquire => Some(s.(count := s.count + 1))
    case Complete(k) =>
      if k < s.count && k !in s.written then
        Some(s.(written := s.written + [k], values := s.values[SlotOf(k, |s.values|) := GenOf(k, |s.values|)]))
      else None
    case Consume(k) =>
      if k < s.count && k !in s.consumed && Passes(s, k) then Some(s.(consumed := s.consumed + {k})) else None
  }

  function Start(size: nat): Flags
  {
    Flags(0, [], {}, seq(size, _ => 0))
  }

  /** The caller's duty: a slot is reused only after the request that had it was consumed. */
  predicate Allowed(s: Flags, e: Event)
  {
    e == Acquire ==> s.count < |s.values| || s.count - |s.values| in s.consumed
  }

  predicate SameSlot(j: nat, k: nat, size: nat)
  {
    size > 0 && SlotOf(j, size) == SlotOf(k, size)
  }

  /** k was written, and nothing in its slot was written after it. */
  ghost predicate LastInSlot(s: Flags, k: nat)
  {
    exists i :: 0 <= i < |s.written| && s.written[i] == k
      && forall j :: i < j < |s.written| ==> !SameSlot(s.written[j], k, |s.values|)
  }

  ghost predicate Inv(s: Flags)
  {
    && |s.values| > 0 && Distinct(s.written)
    && (forall k :: k in s.written ==> k < s.count)
    && (forall k :: k in s.consumed ==> k in s.written)
    && (forall k: nat :: Passes(s, k) ==> LastInSlot(s, k))
    && (forall k: nat :: LastInSlot(s, k) ==> Passes(s, k))
  }

  lemma {:induction false} SlotAndGen(j: nat, k: nat, size: nat)
    requires size > 0 && SlotOf(j, size) == SlotOf(k, size) && GenOf(j, size) == GenOf(k, size)
    ensures j == k
  {
    assert j == size * (j / size) + j % size && k == size * (k / size) + k % size;
  }

  lemma {:induction false} StartInv(size: nat)
    requires size > 0
    ensures Inv(Start(size))
  {
  }

  lemma {:induction false} WriteKeepsMeaning(s: Flags, k: nat, j: nat)
    requires Inv(s) && k < s.count && k !in s.written
    ensures var r := Next(s, Complete(k)).value; Passes(r, j) <==> LastInSlot(r, j)
  {
    var size := |s.values|;
    var r := Next(s, Complete(k)).value;
    if SameSlot(j, k, size) {
      if j == k {
        assert r.written[|s.written|] == k;
        assert LastInSlot(r, k);
      } else {
        if Passes(r, j) { SlotAndGen(j, k, size); }
        assert r.written[|s.written|] == k && SameSlot(k, j, size);
        NotLast(r, j, |s.written|);
      }
    } else {
      OtherSlot(s, k, j);
    }
  }

  /** Something else was written in the slot at the end. */
  lemma {:induction false} NotLast(s: Flags, j: nat, x: nat)
    requires x == |s.written| - 1 && s.written[x] != j && SameSlot(s.written[x], j, |s.values|)
    ensures !LastInSlot(s, j)
  {
    forall i | 0 <= i < |s.written| && s.written[i] == j ensures i < x {
    }
  }

  lemma {:induction false} OtherSlot(s: Flags, k: nat, j: nat)
    requires Inv(s) && k < s.count && k !in s.written && !SameSlot(j, k, |s.values|)
    ensures var r := Next(s, Complete(k)).value;
            (Passes(r, j) <==> Passes(s, j)) && (LastInSlot(r, j) <==> LastInSlot(s, j))
  {
    var r := Next(s, Complete(k)).value;
    if LastInSlot(s, j) {
      var i :| 0 <= i < |s.written| && s.written[i] == j
        && forall x :: i < x < |s.written| ==> !SameSlot(s.written[x], j, |s.values|);
      assert r.written[i] == j;
      forall x | i < x < |r.written| ensures !SameSlot(r.written[x], j, |s.values|) {
        if x < |s.written| { assert r.written[x] == s.written[x]; }
      }
    }
    if LastInSlot(r, j) {
      var i :| 0 <= i < |r.written| && r.written[i] == j
        && forall x :: i < x < |r.written| ==> !SameSlot(r.written[x], j, |s.values|);
      assert i < |s.written| && s.written[i] == j;
      forall x | i < x < |s.written| ensures !SameSlot(s.written[x], j, |s.values|) {
        assert r.written[x] == s.written[x];
      }
    }
  }

  lemma {:induction false} NextKeeps(s: Flags, e: Event)
    requires Inv(s) && Next(s, e).Some?
    ensures Inv(Next(s, e).value)
  {
    var r := Next(s, e).value;
    match e
    case Acquire =>
      assert forall k: nat :: (Passes(r, k) <==> Passes(s, k)) && (LastInSlot(r, k) <==> LastInSlot(s, k));
    case Complete(k) =>
      DistinctNext(s.written, k);
      forall j: nat ensures Passes(r, j) <==> LastInSlot(r, j) { WriteKeepsMeaning(s, k, j); }
    case Consume(k) =>
      assert forall j: nat :: (Passes(r, j) <==> Passes(s, j)) && (LastInSlot(r, j) <==> LastInSlot(s, j));
      assert LastInSlot(s, k);
  }

  /** A wait never passes before its own request completed, whatever the caller does. */
  lemma {:induction false} NeverEarly(s: Flags, k: nat)
    requires Inv(s) && Passes(s, k)
    ensures k in s.written
  {
    assert LastInSlot(s, k);
  }

  /** The caller's duty was done so far: of two requests in one slot the earlier is consumed. */
  ghost predicate Tidy(s: Flags)
  {
    forall j: nat, k: nat :: j < k < s.count && SameSlot(j, k, |s.values|) ==> j in s.consumed
  }

  lemma {:induction false} LaterQuotient(size: nat, a: nat, b: nat)
    requires size * a < size * b
    ensures a + 1 <= b && size * (a + 1) <= size * b && size * (b - 1) == size * b - size
  {
    if b <= a { MulMono(size, b, a); }
    MulMono(size, a + 1, b);
  }

  lemma {:induction false} SlotParts(k: nat, size: nat)
    requires size > 0
    ensures k == size * (k / size) + SlotOf(k, size) && SlotOf(k, size) < size
  {
  }

  lemma {:induction false} PreviousInSlot(j: nat, k: nat, size: nat)
    requires size > 0 && j < k && SameSlot(j, k, size)
    ensures k >= size && j <= k - size && SameSlot(j, k - size, size)
  {
    var a, b, m := j / size, k / size, SlotOf(k, size);
    SlotParts(j, size);
    SlotParts(k, size);
    LaterQuotient(size, a, b);
    assert size * (a + 1) == size * a + size;
    DivUnique(k - size, size, b - 1, m);
  }

  lemma {:induction false} NextTidy(s: Flags, e: Event)
    requires Inv(s) && Tidy(s) && Allowed(s, e) && Next(s, e).Some?
    ensures Tidy(Next(s, e).value)
  {
    var r := Next(s, e).value;
    if e == Acquire {
      forall j: nat, k: nat | j < k < r.count && SameSlot(j, k, |r.values|) ensures j in r.consumed {
        if k == s.count {
          PreviousInSlot(j, k, |s.values|);
          if j < k - |s.values| { assert j in s.consumed; }
        }
      }
    }
  }

  /** Then a slot is written in the order its requests were handed out. */
  ghost predicate Ordered(s: Flags)
  {
    forall i, j :: 0 <= i < j < |s.written| && SameSlot(s.written[i], s.written[j], |s.values|) ==> s.written[i] < s.written[j]
  }

  lemma {:induction false} NextOrdered(s: Flags, e: Event)
    requires Inv(s) && Tidy(s) && Ordered(s) && Next(s, e).Some?
    ensures Ordered(Next(s, e).value)
  {
    var r := Next(s, e).value;
    if e.Complete? {
      forall i, j | 0 <= i < j < |r.written| && SameSlot(r.written[i], r.written[j], |r.values|)
        ensures r.written[i] < r.written[j]
      {
        if j == |s.written| {
          WrittenLater(s, e.k, s.written[i]);
        }
      }
    }
  }

  lemma {:induction false} WrittenLater(s: Flags, k: nat, a: nat)
    requires Inv(s) && Tidy(s) && k < s.count && k !in s.written && a in s.written && SameSlot(k, a, |s.values|)
    ensures a < k
  {
    assert k < a ==> k in s.consumed;
  }

  ghost predicate Disciplined(s: Flags)
  {
    Inv(s) && Tidy(s) && Ordered(s)
  }

  /** Reachable by any list of events, the caller doing its duty. */
  ghost function Run(size: nat, es: seq<Event>): (r: Option<Flags>)
    requires size > 0
    ensures r.Some? ==> Disciplined(r.value) && |r.value.values| == size
  {
    if es == [] then StartInv(size); Some(Start(size)) else
      var s := Run(size, es[..|es| - 1]);
      var e := es[|es| - 1];
      if s.None? || !Allowed(s.value, e) || Next(s.value, e).None? then None
      else NextKeeps(s.value, e); NextTidy(s.value, e); NextOrdered(s.value, e); Next(s.value, e)
  }

  /** With the duty done a wait is never missed: once a request completed, its wait passes until it is consumed,
      in whatever order other requests complete; and it does not pass before. */
  lemma {:induction false} WaitsAreExact(size: nat, es: seq<Event>, k: nat)
    requires size > 0 && Run(size, es).Some? && k < Run(size, es).value.count
    ensures var s := Run(size, es).value;
            k !in s.consumed ==> (Passes(s, k) <==> k in s.written)
  {
    hide *;
    if k !in Run(size, es).value.consumed { Exact(Run(size, es).value, k); }
  }

  lemma {:induction false} Exact(s: Flags, k: nat)
    requires Disciplined(s) && k < s.count && k !in s.consumed
    ensures Passes(s, k) <==> k in s.written
  {
    if k in s.written {
      var i :| 0 <= i < |s.written| && s.written[i] == k;
      forall j | i < j < |s.written| ensures !SameSlot(s.written[j], k, |s.values|) {
        NotOverwritten(s, i, j);
      }
      assert LastInSlot(s, k);
    }
    if Passes(s, k) { NeverEarly(s, k); }
  }

  lemma {:induction false} NotOverwritten(s: Flags, i: nat, j: nat)
    requires Disciplined(s) && i < j < |s.written| && s.written[i] !in s.consumed
    ensures !SameSlot(s.written[j], s.written[i], |s.values|)
  {
    var a, b := s.written[i], s.written[j];
    assert b in s.written;
    assert SameSlot(a, b, |s.values|) ==> a in s.consumed;
  }

  // ------------------------------------------------------ without the duty

  /** A request whose completion was overwritten. */
  ghost predicate Lost(s: Flags, j: nat)
  {
    && j !in s.consumed
    && exists i, x :: 0 <= i < x < |s.written| && s.written[i] == j && SameSlot(s.written[x], j, |s.values|)
  }

  lemma {:induction false} LostFails(s: Flags, j: nat)
    requires Inv(s) && Lost(s, j)
    ensures !Passes(s, j)
  {
    var i, x :| 0 <= i < x < |s.written| && s.written[i] == j && SameSlot(s.written[x], j, |s.values|);
    forall y | 0 <= y < |s.written| && s.written[y] == j ensures y < x {
      var a, b := s.written[y], s.written[i];
      assert y != i ==> a != b;
    }
    assert !LastInSlot(s, j);
  }

  /** A lost request stays lost: its wait never passes again, whatever happens. */
  lemma {:induction false} LostForever(s: Flags, j: nat, e: Event)
    requires Inv(s) && Lost(s, j) && Next(s, e).Some?
    ensures Inv(Next(s, e).value) && Lost(Next(s, e).value, j) && !Passes(Next(s, e).value, j)
  {
    var r := Next(s, e).value;
    LostFails(s, j);
    NextKeeps(s, e);
    var i, x :| 0 <= i < x < |s.written| && s.written[i] == j && SameSlot(s.written[x], j, |s.values|);
    assert r.written[i] == j && r.written[x] == s.written[x];
    LostFails(r, j);
  }

  /** The duty is needed: whenever it is about to be neglected, there is a continuation that loses a request. */
  lemma {:induction false} NeglectLoses(s: Flags, j: nat) returns (r: Flags)
    requires Disciplined(s) && s.count >= |s.values| && j == s.count - |s.values| && j !in s.consumed
    ensures exists mid :: After(s, Acquire) == Some(mid)
              && (var done := if j in s.written then Some(mid) else After(mid, Complete(j));
                  done.Some? && After(done.value, Complete(s.count)) == Some(r))
    ensures Inv(r) && Lost(r, j)
  {
    var k := s.count;
    NextTurn(j, |s.values|);
    assert SameSlot(k, j, |s.values|);
    hide SlotOf, GenOf, SameSlot, Tidy, Ordered;
    var mid := Next(s, Acquire).value;
    NextKeeps(s, Acquire);
    assert After(s, Acquire) == Some(mid);
    var done := mid;
    if j !in s.written {
      NextKeeps(mid, Complete(j));
      done := Next(mid, Complete(j)).value;
      assert done.written[|s.written|] == j;
    }
    NextKeeps(done, Complete(k));
    r := Next(done, Complete(k)).value;
    var i :| 0 <= i < |done.written| && done.written[i] == j;
    assert r.written[i] == j && r.written[|done.written|] == k;
  }

  lemma {:induction false} NextTurn(j: nat, size: nat)
    requires size > 0
    ensures SlotOf(j + size, size) == SlotOf(j, size) && GenOf(j + size, size) == GenOf(j, size) + 1
  {
    assert j == size * (j / size) + j % size;
    assert j + size == size * (j / size + 1) + j % size;
    DivUnique(j + size, size, j / size + 1, j % size);
  }

  function After(s: Flags, e: Event): Option<Flags>
  {
    if |s.values| > 0 then Next(s, e) else None
  }
}
