/** Where the bytes of a control message are: words in memory order, and the tables of the codec against the structs the
    header is copied from. */
module CodecLayout {
  import opened Prelude
  import opened Blocks
  import opened Codec

  // ------------------------------------------------------------------- bytes

  /** Byte i of an encoded word, lowest first. */
  lemma {:induction false} LittleEndian(w: nat, n: nat, i: nat)
    requires i < n
    ensures EncodeWord(w, n)[i] as nat == (w / Pow256(i)) % 256
    decreases n
  {
    if i == 0 {
      assert Pow256(0) == 1;
    } else {
      LittleEndian(w / 256, n - 1, i - 1);
      DivTwice(w, Pow256(i - 1));
      assert EncodeWord(w, n)[i] == EncodeWord(w / 256, n - 1)[i - 1];
    }
  }

  lemma {:induction false} DivTwice(w: nat, p: nat)
    requires p > 0
    ensures (w / 256) / p == w / (256 * p)
  {
    var q, r := (w / 256) / p, (w / 256) % p;
    var t := p * q;
    assert w / 256 == t + r && w == 256 * t + (256 * r + w % 256);
    assert 256 * p * q == 256 * t;
    DivUnique(w, 256 * p, q, 256 * r + w % 256);
  }

  /** The bytes of a message: the words of its header one after the other, lowest byte first, then each part behind the
      parts before it. */
  lemma {:induction false} BytesOnTheWire(m: Message, i: nat, j: nat)
    ensures |Wire(m)| == 8 * |m.words| + Total(Lengths(m.parts))
    ensures i < |m.words| && j < 8 ==>
              8 * i + j < |Wire(m)| && Wire(m)[8 * i + j] as nat == (m.words[i] / Pow256(j)) % 256
    ensures i < |m.parts| ==>
              var at := 8 * |m.words| + Off(Lengths(m.parts), i);
              at + |m.parts[i]| <= |Wire(m)| && Wire(m)[at..at + |m.parts[i]|] == m.parts[i]
  {
    WireLength(m);
    HeaderLength(m.words);
    if i < |m.words| && j < 8 {
      HeaderWord(m.words, i);
      LittleEndian(m.words[i], 8, j);
      assert EncodeWords(m.words)[8 * i..8 * i + 8][j] == EncodeWords(m.words)[8 * i + j];
    }
    if i < |m.parts| {
      FlattenBlock(m.parts, i);
      BlockFits(Lengths(m.parts), i);
      PartAt(EncodeWords(m.words), Flatten(m.parts), [], Off(Lengths(m.parts), i), |m.parts[i]|);
      assert Wire(m) + [] == Wire(m);
    }
    hide EncodeWords, Flatten;
  }

  // ------------------------------------------------------------------ structs

  /** The members of the structs inside the header, eight bytes each: a number, two half-size numbers, the address of a
      part, and the length of the part whose address comes before it. Addresses that may be left out are optional. */
  datatype Member = Number | Halves | Address(always: bool) | Length

  function CommandStruct(t: nat): seq<Member>
  {
    if t == 0 then [Number, Address(true), Length, Address(false), Length, Address(false), Length]
    else if t == 1 then [Number]
    else if t == 2 then
      [Number,
       Number, Number, Address(true), Length, Number, Number, Address(true), Length,
       Number, Number, Address(true), Length, Number, Number, Address(true), Length,
       Halves, Number,
       Address(false), Length, Address(false), Length, Address(false), Length,
       Address(false), Length, Address(false), Length, Address(false), Length,
       Number, Halves]
    else if t == 3 then [Number, Address(true), Length, Address(false), Length]
    else if t == 4 then
      [Number, Number, Address(false), Length, Address(false), Length, Address(false), Length, Address(false), Length]
    else []
  }

  function NotifyStruct(t: nat): seq<Member>
  {
    if t == 0 then [Number, Address(true), Length, Address(false), Length, Address(false), Length]
    else if t == 1 || t == 2 then [Number]
    else []
  }

  /** Every part of the table is an address of the struct, with its length, and every address is a part. Word 0 is the
      type, so member w is word w + 1. */
  ghost predicate Describes(fs: seq<Field>, ms: seq<Member>)
  {
    && (forall i :: 0 <= i < |fs| ==>
          && 0 < fs[i].ptr <= |ms| && 0 < fs[i].len <= |ms|
          && ms[fs[i].ptr - 1] == Address(fs[i].always) && ms[fs[i].len - 1] == Length && fs[i].len == fs[i].ptr + 1)
    && forall w :: 0 <= w < |ms| && ms[w].Address? ==> ListedAt(fs, w + 1)
  }

  ghost predicate ListedAt(fs: seq<Field>, w: nat)
  {
    exists i :: 0 <= i < |fs| && fs[i].ptr == w
  }

  lemma {:induction false} IsListed(fs: seq<Field>, i: nat)
    requires i < |fs|
    ensures ListedAt(fs, fs[i].ptr)
  {
  }

  /** Which members of a collective request are addresses. */
  lemma {:induction false} EarlyAddress(w: nat)
    requires w < 17
    ensures |CommandStruct(2)| == 33
    ensures CommandStruct(2)[w].Address? ==> w % 4 == 3
  {
  }

  lemma {:induction false} LateAddress(w: nat)
    requires 17 <= w < 33
    ensures |CommandStruct(2)| == 33
    ensures CommandStruct(2)[w].Address? ==> w % 2 == 1 && 19 <= w < 31
  {
  }

  lemma {:induction false} CollectiveAddresses(w: nat)
    requires w < |CommandStruct(2)| && CommandStruct(2)[w].Address?
    ensures ListedAt(CommandFields(2), w + 1)
  {
    EarlyAddress(0);
    hide CommandFields, CommandStruct, ListedAt;
    if w < 17 { EarlyAddress(w); } else { LateAddress(w); }
    var i := if w < 17 then (w - 3) / 4 else (w - 11) / 2;
    CollectiveField(i);
    IsListed(CommandFields(2), i);
  }

  lemma {:induction false} EarlyPart(i: nat)
    requires i < 4
    ensures |CommandStruct(2)| == 33 && CommandStruct(2)[3 + 4 * i] == Address(true) && CommandStruct(2)[4 + 4 * i] == Length
  {
  }

  lemma {:induction false} LatePart(i: nat)
    requires 4 <= i < 10
    ensures |CommandStruct(2)| == 33 && CommandStruct(2)[11 + 2 * i] == Address(false) && CommandStruct(2)[12 + 2 * i] == Length
  {
  }

  lemma {:induction false} CollectiveParts(i: nat)
    requires i < 10
    ensures |CommandFields(2)| == 10
    ensures var f, ms := CommandFields(2)[i], CommandStruct(2);
            && 0 < f.ptr <= |ms| && 0 < f.len <= |ms|
            && ms[f.ptr - 1] == Address(f.always) && ms[f.len - 1] == Length && f.len == f.ptr + 1
  {
    CollectiveField(i);
    hide CommandFields, CommandStruct;
    if i < 4 { EarlyPart(i); } else { LatePart(i); }
  }

  lemma {:induction false} OtherAddresses(t: nat, w: nat)
    requires t != 2
    ensures w < |CommandStruct(t)| && CommandStruct(t)[w].Address? ==> ListedAt(CommandFields(t), w + 1)
    ensures w < |NotifyStruct(t)| && NotifyStruct(t)[w].Address? ==> ListedAt(NotifyFields(t), w + 1)
  {
    var fs, gs := CommandFields(t), NotifyFields(t);
    if 0 < |fs| { IsListed(fs, 0); }
    if 1 < |fs| { IsListed(fs, 1); }
    if 2 < |fs| { IsListed(fs, 2); }
    if 3 < |fs| { IsListed(fs, 3); }
    if 0 < |gs| { IsListed(gs, 0); }
    if 1 < |gs| { IsListed(gs, 1); }
    if 2 < |gs| { IsListed(gs, 2); }
    hide ListedAt;
  }

  /** The tables by which messages are packed and unpacked name exactly the addresses and lengths of the structs, for every
      message type, and the header is one word longer than the longest struct. */
  lemma {:induction false} TablesDescribeStructs(t: nat)
    ensures Describes(CommandFields(t), CommandStruct(t)) && |CommandStruct(t)| < COMMAND.words
    ensures Describes(NotifyFields(t), NotifyStruct(t)) && |NotifyStruct(t)| < NOTIFY.words
    ensures |CommandStruct(2)| + 1 == COMMAND.words && |NotifyStruct(0)| + 1 == NOTIFY.words
  {
    if t == 2 {
      CollectiveDescribed();
    } else {
      forall w | 0 <= w < |CommandStruct(t)| && CommandStruct(t)[w].Address? ensures ListedAt(CommandFields(t), w + 1) {
        OtherAddresses(t, w);
      }
      forall w | 0 <= w < |NotifyStruct(t)| && NotifyStruct(t)[w].Address? ensures ListedAt(NotifyFields(t), w + 1) {
        OtherAddresses(t, w);
      }
    }
    hide ListedAt;
  }

  lemma {:induction false} CollectiveDescribed()
    ensures Describes(CommandFields(2), CommandStruct(2)) && Describes(NotifyFields(2), NotifyStruct(2))
  {
    var fs, ms := CommandFields(2), CommandStruct(2);
    assert Describes(NotifyFields(2), NotifyStruct(2));
    CollectiveParts(0);
    hide CommandFields, CommandStruct, ListedAt;
    forall i | 0 <= i < |fs|
      ensures && 0 < fs[i].ptr <= |ms| && 0 < fs[i].len <= |ms|
              && ms[fs[i].ptr - 1] == Address(fs[i].always) && ms[fs[i].len - 1] == Length && fs[i].len == fs[i].ptr + 1
    {
      CollectiveParts(i);
    }
    forall w | 0 <= w < |ms| && ms[w].Address? ensures ListedAt(fs, w + 1) { CollectiveAddresses(w); }
  }
}
