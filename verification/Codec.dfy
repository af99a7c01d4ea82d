/** Control messages on the wire: a fixed header copied as it is, then the variable-length parts it points to,
    one after the other. Unpacking happens inside the received buffer: it only redirects the header's pointers.

    A header is a list of 64-bit words; which words are pointers and lengths depends on the message type. */
module Codec {
  import opened Prelude
  import opened Blocks

  newtype Byte = b: int | 0 <= b < 256

  const WORD_LIMIT: nat := 0x1_0000_0000_0000_0000

  // ---------------------------------------------------------------- layouts

  /** A variable-length part: the header words holding its address and its length, and whether the receiver
      redirects the address even when the part is empty. */
  datatype Field = Field(ptr: nat, len: nat, always: bool)

  /** The number of header words, and the parts of each message type in the order they are packed. */
  datatype Layout = Layout(words: nat, fields: nat -> seq<Field>)
  {
    function HeaderSize(): nat { 8 * words }

    /** Word 0 is the type; no two parts share a word. */
    ghost predicate Ok()
    {
      && words > 0
      && forall t: nat :: FieldsOk(fields(t))
    }

    /** A length follows its address, and the parts stand in the header in the order they are packed. */
    ghost predicate FieldsOk(fs: seq<Field>)
    {
      && (forall i :: 0 <= i < |fs| ==> 0 < fs[i].ptr && fs[i].len == fs[i].ptr + 1 < words)
      && (forall i, j :: 0 <= i < j < |fs| ==> fs[i].ptr + 1 < fs[j].ptr)
    }
  }

  /** control_cmd: connect host and DPU, create ring, collective, connect DPUs, flag pool. */
  function CommandFields(t: nat): seq<Field>
  {
    if t == 0 then [Field(2, 3, true), Field(4, 5, false), Field(6, 7, false)]
    else if t == 2 then
      [Field(4, 5, true), Field(8, 9, true), Field(12, 13, true), Field(16, 17, true),
       Field(20, 21, false), Field(22, 23, false), Field(24, 25, false), Field(26, 27, false),
       Field(28, 29, false), Field(30, 31, false)]
    else if t == 3 then [Field(2, 3, true), Field(4, 5, false)]
    else if t == 4 then [Field(3, 4, false), Field(5, 6, false), Field(7, 8, false), Field(9, 10, false)]
    else []
  }

  /** control_notify: only the reply to a connection carries anything. */
  function NotifyFields(t: nat): seq<Field>
  {
    if t == 0 then [Field(2, 3, true), Field(4, 5, false), Field(6, 7, false)] else []
  }

  const COMMAND := Layout(34, CommandFields)
  const NOTIFY := Layout(8, NotifyFields)

  /** The header words of the parts of a collective request. */
  lemma {:induction false} CollectiveField(i: nat)
    requires i < 10
    ensures |CommandFields(2)| == 10
    ensures CommandFields(2)[i] == var p := if i < 4 then 4 + 4 * i else 12 + 2 * i; Field(p, p + 1, i < 4)
  {
  }

  lemma {:induction false} LayoutsOk()
    ensures COMMAND.Ok() && NOTIFY.Ok()
  {
    forall t: nat ensures COMMAND.FieldsOk(CommandFields(t)) && NOTIFY.FieldsOk(NotifyFields(t)) {
      if t == 2 { CollectiveOk(); } else { OthersOk(t); }
    }
  }

  lemma {:induction false} OthersOk(t: nat)
    requires t != 2
    ensures COMMAND.FieldsOk(CommandFields(t)) && NOTIFY.FieldsOk(NotifyFields(t))
  {
  }

  lemma {:induction false} CollectiveOk()
    ensures COMMAND.FieldsOk(CommandFields(2)) && NOTIFY.FieldsOk(NotifyFields(2))
  {
    CollectiveField(0);
    var fs := CommandFields(2);
    forall i | 0 <= i < |fs| ensures 0 < fs[i].ptr && fs[i].len == fs[i].ptr + 1 < COMMAND.words { CollectiveField(i); }
    forall i, j | 0 <= i < j < |fs| ensures fs[i].ptr + 1 < fs[j].ptr { CollectiveField(i); CollectiveField(j); }
    hide CommandFields;
  }

  // ------------------------------------------------------------------ words

  function EncodeWord(w: nat, n: nat): (b: seq<Byte>)
    ensures |b| == n
  {
    if n == 0 then [] else [(w % 256) as Byte] + EncodeWord(w / 256, n - 1)
  }

  function DecodeWord(b: seq<Byte>): nat
  {
    if b == [] then 0 else b[0] as nat + 256 * DecodeWord(b[1..])
  }

  function Pow256(n: nat): (p: nat)
    ensures p > 0
  {
    if n == 0 then 1 else 256 * Pow256(n - 1)
  }

  lemma {:induction false} WordRoundTrip(w: nat, n: nat)
    requires w < Pow256(n)
    ensures DecodeWord(EncodeWord(w, n)) == w
    decreases n
  {
    if n > 0 {
      assert EncodeWord(w, n)[1..] == EncodeWord(w / 256, n - 1);
      WordRoundTrip(w / 256, n - 1);
    }
  }

  lemma {:induction false} BytesRoundTrip(b: seq<Byte>)
    ensures DecodeWord(b) < Pow256(|b|)
    ensures EncodeWord(DecodeWord(b), |b|) == b
    decreases |b|
  {
    if b != [] {
      BytesRoundTrip(b[1..]);
      var w := DecodeWord(b);
      assert w % 256 == b[0] as nat && w / 256 == DecodeWord(b[1..]);
    }
  }

  lemma {:induction false} WordLimit()
    ensures Pow256(8) == WORD_LIMIT
  {
    assert Pow256(4) == 0x1_0000_0000;
    assert Pow256(8) == 256 * (256 * (256 * (256 * Pow256(4))));
  }

  function Encoded(ws: seq<nat>): seq<seq<Byte>>
  {
    seq(|ws|, i requires 0 <= i < |ws| => EncodeWord(ws[i], 8))
  }

  /** The header as bytes. */
  function EncodeWords(ws: seq<nat>): seq<Byte>
  {
    Flatten(Encoded(ws))
  }

  lemma {:induction false} HeaderWord(ws: seq<nat>, i: nat)
    requires i < |ws|
    ensures |EncodeWords(ws)| == 8 * |ws|
    ensures EncodeWords(ws)[8 * i..8 * i + 8] == EncodeWord(ws[i], 8)
  {
    FlattenRow(Encoded(ws), 8, i);
  }

  lemma {:induction false} HeaderLength(ws: seq<nat>)
    ensures |EncodeWords(ws)| == 8 * |ws|
  {
    if ws != [] { HeaderWord(ws, 0); }
  }

  /** Two headers of one length with the same bytes in every word are the same bytes. */
  lemma {:induction false} SameWords(a: seq<Byte>, ws: seq<nat>)
    requires |a| == 8 * |ws|
    requires forall i :: 0 <= i < |ws| ==> a[8 * i..8 * i + 8] == EncodeWord(ws[i], 8)
    ensures a == EncodeWords(ws)
  {
    var b := EncodeWords(ws);
    HeaderLength(ws);
    forall k | 0 <= k < |a| ensures a[k] == b[k] {
      var i, j := k / 8, k % 8;
      HeaderWord(ws, i);
      assert a[8 * i..8 * i + 8][j] == a[k] && b[8 * i..8 * i + 8][j] == b[k];
    }
  }

  /** The words of a header received as bytes. */
  function DecodeWords(b: seq<Byte>, n: nat): (ws: seq<nat>)
    requires |b| >= 8 * n
    ensures |ws| == n
  {
    seq(n, i requires 0 <= i < n => DecodeWord(b[8 * i..8 * i + 8]))
  }

  lemma {:induction false} DecodeEncode(b: seq<Byte>, n: nat)
    requires |b| >= 8 * n
    ensures EncodeWords(DecodeWords(b, n)) == b[..8 * n]
    ensures forall i :: 0 <= i < n ==> DecodeWords(b, n)[i] < WORD_LIMIT
  {
    var ws := DecodeWords(b, n);
    WordLimit();
    forall i | 0 <= i < n ensures b[..8 * n][8 * i..8 * i + 8] == EncodeWord(ws[i], 8) && ws[i] < WORD_LIMIT {
      BytesRoundTrip(b[8 * i..8 * i + 8]);
      assert b[..8 * n][8 * i..8 * i + 8] == b[8 * i..8 * i + 8];
    }
    SameWords(b[..8 * n], ws);
  }

  lemma {:induction false} EncodeDecode(ws: seq<nat>, rest: seq<Byte>)
    requires forall i :: 0 <= i < |ws| ==> ws[i] < WORD_LIMIT
    ensures |EncodeWords(ws) + rest| >= 8 * |ws|
    ensures DecodeWords(EncodeWords(ws) + rest, |ws|) == ws
  {
    HeaderLength(ws);
    WordLimit();
    var b := EncodeWords(ws) + rest;
    forall i | 0 <= i < |ws| ensures DecodeWords(b, |ws|)[i] == ws[i] {
      HeaderWord(ws, i);
      assert b[8 * i..8 * i + 8] == EncodeWords(ws)[8 * i..8 * i + 8];
      WordRoundTrip(ws[i], 8);
    }
  }

  // ---------------------------------------------------------------- messages

  function LengthsOf(ws: seq<nat>, fs: seq<Field>): (ls: seq<nat>)
    requires forall i :: 0 <= i < |fs| ==> fs[i].len < |ws|
    ensures |ls| == |fs|
  {
    seq(|fs|, i requires 0 <= i < |fs| => ws[fs[i].len])
  }

  /** A header and, for each part of its type, the bytes its pointer refers to. */
  datatype Message = Message(words: seq<nat>, parts: seq<seq<Byte>>)

  ghost predicate MessageOk(layout: Layout, m: Message)
  {
    && layout.Ok() && |m.words| == layout.words
    && (forall i :: 0 <= i < |m.words| ==> m.words[i] < WORD_LIMIT)
    && layout.FieldsOk(layout.fields(m.words[0]))
    && Lengths(m.parts) == LengthsOf(m.words, layout.fields(m.words[0]))
  }

  /** The bytes on the wire. */
  function Wire(m: Message): seq<Byte>
  {
    EncodeWords(m.words) + Flatten(m.parts)
  }

  lemma {:induction false} WireLength(m: Message)
    ensures |Wire(m)| == 8 * |m.words| + Total(Lengths(m.parts))
  {
    HeaderLength(m.words);
    FlattenTotal(m.parts);
  }

  /** What the length functions compute: a sum that wraps at 64 bits. */
  function Wrapped(n: nat): nat { n % WORD_LIMIT }

  /** control_cmd_packed_len and control_notify_packed_len. */
  method PackedLength(layout: Layout, words: seq<nat>) returns (n: nat)
    requires layout.Ok() && |words| == layout.words && layout.FieldsOk(layout.fields(words[0]))
    ensures n == Wrapped(layout.HeaderSize() + Total(LengthsOf(words, layout.fields(words[0]))))
  {
    var fs := layout.fields(words[0]);
    ghost var sizes := LengthsOf(words, fs);
    n := Wrapped(layout.HeaderSize());
    for i := 0 to |fs|
      invariant n == Wrapped(layout.HeaderSize() + Off(sizes, i))
    {
      WrapAdd(layout.HeaderSize() + Off(sizes, i), sizes[i]);
      n := Wrapped(n + words[fs[i].len]);
    }
  }

  lemma {:induction false} WrapAdd(a: nat, b: nat)
    ensures Wrapped(Wrapped(a) + b) == Wrapped(a + b)
  {
    var q := a / WORD_LIMIT;
    assert a + b == (Wrapped(a) + b) + WORD_LIMIT * q;
  }

  datatype CodecError = BufferTooSmall | InvalidLength

  /** control_cmd_pack and control_notify_pack: if the message fits, exactly its wire form is written and its
      length reported; otherwise nothing is written. The parts are in memory, so their lengths cannot wrap. */
  method Pack(layout: Layout, m: Message, buffer: array<Byte>, capacity: nat) returns (r: Result<nat, CodecError>)
    requires MessageOk(layout, m) && |Wire(m)| < WORD_LIMIT && capacity <= buffer.Length
    modifies buffer
    ensures |Wire(m)| > capacity ==> r == Err(BufferTooSmall) && buffer[..] == old(buffer[..])
    ensures |Wire(m)| <= capacity ==>
              r == Ok(|Wire(m)|) && buffer[..] == Wire(m) + old(buffer[|Wire(m)|..])
  {
    hide *;
    PackFacts(layout, m);
    var need := PackedLength(layout, m.words);
    Unwrapped(|Wire(m)|);
    if need > capacity { return Err(BufferTooSmall); }
    ghost var before := buffer[..];
    CopyInto(buffer, 0, EncodeWords(m.words));
    var tail := |EncodeWords(m.words)|;
    var fs := layout.fields(m.words[0]);
    StartPack(m, before);
    for i := 0 to |fs|
      invariant tail == |EncodeWords(m.words)| + |Flatten(m.parts[..i])| <= |Wire(m)|
      invariant buffer[..] == EncodeWords(m.words) + Flatten(m.parts[..i]) + before[tail..]
    {
      NextPart(m, i, before, buffer[..], tail);
      PartSize(layout, m, i);
      var size := m.words[fs[i].len];
      if fs[i].always || size > 0 {
        CopyInto(buffer, tail, m.parts[i]);
        tail := tail + |m.parts[i]|;
      } else {
        NothingCopied(buffer[..], m.parts[i], tail);
      }
    }
    assert m.parts[..|m.parts|] == m.parts;
    return Ok(tail);
  }

  lemma {:induction false} Unwrapped(n: nat)
    requires n < WORD_LIMIT
    ensures Wrapped(n) == n
  {
  }

  lemma {:induction false} NothingCopied(now: seq<Byte>, part: seq<Byte>, tail: nat)
    requires tail <= |now| && part == []
    ensures now[..tail] + part + now[tail + |part|..] == now
  {
  }

  lemma {:induction false} PackFacts(layout: Layout, m: Message)
    requires MessageOk(layout, m)
    ensures layout.Ok() && |m.words| == layout.words && layout.words > 0
    ensures layout.FieldsOk(layout.fields(m.words[0]))
    ensures |layout.fields(m.words[0])| == |m.parts|
    ensures |Wire(m)| == layout.HeaderSize() + Total(LengthsOf(m.words, layout.fields(m.words[0])))
    ensures |EncodeWords(m.words)| <= |Wire(m)| && Wire(m) == EncodeWords(m.words) + Flatten(m.parts)
  {
    WireLength(m);
    HeaderLength(m.words);
  }

  lemma {:induction false} PartSize(layout: Layout, m: Message, i: nat)
    requires MessageOk(layout, m) && i < |layout.fields(m.words[0])|
    ensures i < |m.parts| && layout.fields(m.words[0])[i].len < |m.words|
    ensures |m.parts[i]| == m.words[layout.fields(m.words[0])[i].len]
  {
    assert Lengths(m.parts)[i] == |m.parts[i]|;
  }

  lemma {:induction false} StartPack(m: Message, before: seq<Byte>)
    requires |EncodeWords(m.words)| <= |before|
    ensures Flatten(m.parts[..0]) == []
    ensures EncodeWords(m.words) + before[|EncodeWords(m.words)|..]
         == EncodeWords(m.words) + Flatten(m.parts[..0]) + before[|EncodeWords(m.words)|..]
    ensures before[..0] + EncodeWords(m.words) == EncodeWords(m.words)
  {
  }

  lemma {:induction false} NextPart(m: Message, i: nat, before: seq<Byte>, now: seq<Byte>, tail: nat)
    requires i < |m.parts| && |Wire(m)| <= |before|
    requires tail == |EncodeWords(m.words)| + |Flatten(m.parts[..i])| <= |Wire(m)|
    requires now == EncodeWords(m.words) + Flatten(m.parts[..i]) + before[tail..]
    ensures |now| == |before|
    ensures tail + |m.parts[i]| == |EncodeWords(m.words)| + |Flatten(m.parts[..i + 1])| <= |Wire(m)|
    ensures now[..tail] + m.parts[i] + now[tail + |m.parts[i]|..]
         == EncodeWords(m.words) + Flatten(m.parts[..i + 1]) + before[tail + |m.parts[i]|..]
  {
    FlattenNext(m.parts, i);
    FlattenPrefix(m.parts, i + 1, |m.parts|);
    assert m.parts[..|m.parts|] == m.parts;
    hide EncodeWords, Flatten;
    Replace(EncodeWords(m.words), Flatten(m.parts[..i]), m.parts[i], before, now, tail);
  }

  lemma {:induction false} Replace(head: seq<Byte>, front: seq<Byte>, part: seq<Byte>, before: seq<Byte>, now: seq<Byte>, tail: nat)
    requires tail == |head| + |front| && tail + |part| <= |before| && now == head + front + before[tail..]
    ensures now[..tail] + part + now[tail + |part|..] == head + (front + part) + before[tail + |part|..]
  {
  }

  // ---------------------------------------------------------------- receiving

  /** The header with each part's address redirected into the buffer, which starts at address base. */
  function Redirected(ws: seq<nat>, fs: seq<Field>, at: nat, n: nat): (r: seq<nat>)
    requires n <= |fs| && forall i :: 0 <= i < |fs| ==> fs[i].len < |ws| && fs[i].ptr < |ws|
    ensures |r| == |ws|
  {
    if n == 0 then ws else
      var r := Redirected(ws, fs, at, n - 1);
      var f := fs[n - 1];
      if f.always || ws[f.len] > 0 then r[f.ptr := Wrapped(at + Off(LengthsOf(ws, fs), n - 1))] else r
  }

  /** Redirecting changes no length and not the type. */
  lemma {:induction false} RedirectedKeeps(layout: Layout, ws: seq<nat>, fs: seq<Field>, at: nat, n: nat, w: nat)
    requires layout.FieldsOk(fs) && |ws| == layout.words && n <= |fs| && w < |ws|
    requires forall i :: 0 <= i < n ==> fs[i].ptr != w
    ensures Redirected(ws, fs, at, n)[w] == ws[w]
    decreases n
  {
    if n > 0 { RedirectedKeeps(layout, ws, fs, at, n - 1, w); }
  }

  lemma {:induction false} RedirectedPointer(layout: Layout, ws: seq<nat>, fs: seq<Field>, at: nat, n: nat, i: nat)
    requires layout.FieldsOk(fs) && |ws| == layout.words && i < n <= |fs|
    ensures Redirected(ws, fs, at, n)[fs[i].ptr]
         == if fs[i].always || ws[fs[i].len] > 0 then Wrapped(at + Off(LengthsOf(ws, fs), i)) else ws[fs[i].ptr]
    decreases n
  {
    LengthNotAddress(layout, fs, i);
    if i < n - 1 {
      RedirectedPointer(layout, ws, fs, at, n - 1, i);
    } else {
      RedirectedKeeps(layout, ws, fs, at, n - 1, fs[i].ptr);
    }
  }

  /** A load of one header word. */
  method ReadWord(buffer: array<Byte>, i: nat, ghost ws: seq<nat>) returns (w: nat)
    requires 8 * |ws| <= buffer.Length && i < |ws| && ws[i] < WORD_LIMIT
    requires buffer[..8 * |ws|] == EncodeWords(ws)
    ensures w == ws[i]
  {
    HeaderWord(ws, i);
    WordLimit();
    WordRoundTrip(ws[i], 8);
    assert buffer[8 * i..8 * i + 8] == buffer[..8 * |ws|][8 * i..8 * i + 8];
    w := DecodeWord(buffer[8 * i..8 * i + 8]);
  }

  /** A store of one header word. */
  method WriteWord(buffer: array<Byte>, i: nat, w: nat, ghost ws: seq<nat>)
    requires 8 * |ws| <= buffer.Length && i < |ws|
    requires buffer[..8 * |ws|] == EncodeWords(ws)
    modifies buffer
    ensures buffer[..8 * |ws|] == EncodeWords(ws[i := w])
    ensures buffer[8 * |ws|..] == old(buffer[8 * |ws|..])
  {
    ghost var before := buffer[..8 * |ws|];
    CopyInto(buffer, 8 * i, EncodeWord(w, 8));
    ghost var now := buffer[..8 * |ws|];
    assert now == before[..8 * i] + EncodeWord(w, 8) + before[8 * i + 8..];
    WordStored(before, now, ws, i, w);
  }

  lemma {:induction false} WordStored(before: seq<Byte>, now: seq<Byte>, ws: seq<nat>, i: nat, w: nat)
    requires i < |ws| && before == EncodeWords(ws) && |before| == 8 * |ws|
    requires now == before[..8 * i] + EncodeWord(w, 8) + before[8 * i + 8..]
    ensures now == EncodeWords(ws[i := w])
  {
    hide *;
    forall k | 0 <= k < |ws| ensures now[8 * k..8 * k + 8] == EncodeWord(ws[i := w][k], 8) {
      HeaderWord(ws, k);
      StoredApart(before, now, EncodeWord(w, 8), i, k, |ws|);
    }
    SameWords(now, ws[i := w]);
  }

  lemma {:induction false} StoredApart(before: seq<Byte>, now: seq<Byte>, word: seq<Byte>, i: nat, k: nat, n: nat)
    requires i < n && k < n && |before| == 8 * n && |word| == 8
    requires now == before[..8 * i] + word + before[8 * i + 8..]
    ensures |now| == |before|
    ensures now[8 * k..8 * k + 8] == if k == i then word else before[8 * k..8 * k + 8]
  {
  }

  /** control_cmd_unpack and control_notify_unpack, for whatever bytes arrived at address base. */
  method Unpack(layout: Layout, buffer: array<Byte>, length: nat, base: nat) returns (r: Option<CodecError>)
    requires layout.Ok() && length <= buffer.Length
    modifies buffer
    ensures length < layout.HeaderSize() ==> r == Some(InvalidLength) && buffer[..] == old(buffer[..])
    ensures length >= layout.HeaderSize() ==>
              var h := layout.HeaderSize();
              var ws := DecodeWords(old(buffer[..]), layout.words);
              var fs := layout.fields(ws[0]);
              && layout.FieldsOk(fs)
              && buffer[..h] == EncodeWords(Redirected(ws, fs, base + h, |fs|))
              && buffer[h..] == old(buffer[h..])
              && r == (if Wrapped(h + Total(LengthsOf(ws, fs))) > length then Some(InvalidLength) else None)
  {
    hide *;
    HeaderSizeIs(layout);
    var h := layout.HeaderSize();
    if length < h { return Some(InvalidLength); }
    ghost var ws := DecodeWords(buffer[..], layout.words);
    HeaderFacts(layout, buffer[..], ws);
    assert buffer[..][..h] == buffer[..h];
    var t := ReadWord(buffer, 0, ws);
    var fs := layout.fields(t);
    StartUnpack(layout, ws, fs, base + h);
    var ptr, extended := Wrapped(base + h), 0;
    for i := 0 to |fs|
      invariant ptr == Wrapped(base + h + Off(LengthsOf(ws, fs), i))
      invariant extended == Wrapped(Off(LengthsOf(ws, fs), i))
      invariant buffer[..h] == EncodeWords(Redirected(ws, fs, base + h, i))
      invariant buffer[h..] == old(buffer[h..])
    {
      ptr, extended := TakePart(layout, buffer, ws, fs, base + h, i, ptr, extended);
    }
    TotalIs(LengthsOf(ws, fs), h);
    if Wrapped(h + extended) > length { return Some(InvalidLength); }
    return None;
  }

  lemma {:induction false} HeaderSizeIs(layout: Layout)
    ensures layout.HeaderSize() == 8 * layout.words
  {
  }

  lemma {:induction false} HeaderFacts(layout: Layout, bytes: seq<Byte>, ws: seq<nat>)
    requires layout.Ok() && layout.HeaderSize() <= |bytes| && ws == DecodeWords(bytes, layout.words)
    ensures |ws| == layout.words > 0 && layout.HeaderSize() == 8 * |ws|
    ensures forall k :: 0 <= k < |ws| ==> ws[k] < WORD_LIMIT
    ensures bytes[..layout.HeaderSize()] == EncodeWords(ws)
    ensures layout.FieldsOk(layout.fields(ws[0]))
  {
    DecodeEncode(bytes, layout.words);
  }

  lemma {:induction false} StartUnpack(layout: Layout, ws: seq<nat>, fs: seq<Field>, at: nat)
    requires layout.FieldsOk(fs) && |ws| == layout.words
    ensures forall i :: 0 <= i < |fs| ==> fs[i].len < |ws| && fs[i].ptr < |ws|
    ensures Redirected(ws, fs, at, 0) == ws && Off(LengthsOf(ws, fs), 0) == 0 && Wrapped(0) == 0
  {
  }

  lemma {:induction false} TotalIs(sizes: seq<nat>, h: nat)
    ensures Total(sizes) == Off(sizes, |sizes|)
    ensures Wrapped(h + Wrapped(Off(sizes, |sizes|))) == Wrapped(h + Total(sizes))
  {
    WrapAdd(Total(sizes), h);
  }

  /** One part: its address is redirected to ptr, which moves on by its length. */
  method TakePart(layout: Layout, buffer: array<Byte>, ghost ws: seq<nat>, fs: seq<Field>, ghost at: nat,
                  i: nat, ptr: nat, extended: nat)
    returns (nextPtr: nat, nextExtended: nat)
    requires layout.FieldsOk(fs) && |ws| == layout.words && i < |fs|
    requires layout.HeaderSize() == 8 * |ws| <= buffer.Length
    requires forall k :: 0 <= k < |ws| ==> ws[k] < WORD_LIMIT
    requires forall k :: 0 <= k < |fs| ==> fs[k].len < |ws| && fs[k].ptr < |ws|
    requires buffer[..8 * |ws|] == EncodeWords(Redirected(ws, fs, at, i))
    requires ptr == Wrapped(at + Off(LengthsOf(ws, fs), i)) && extended == Wrapped(Off(LengthsOf(ws, fs), i))
    modifies buffer
    ensures buffer[..8 * |ws|] == EncodeWords(Redirected(ws, fs, at, i + 1))
    ensures buffer[8 * |ws|..] == old(buffer[8 * |ws|..])
    ensures nextPtr == Wrapped(at + Off(LengthsOf(ws, fs), i + 1))
    ensures nextExtended == Wrapped(Off(LengthsOf(ws, fs), i + 1))
  {
    hide *;
    ghost var now := Redirected(ws, fs, at, i);
    PartFacts(layout, ws, fs, at, i);
    var size := ReadWord(buffer, fs[i].len, now);
    if fs[i].always || size > 0 {
      WriteWord(buffer, fs[i].ptr, ptr, now);
    }
    WrapAdd(at + Off(LengthsOf(ws, fs), i), size);
    WrapAdd(Off(LengthsOf(ws, fs), i), size);
    nextPtr, nextExtended := Wrapped(ptr + size), Wrapped(extended + size);
  }

  lemma {:induction false} PartFacts(layout: Layout, ws: seq<nat>, fs: seq<Field>, at: nat, i: nat)
    requires layout.FieldsOk(fs) && |ws| == layout.words && i < |fs|
    requires forall k :: 0 <= k < |fs| ==> fs[k].len < |ws| && fs[k].ptr < |ws|
    ensures var now, size := Redirected(ws, fs, at, i), ws[fs[i].len];
            && |now| == |ws| && now[fs[i].len] == size
            && Off(LengthsOf(ws, fs), i + 1) == Off(LengthsOf(ws, fs), i) + size
            && Redirected(ws, fs, at, i + 1)
               == if fs[i].always || size > 0 then now[fs[i].ptr := Wrapped(at + Off(LengthsOf(ws, fs), i))] else now
  {
    LengthNotAddress(layout, fs, i);
    RedirectedKeeps(layout, ws, fs, at, i, fs[i].len);
  }

  lemma {:induction false} LengthNotAddress(layout: Layout, fs: seq<Field>, i: nat)
    requires layout.FieldsOk(fs) && i < |fs|
    ensures forall j :: 0 <= j < |fs| ==> fs[j].ptr != fs[i].len
    ensures forall j :: 0 <= j < |fs| && j != i ==> fs[j].ptr != fs[i].ptr
  {
    forall j | 0 <= j < |fs| ensures fs[j].ptr != fs[i].len ensures j != i ==> fs[j].ptr != fs[i].ptr {
      if j < i { assert fs[j].ptr + 1 < fs[i].ptr; } else if i < j { assert fs[i].ptr + 1 < fs[j].ptr; }
    }
  }

  // --------------------------------------------------------------- round trip

  /** Receiving what was packed, in a buffer at least as long, succeeds; every word but the redirected addresses
      is the sender's, and every address leads to the bytes of its part. A shorter length is rejected. */
  lemma {:induction false} RoundTrip(layout: Layout, m: Message, rest: seq<Byte>, base: nat, length: nat)
    requires MessageOk(layout, m) && length <= |Wire(m) + rest| && length >= layout.HeaderSize()
    requires base + |Wire(m)| < WORD_LIMIT
    ensures var bytes, h := Wire(m) + rest, layout.HeaderSize();
            var fs := layout.fields(m.words[0]);
            && h <= |bytes| && DecodeWords(bytes, layout.words) == m.words
            && (Wrapped(h + Total(LengthsOf(m.words, fs))) > length <==> length < |Wire(m)|)
            && OthersArrive(m, fs, Redirected(m.words, fs, base + h, |fs|))
            && PartsArrive(m, fs, Redirected(m.words, fs, base + h, |fs|), bytes, base)
  {
    var bytes, h := Wire(m) + rest, layout.HeaderSize();
    var fs := layout.fields(m.words[0]);
    HeaderArrives(layout, m, rest);
    hide *;
    PackFacts(layout, m);
    Unwrapped(|Wire(m)|);
    var header := Redirected(m.words, fs, base + h, |fs|);
    forall i | 0 <= i < |fs| ensures PartArrives(m, fs, header, bytes, base, i) {
      PartRoundTrip(layout, m, rest, base, i);
    }
    PartsIntro(m, fs, header, bytes, base);
    OthersRoundTrip(layout, m, fs, base + h);
  }

  lemma {:induction false} HeaderArrives(layout: Layout, m: Message, rest: seq<Byte>)
    requires MessageOk(layout, m)
    ensures layout.HeaderSize() <= |Wire(m) + rest| && DecodeWords(Wire(m) + rest, layout.words) == m.words
    ensures forall i :: 0 <= i < |layout.fields(m.words[0])| ==>
              layout.fields(m.words[0])[i].len < |m.words| && layout.fields(m.words[0])[i].ptr < |m.words|
  {
    assert Wire(m) + rest == EncodeWords(m.words) + (Flatten(m.parts) + rest);
    EncodeDecode(m.words, Flatten(m.parts) + rest);
  }

  /** Every header word that is not a part's address is the sender's. */
  ghost predicate OthersArrive(m: Message, fs: seq<Field>, header: seq<nat>)
  {
    && |header| == |m.words|
    && forall w :: 0 <= w < |header| && (forall i :: 0 <= i < |fs| ==> fs[i].ptr != w) ==> header[w] == m.words[w]
  }

  lemma {:induction false} OthersRoundTrip(layout: Layout, m: Message, fs: seq<Field>, at: nat)
    requires layout.FieldsOk(fs) && |m.words| == layout.words
    requires forall i :: 0 <= i < |fs| ==> fs[i].len < |m.words| && fs[i].ptr < |m.words|
    ensures OthersArrive(m, fs, Redirected(m.words, fs, at, |fs|))
  {
    forall w | 0 <= w < |m.words| && (forall i :: 0 <= i < |fs| ==> fs[i].ptr != w)
      ensures Redirected(m.words, fs, at, |fs|)[w] == m.words[w]
    {
      RedirectedKeeps(layout, m.words, fs, at, |fs|, w);
    }
  }

  ghost predicate PartsArrive(m: Message, fs: seq<Field>, header: seq<nat>, bytes: seq<Byte>, base: nat)
  {
    forall i :: 0 <= i < |fs| ==> PartArrives(m, fs, header, bytes, base, i)
  }

  lemma {:induction false} PartsIntro(m: Message, fs: seq<Field>, header: seq<nat>, bytes: seq<Byte>, base: nat)
    requires forall i :: 0 <= i < |fs| ==> PartArrives(m, fs, header, bytes, base, i)
    ensures PartsArrive(m, fs, header, bytes, base)
  {
  }

  /** Part i: when it was sent or is always redirected, its address leads to its bytes; otherwise the address is
      the sender's. */
  ghost predicate PartArrives(m: Message, fs: seq<Field>, header: seq<nat>, bytes: seq<Byte>, base: nat, i: nat)
  {
    && i < |fs| == |m.parts| && fs[i].ptr < |header| == |m.words| && fs[i].len < |m.words|
    && if fs[i].always || m.words[fs[i].len] > 0 then
         var at := header[fs[i].ptr] - base;
         0 <= at <= at + |m.parts[i]| <= |bytes| && bytes[at..at + |m.parts[i]|] == m.parts[i]
       else m.parts[i] == [] && header[fs[i].ptr] == m.words[fs[i].ptr]
  }

  lemma {:induction false} PartRoundTrip(layout: Layout, m: Message, rest: seq<Byte>, base: nat, i: nat)
    requires MessageOk(layout, m) && base + |Wire(m)| < WORD_LIMIT
    requires i < |layout.fields(m.words[0])|
    ensures var fs := layout.fields(m.words[0]);
            PartArrives(m, fs, Redirected(m.words, fs, base + layout.HeaderSize(), |fs|), Wire(m) + rest, base, i)
  {
    hide *;
    PackFacts(layout, m);
    HeaderArrives(layout, m, rest);
    var fs := layout.fields(m.words[0]);
    var at := Off(LengthsOf(m.words, fs), i);
    RedirectedPointer(layout, m.words, fs, base + layout.HeaderSize(), |fs|, i);
    PartSize(layout, m, i);
    PartIn(layout, m, rest, i);
    Unwrapped(base + layout.HeaderSize() + at);
    PartIntro(m, fs, Redirected(m.words, fs, base + layout.HeaderSize(), |fs|), Wire(m) + rest, base, i,
              layout.HeaderSize() + at);
  }

  /** Where a part stands among the bytes. */
  lemma {:induction false} PartIn(layout: Layout, m: Message, rest: seq<Byte>, i: nat)
    requires MessageOk(layout, m) && i < |layout.fields(m.words[0])|
    ensures i < |m.parts|
    ensures var fs := layout.fields(m.words[0]);
            (forall k :: 0 <= k < |fs| ==> fs[k].len < |m.words|)
            && var at := layout.HeaderSize() + Off(LengthsOf(m.words, fs), i);
            at + |m.parts[i]| <= |Wire(m)| && (Wire(m) + rest)[at..at + |m.parts[i]|] == m.parts[i]
  {
    WireLength(m);
    HeaderLength(m.words);
    assert |m.parts| == |Lengths(m.parts)|;
    FlattenBlock(m.parts, i);
    BlockFits(Lengths(m.parts), i);
    PartAt(EncodeWords(m.words), Flatten(m.parts), rest, Off(Lengths(m.parts), i), |m.parts[i]|);
  }

  lemma {:induction false} PartIntro(m: Message, fs: seq<Field>, header: seq<nat>, bytes: seq<Byte>, base: nat, i: nat, at: nat)
    requires i < |fs| == |m.parts| && fs[i].ptr < |header| == |m.words| && fs[i].len < |m.words|
    requires at + |m.parts[i]| <= |bytes| && bytes[at..at + |m.parts[i]|] == m.parts[i]
    requires |m.parts[i]| == m.words[fs[i].len]
    requires header[fs[i].ptr] == if fs[i].always || m.words[fs[i].len] > 0 then base + at else m.words[fs[i].ptr]
    ensures PartArrives(m, fs, header, bytes, base, i)
  {
  }

  lemma {:induction false} PartAt(head: seq<Byte>, flat: seq<Byte>, rest: seq<Byte>, at: nat, size: nat)
    requires at + size <= |flat|
    ensures (head + flat + rest)[|head| + at..|head| + at + size] == flat[at..at + size]
  {
  }

  /** Without the bound the length check is fooled: two parts whose lengths add up to 2^64 count as nothing. */
  lemma {:induction false} WrappedLengthFools()
    ensures var ws := seq(34, i => if i == 0 then 3 else if i == 3 || i == 5 then WORD_LIMIT / 2 else 0);
            && Wrapped(COMMAND.HeaderSize() + Total(LengthsOf(ws, CommandFields(3)))) == COMMAND.HeaderSize()
  {
    var ws := seq(34, i => if i == 0 then 3 else if i == 3 || i == 5 then WORD_LIMIT / 2 else 0);
    var sizes := LengthsOf(ws, CommandFields(3));
    assert sizes == [WORD_LIMIT / 2, WORD_LIMIT / 2];
    assert Off(sizes, 2) == Off(sizes, 1) + sizes[1] && Off(sizes, 1) == Off(sizes, 0) + sizes[0];
  }
}
