/** Two backward passes that leave wrong gradients, one for each condition of the deferred pipeline. */
module GradientExamples {
  import opened Prelude
  import opened Blocks
  import opened ReduceScatter
  import opened SubGroups
  import opened GradientSpec
  import opened GradientRuns
  import opened GradientTheorems

  /** Three parameters of two elements on two ranks, their shards at offsets 0, 1 and 2; this is rank 0, and the
      other rank contributes nothing. */
  function Three(bucketSize: nat): Config
  {
    Config({0, 1, 2}, _ => 2, _ => 1, p => if p == 1 then 1 else if p == 2 then 2 else 0,
           3, 2, 0, (_, _) => 0.0, bucketSize, true)
  }

  lemma {:induction false} ThreeOk(n: nat)
    ensures Three(n).Ok() && Three(n).Ascends()
    ensures forall p: int :: Three(n).Len(p) == 1
  {
    var offset := Three(n).offset;
    assert offset(0) == 0 && offset(1) == 1 && offset(2) == 2;
  }

  /** A pass that begins with this in the flat fp16 gradient buffer. */
  function Begin(n: nat, left: real): Pipe
  {
    Pipe([], map[], seq(n, _ => 0.0), None, [left, left, left], [0.0, 0.0, 0.0], 0)
  }

  lemma {:induction false} Begins(n: nat, left: real)
    ensures Started(Three(n), Begin(n, left))
  {
    ThreeOk(n);
    hide Config.Ok, Config.Ascends;
  }

  // ------------------------------------------------------------- small facts

  lemma {:induction false} OneSorted(p: int)
    ensures SetOf([p]) == {p} && Sorted({p}) == [p]
  {
    assert {p} - {p} == {};
    assert Least({p}) in {p};
  }

  lemma {:induction false} TwoSorted()
    ensures SetOf([0, 2]) == {0, 2} && Sorted({0, 2}) == [0, 2]
  {
    var s := {0, 2};
    assert Least(s) == 0 by { assert 0 in s; }
    assert s - {0} == {2};
    OneSorted(2);
    assert Sorted(s) == [0] + [2];
  }

  lemma {:induction false} Counts(p: int, q: int, size: int -> nat)
    ensures GroupSize([], size) == 0 && GroupSize([p], size) == size(p) && GroupSize([p, q], size) == size(p) + size(q)
    ensures Off(Sizes([p], size), 0) == 0
    ensures Off(Sizes([p, q], size), 0) == 0 && Off(Sizes([p, q], size), 1) == size(p)
  {
    GroupSizeOne([], p, size);
    GroupSizeOne([p], q, size);
    assert [] + [p] == [p] && [p] + [q] == [p, q];
  }

  lemma {:induction false} Halves(x: real)
    ensures Divided([x, x], 2) == [x / 2.0, x / 2.0]
  {
    assert 2 as real == 2.0;
  }

  lemma {:induction false} Receives(n: nat, p: int, x: real, y: real)
    ensures ReceivedSlice(Three(n), p, [x, y]) == [x]
  {
    ThreeOk(n);
    assert Slice([x, y], 1, 0) == [x];
    hide Config.Ok, Config.Ascends;
  }

  // ---------------------------------------------------- overwriting an unread view

  const SMALL: nat := 3

  /** After the hook of parameter 0: its gradient lies at the front of the bucket buffer. */
  function Held(): Pipe
  {
    Pipe([0], map[0 := InBucket(0)], [2.0, 2.0, 0.0], None, [0.0, 0.0, 0.0], [0.0, 0.0, 0.0], 0)
  }

  lemma {:induction false} FirstHook(junk: Padding)
    ensures Started(Three(SMALL), Begin(SMALL, 0.0))
    ensures Pass(Three(SMALL), true, Begin(SMALL, 0.0), [Hook(0, [2.0, 2.0], junk)])
         == Some(Progress(Book(map[0 := [2.0, 2.0]], {}, [0.0, 0.0, 0.0], [0.0, 0.0, 0.0]), Held()))
  {
    var cfg, s, e := Three(SMALL), Begin(SMALL, 0.0), Hook(0, [2.0, 2.0], junk);
    Begins(SMALL, 0.0);
    PassOne(cfg, s, e);
    StartInv(cfg, s);
    Counts(0, 0, cfg.numel);
    assert Add(cfg, s, 0, [2.0, 2.0]) == Held() by { assert s.buffer == [0.0, 0.0, 0.0]; }
    hide Inv, Started, Pass;
  }

  /** The first event of a pass. */
  lemma {:induction false} PassOne(cfg: Config, s: Pipe, e: Event)
    requires Started(cfg, s)
    ensures var b := Book(map[], {}, s.grad, s.fp32);
            && Consistent(cfg, true, b, s)
            && Pass(cfg, true, s, [e]) == if Guard(cfg, true, b, s, e) then Some(After(cfg, true, b, s, e)) else None
  {
    StartInv(cfg, s);
    assert [e][..0] == [];
    assert Pass(cfg, true, s, []) == Some(Progress(Book(map[], {}, s.grad, s.fp32), s));
    hide Inv, Guard, After;
  }

  /** The bucket is submitted as a view of the bucket buffer, divided where it lies. */
  function Submitted(): Pipe
  {
    Pipe([], map[0 := InBucket(0)], [1.0, 1.0, 0.0], Some(Pending([0], View(0), Direct(0), None)),
         [0.0, 0.0, 0.0], [0.0, 0.0, 0.0], 0)
  }

  lemma {:induction false} SubmitsView(junk: Padding)
    ensures CanWait(Three(SMALL), Held()) && Placed(Three(SMALL), Held(), Sorted(SetOf(Held().bucket)))
    ensures Reduce(Three(SMALL), Held(), junk) == Submitted()
  {
    var cfg := Three(SMALL);
    ThreeOk(SMALL);
    OneSorted(0);
    Halves(2.0);
    Counts(0, 0, cfg.size);
    assert Held().buffer[0..2] == [2.0, 2.0];
    assert Put(Held().buffer, 0, [1.0, 1.0]) == [1.0, 1.0, 0.0];
    hide Config.Ok, Config.Ascends, Sorted, SetOf, Divided, GroupSize;
  }

  /** The next hook copies its gradient over the view. */
  function Spoilt(): Pipe
  {
    Submitted().(bucket := [1], places := map[0 := InBucket(0), 1 := InBucket(0)], buffer := [6.0, 6.0, 0.0])
  }

  lemma {:induction false} AddsOver()
    ensures Overflows(Three(SMALL), Held(), 1) && Overwrites(Three(SMALL), Submitted(), 1)
    ensures Add(Three(SMALL), Submitted(), 1, [6.0, 6.0]) == Spoilt()
  {
    var cfg := Three(SMALL);
    Counts(0, 0, cfg.numel);
    assert Put(Submitted().buffer, 0, [6.0, 6.0]) == [6.0, 6.0, 0.0];
    hide GroupSize;
  }

  lemma {:induction false} OneBlock(n: nat, s: Pipe, pe: Pending, x: real, y: real, junk: Padding)
    requires Three(n).Ok() && InputOk(Three(n), s, pe) && |pe.params| == 1 && Reads(Three(n), s, pe, 0) == [x, y]
    ensures Flatten(OutputBlocks(Three(n), s, pe, junk)) == [x]
  {
    Receives(n, pe.params[0], x, y);
    ThreeOk(n);
    var b := OutputBlock(Three(n), 0, pe.params[0], [x, y], junk);
    assert b == [x];
    assert OutputBlocks(Three(n), s, pe, junk) == [b];
    assert [b][..0] == [];
    assert Flatten([b]) == [] + b;
  }

  /** The collective reads the wrong gradient. */
  function Read(): Pipe
  {
    Spoilt().(pending := Some(Pending([0], View(0), Direct(0), Some([6.0]))), grad := [6.0, 0.0, 0.0])
  }

  lemma {:induction false} SpoiltWaits()
    ensures CanWait(Three(SMALL), Spoilt()) && PendingOk(Three(SMALL), Spoilt()) && PendingOk(Three(SMALL), Read())
  {
    ThreeOk(SMALL);
    Counts(0, 0, Three(SMALL).size);
    hide Config.Ok, Config.Ascends, GroupSize;
  }

  lemma {:induction false} SpoiltInput()
    ensures InputOk(Three(SMALL), Spoilt(), Pending([0], View(0), Direct(0), None))
    ensures Reads(Three(SMALL), Spoilt(), Pending([0], View(0), Direct(0), None), 0) == [6.0, 6.0]
    ensures Spoilt().pending == Some(Pending([0], View(0), Direct(0), None)) && Spoilt().grad == [0.0, 0.0, 0.0]
    ensures Read() == Spoilt().(pending := Some(Pending([0], View(0), Direct(0), Some([6.0]))), grad := [6.0, 0.0, 0.0])
    ensures Put([0.0, 0.0, 0.0], 0, [6.0]) == [6.0, 0.0, 0.0]
  {
  }

  lemma {:induction false} WaitParts(cfg: Config, s: Pipe)
    requires CanWait(cfg, s)
    ensures cfg.Ok() && Shaped(cfg, s)
  {
  }

  lemma {:induction false} ReadsSpoilt(junk: Padding)
    ensures CanWait(Three(SMALL), Spoilt()) && PendingOk(Three(SMALL), Spoilt())
    ensures Complete(Three(SMALL), Spoilt(), junk) == Read()
  {
    hide *;
    var cfg, s := Three(SMALL), Spoilt();
    SpoiltWaits();
    WaitParts(cfg, s);
    SpoiltInput();
    OneBlock(SMALL, s, s.pending.value, 6.0, 6.0, junk);
    CompleteIs(cfg, s, junk, 0);
  }

  lemma {:induction false} LandsSpoilt()
    ensures Three(SMALL).Ok() && PendingOk(Three(SMALL), Read())
    ensures LandOne(Three(SMALL), Read(), 0).fp32 == [6.0, 0.0, 0.0]
  {
    var cfg, s := Three(SMALL), Read();
    SpoiltWaits();
    ThreeOk(SMALL);
    Counts(0, 0, cfg.size);
    hide PendingOk, CanWait, Config.Ok, Config.Ascends, GroupSize, Off;
    assert SamePlace(cfg, s.pending.value, 0);
    assert LandedGrad(cfg, s, 0) == s.grad;
    assert Seg(cfg, s.grad, 0) == [6.0];
    assert Put(s.fp32, 0, [6.0]) == [6.0, 0.0, 0.0];
    hide Put, Seg, LandedGrad;
  }

  /** It is taken. */
  lemma {:induction false} TakesSpoilt(junk: Padding)
    ensures CanWait(Three(SMALL), Spoilt())
    ensures Flush(Three(SMALL), Spoilt(), junk).fp32 == [6.0, 0.0, 0.0]
  {
    SpoiltWaits();
    ReadsSpoilt(junk);
    LandsSpoilt();
    hide LandOne, Complete, CanWait, PendingOk, Config.Ok;
    assert Land(Three(SMALL), Read(), 0) == Read();
    assert Land(Three(SMALL), Read(), 1) == LandOne(Three(SMALL), Read(), 0);
  }

  /** The hook of p submits the bucket as a view and then copies p's gradient over it, unread. */
  ghost predicate HookSpoils(cfg: Config, b: Book, s: Pipe, p: int, junk: Padding)
  {
    && Consistent(cfg, true, b, s) && s.micro == 0 && Overflows(cfg, s, p)
    && var u := Ready(cfg, true, b, s, p, junk);
       u.pending.Some? && u.pending.value.input.View? && Overwrites(cfg, u, p)
  }

  /** What the code has after that hook. */
  ghost function AfterHook(cfg: Config, b: Book, s: Pipe, p: int, g: seq<real>, junk: Padding): Pipe
    requires Consistent(cfg, true, b, s) && s.micro == 0
  {
    Add(cfg, Ready(cfg, true, b, s, p, junk), p, g)
  }

  /** The next flush leaves x in p's place of the fp32 buffer. */
  ghost predicate FlushLeaves(cfg: Config, s: Pipe, p: int, x: seq<real>, junk: Padding)
  {
    && CanWait(cfg, s) && cfg.offset(p) + cfg.Len(p) <= cfg.total
    && Seg(cfg, Flush(cfg, s, junk).fp32, p) == x
  }

  lemma {:induction false} HookIs(cfg: Config, b: Book, s: Pipe, p: int, g: seq<real>, junk: Padding)
    requires Consistent(cfg, true, b, s) && s.micro == 0 && Overflows(cfg, s, p)
    ensures CanEmpty(cfg, true, s)
    ensures Ready(cfg, true, b, s, p, junk) == Reduce(cfg, s, junk)
    ensures AfterHook(cfg, b, s, p, g, junk) == Add(cfg, Reduce(cfg, s, junk), p, g)
  {
    EmptyKeeps(cfg, true, b, s, junk);
    hide Inv, Reduce, CanEmpty, Add;
  }

  lemma {:induction false} SpoiltLeaves(junk: Padding)
    ensures FlushLeaves(Three(SMALL), Spoilt(), 0, [6.0], junk)
  {
    TakesSpoilt(junk);
    ThreeOk(SMALL);
    hide Flush, CanWait, Config.Ok;
  }

  lemma {:induction false} HeldParts()
    ensures Held().micro == 0
    ensures Submitted().pending.Some? && Submitted().pending.value.input.View?
  {
  }

  /** A pass whose second hook submits the first gradient as a view and copies its own over it before the
      collective reads: the next flush leaves 6 in the place of parameter 0, whose gradient is worth 1. */
  lemma {:induction false} ViewOverwritten(junk: Padding)
    ensures Started(Three(SMALL), Begin(SMALL, 0.0))
    ensures var r := Pass(Three(SMALL), true, Begin(SMALL, 0.0), [Hook(0, [2.0, 2.0], junk)]);
            && r.Some? && HookSpoils(Three(SMALL), r.value.book, r.value.pipe, 1, junk)
            && FlushLeaves(Three(SMALL), AfterHook(Three(SMALL), r.value.book, r.value.pipe, 1, [6.0, 6.0], junk), 0, [6.0], junk)
    ensures var r := Pass(Three(SMALL), true, Begin(SMALL, 0.0), [Hook(0, [2.0, 2.0], junk)]);
            r.value.book.grads == map[0 := [2.0, 2.0]] && Expected(Three(SMALL), r.value.book, 0) == [1.0]
  {
    hide *;
    FirstHook(junk);
    var r := Pass(Three(SMALL), true, Begin(SMALL, 0.0), [Hook(0, [2.0, 2.0], junk)]).value;
    HeldParts();
    AddsOver();
    SubmitsView(junk);
    HookIs(Three(SMALL), r.book, Held(), 1, [6.0, 6.0], junk);
    SpoilsIs(Three(SMALL), r.book, Held(), 1, junk);
    SpoiltLeaves(junk);
    Worth(SMALL, r.book);
  }

  lemma {:induction false} SpoilsIs(cfg: Config, b: Book, s: Pipe, p: int, junk: Padding)
    requires Consistent(cfg, true, b, s) && s.micro == 0 && Overflows(cfg, s, p)
    requires var u := Ready(cfg, true, b, s, p, junk);
             u.pending.Some? && u.pending.value.input.View? && Overwrites(cfg, u, p)
    ensures HookSpoils(cfg, b, s, p, junk)
  {
  }

  /** A gradient of 2 on this rank and nothing on the other averages to 1. */
  lemma {:induction false} Worth(n: nat, b: Book)
    requires 0 in b.grads && b.grads[0] == [2.0, 2.0]
    ensures Three(n).world > 0 && Three(n).numel(0) == 2 && Expected(Three(n), b, 0) == [1.0]
  {
    Halves(2.0);
    Receives(n, 0, 1.0, 1.0);
    hide ReceivedSlice, Divided;
  }

  // ------------------------------------------------------- adding to old values

  const ROOMY: nat := 5

  /** After the hooks of parameters 0 and 2, in a pass that finds 5 everywhere in the fp16 gradient buffer. */
  function Held0(): Pipe
  {
    Pipe([0], map[0 := InBucket(0)], [2.0, 2.0, 0.0, 0.0, 0.0], None, [5.0, 5.0, 5.0], [0.0, 0.0, 0.0], 0)
  }

  function Held02(): Pipe
  {
    Pipe([0, 2], map[0 := InBucket(0), 2 := InBucket(2)], [2.0, 2.0, 2.0, 2.0, 0.0], None,
         [5.0, 5.0, 5.0], [0.0, 0.0, 0.0], 0)
  }

  /** Backward has ended: the shards of 0 and 2 are not contiguous, so the output is new storage. */
  function Last(): Pipe
  {
    Held02().(bucket := [], micro := 1,
              pending := Some(Pending([0, 2], Private([[1.0, 1.0], [1.0, 1.0]]), Fresh, None)))
  }

  function LastBook(): Book
  {
    Book(map[0 := [2.0, 2.0], 2 := [2.0, 2.0]], {}, [5.0, 5.0, 5.0], [0.0, 0.0, 0.0])
  }

  function Hook0(junk: Padding): Event { Hook(0, [2.0, 2.0], junk) }
  function Hook2(junk: Padding): Event { Hook(2, [2.0, 2.0], junk) }

  lemma {:induction false} RoomyFirst(junk: Padding)
    ensures Started(Three(ROOMY), Begin(ROOMY, 5.0))
    ensures Pass(Three(ROOMY), true, Begin(ROOMY, 5.0), [Hook0(junk)])
         == Some(Progress(Book(map[0 := [2.0, 2.0]], {}, [5.0, 5.0, 5.0], [0.0, 0.0, 0.0]), Held0()))
  {
    var cfg, s := Three(ROOMY), Begin(ROOMY, 5.0);
    Begins(ROOMY, 5.0);
    PassOne(cfg, s, Hook0(junk));
    StartInv(cfg, s);
    Counts(0, 0, cfg.numel);
    assert Add(cfg, s, 0, [2.0, 2.0]) == Held0() by { assert s.buffer == [0.0, 0.0, 0.0, 0.0, 0.0]; }
    hide Inv, Started, Pass;
  }

  lemma {:induction false} AddsSecond()
    ensures !Overflows(Three(ROOMY), Held0(), 2)
    ensures Add(Three(ROOMY), Held0(), 2, [2.0, 2.0]) == Held02()
  {
    Counts(0, 2, Three(ROOMY).numel);
    assert Put(Held0().buffer, 2, [2.0, 2.0]) == Held02().buffer;
    hide GroupSize, Put;
    assert map[0 := InBucket(0)][2 := InBucket(2)] == map[0 := InBucket(0), 2 := InBucket(2)];
  }

  lemma {:induction false} RoomyParts()
    ensures Held0().micro == 0 && Held0().pending.None?
    ensures 2 in Three(ROOMY).params && Three(ROOMY).numel(2) == 2
  {
  }

  lemma {:induction false} RoomySecond(junk: Padding)
    ensures Started(Three(ROOMY), Begin(ROOMY, 5.0))
    ensures Pass(Three(ROOMY), true, Begin(ROOMY, 5.0), [Hook0(junk), Hook2(junk)])
         == Some(Progress(Book(map[0 := [2.0, 2.0]][2 := [2.0, 2.0]], {}, [5.0, 5.0, 5.0], [0.0, 0.0, 0.0]), Held02()))
  {
    assert Hook2(junk) == Hook(2, [2.0, 2.0], junk);
    hide *;
    RoomyFirst(junk);
    PassNext(Three(ROOMY), Begin(ROOMY, 5.0), [Hook0(junk)], Hook2(junk));
    assert [Hook0(junk)] + [Hook2(junk)] == [Hook0(junk), Hook2(junk)];
    AddsSecond();
    RoomyParts();
    HookFits(Three(ROOMY), Book(map[0 := [2.0, 2.0]], {}, [5.0, 5.0, 5.0], [0.0, 0.0, 0.0]), Held0(), 2, [2.0, 2.0], junk);
  }

  lemma {:induction false} SubmitsLast(junk: Padding)
    ensures CanWait(Three(ROOMY), Held02()) && Placed(Three(ROOMY), Held02(), Sorted(SetOf(Held02().bucket)))
    ensures Reduce(Three(ROOMY), Held02(), junk) == Last().(micro := 0)
  {
    var cfg, s := Three(ROOMY), Held02();
    ThreeOk(ROOMY);
    TwoSorted();
    Halves(2.0);
    Counts(0, 2, cfg.size);
    assert s.buffer[0..2] == [2.0, 2.0] && s.buffer[2..4] == [2.0, 2.0];
    assert Placed(cfg, s, [0, 2]);
    assert DividedContents(cfg, s, [0, 2]) == [[1.0, 1.0], [1.0, 1.0]];
    assert !LooksContiguous(cfg, [0, 2]);
    hide Config.Ok, Config.Ascends, Sorted, SetOf, Divided, GroupSize, DividedContents;
  }

  lemma {:induction false} HeldParts02()
    ensures Held02().micro == 0 && Held02().bucket != [] && Held02().pending.None?
    ensures LastBook() == Book(map[0 := [2.0, 2.0]][2 := [2.0, 2.0]], {}, [5.0, 5.0, 5.0], [0.0, 0.0, 0.0])
    ensures LastBook().(landed := LastBook().landed + {}) == LastBook()
    ensures Last().(micro := 0).(micro := 1) == Last()
  {
    assert map[0 := [2.0, 2.0]][2 := [2.0, 2.0]] == map[0 := [2.0, 2.0], 2 := [2.0, 2.0]];
  }

  lemma {:induction false} LastSubmitted(junk: Padding)
    ensures Started(Three(ROOMY), Begin(ROOMY, 5.0))
    ensures Pass(Three(ROOMY), true, Begin(ROOMY, 5.0), [Hook0(junk), Hook2(junk), EndBackward(junk)])
         == Some(Progress(LastBook(), Last()))
  {
    hide *;
    RoomySecond(junk);
    PassNext(Three(ROOMY), Begin(ROOMY, 5.0), [Hook0(junk), Hook2(junk)], EndBackward(junk));
    assert [Hook0(junk), Hook2(junk)] + [EndBackward(junk)] == [Hook0(junk), Hook2(junk), EndBackward(junk)];
    SubmitsLast(junk);
    HeldParts02();
    EndIs(Three(ROOMY), LastBook(), Held02(), junk);
  }

  // What the last flush does.

  function LastRead(): Pipe
  {
    Last().(pending := Some(Pending([0, 2], Private([[1.0, 1.0], [1.0, 1.0]]), Fresh, Some([1.0, 1.0]))))
  }

  function Landed0(): Pipe { LastRead().(grad := [6.0, 5.0, 5.0], fp32 := [6.0, 0.0, 0.0]) }
  function Landed2(): Pipe { LastRead().(grad := [6.0, 5.0, 6.0], fp32 := [6.0, 0.0, 6.0]) }

  lemma {:induction false} LastOk()
    ensures CanWait(Three(ROOMY), Last()) && PendingOk(Three(ROOMY), Last())
    ensures PendingOk(Three(ROOMY), LastRead()) && PendingOk(Three(ROOMY), Landed0())
    ensures Three(ROOMY).Ok()
  {
    ThreeOk(ROOMY);
    Counts(0, 2, Three(ROOMY).size);
    hide Config.Ok, Config.Ascends, GroupSize;
  }

  lemma {:induction false} LastBlocks(junk: Padding)
    ensures Three(ROOMY).Ok() && InputOk(Three(ROOMY), Last(), Last().pending.value)
    ensures Flatten(OutputBlocks(Three(ROOMY), Last(), Last().pending.value, junk)) == [1.0, 1.0]
  {
    var cfg, s := Three(ROOMY), Last();
    ThreeOk(ROOMY);
    Receives(ROOMY, 0, 1.0, 1.0);
    Receives(ROOMY, 2, 1.0, 1.0);
    var bs := OutputBlocks(cfg, s, s.pending.value, junk);
    assert OutputBlock(cfg, 0, 0, [1.0, 1.0], junk) == [1.0] && OutputBlock(cfg, 1, 2, [1.0, 1.0], junk) == [1.0];
    assert bs == [[1.0], [1.0]];
    assert bs[..1] == [[1.0]] && bs[..1][..0] == [];
    assert Flatten(bs[..1]) == [1.0];
    hide OutputBlocks, OutputBlock, Config.Ok;
  }

  lemma {:induction false} LastCompletes(junk: Padding)
    ensures CanWait(Three(ROOMY), Last()) && PendingOk(Three(ROOMY), Last())
    ensures Complete(Three(ROOMY), Last(), junk) == LastRead()
  {
    LastOk();
    LastBlocks(junk);
    CompleteIs(Three(ROOMY), Last(), junk, 0);
    hide OutputBlocks, Flatten, CanWait, PendingOk, Config.Ok;
  }

  /** Past the first micro step, an output in new storage is added to what the place holds. */
  lemma {:induction false} Accumulates(cfg: Config, s: Pipe, i: nat, p: int, x: seq<real>, before: seq<real>)
    requires cfg.Ok() && Shaped(cfg, s) && PendingOk(cfg, s) && s.pending.value.flat.Some? && s.pending.value.output == Fresh
    requires i < |s.pending.value.params| && s.pending.value.params[i] == p && p in cfg.params && s.micro > 0
    requires cfg.offset(p) + cfg.Len(p) <= |s.grad| && |before| == |x| == cfg.Len(p) && !NothingHere(cfg, p)
    requires Part(cfg, s, i) == x && Seg(cfg, s.grad, p) == before
    ensures var grad := Put(s.grad, cfg.offset(p), Plus(before, x));
            LandOne(cfg, s, i) == s.(grad := grad, fp32 := Put(s.fp32, cfg.offset(p), Seg(cfg, grad, p)))
  {
    hide Part, Put, Plus, Seg, NothingHere, PendingOk, Config.Ok;
  }

  lemma {:induction false} LastPlaces(pe: Pending)
    requires pe.params == [0, 2]
    ensures PartAt(Three(ROOMY), pe, 0) == 0 && PartAt(Three(ROOMY), pe, 1) == 1
    ensures forall p: int :: Three(ROOMY).Len(p) == 1
    ensures [1.0, 1.0][0..1] == [1.0] && [1.0, 1.0][1..2] == [1.0]
  {
    ThreeOk(ROOMY);
    Counts(0, 2, Three(ROOMY).size);
    hide Config.Ok, Config.Ascends, GroupSize, Off;
  }

  lemma {:induction false} LastPending()
    ensures LastRead().pending == Landed0().pending
         == Some(Pending([0, 2], Private([[1.0, 1.0], [1.0, 1.0]]), Fresh, Some([1.0, 1.0])))
  {
  }

  lemma {:induction false} LastParts()
    ensures PendingOk(Three(ROOMY), LastRead()) && PendingOk(Three(ROOMY), Landed0())
    ensures LastRead().pending.value.flat.Some? && Landed0().pending.value.flat.Some?
    ensures |LastRead().pending.value.params| == |Landed0().pending.value.params| == 2
    ensures Part(Three(ROOMY), LastRead(), 0) == [1.0] && Part(Three(ROOMY), Landed0(), 1) == [1.0]
  {
    hide *;
    LastOk();
    LastPending();
    LastPlaces(LastRead().pending.value);
    PartIs(Three(ROOMY), LastRead(), 0);
    PartIs(Three(ROOMY), Landed0(), 1);
  }

  lemma {:induction false} Sixes()
    ensures Plus([5.0], [1.0]) == [6.0]
    ensures Put([5.0, 5.0, 5.0], 0, [6.0]) == [6.0, 5.0, 5.0] && Put([6.0, 5.0, 5.0], 2, [6.0]) == [6.0, 5.0, 6.0]
    ensures Put([0.0, 0.0, 0.0], 0, [6.0]) == [6.0, 0.0, 0.0] && Put([6.0, 0.0, 0.0], 2, [6.0]) == [6.0, 0.0, 6.0]
  {
  }

  lemma {:induction false} Segs()
    ensures forall p: int :: Three(ROOMY).Len(p) == 1
    ensures Three(ROOMY).offset(0) == 0 && Three(ROOMY).offset(2) == 2
    ensures Seg(Three(ROOMY), [5.0, 5.0, 5.0], 0) == [5.0] && Seg(Three(ROOMY), [6.0, 5.0, 5.0], 0) == [6.0]
    ensures Seg(Three(ROOMY), [6.0, 5.0, 5.0], 2) == [5.0] && Seg(Three(ROOMY), [6.0, 5.0, 6.0], 2) == [6.0]
    ensures !NothingHere(Three(ROOMY), 0) && !NothingHere(Three(ROOMY), 2)
  {
    ThreeOk(ROOMY);
    hide Config.Ok, Config.Ascends;
  }

  lemma {:induction false} Lands0()
    ensures Three(ROOMY).Ok() && PendingOk(Three(ROOMY), LastRead())
    ensures LandOne(Three(ROOMY), LastRead(), 0) == Landed0()
  {
    LastOk();
    LastParts();
    Segs();
    Sixes();
    hide Part, Put, Plus, Seg, NothingHere, PendingOk, Config.Ok, CanWait, LandOne;
    Accumulates(Three(ROOMY), LastRead(), 0, 0, [1.0], [5.0]);
  }

  lemma {:induction false} Lands2()
    ensures Three(ROOMY).Ok() && PendingOk(Three(ROOMY), Landed0())
    ensures LandOne(Three(ROOMY), Landed0(), 1) == Landed2()
  {
    LastOk();
    LastParts();
    Segs();
    Sixes();
    hide Part, Put, Plus, Seg, NothingHere, PendingOk, Config.Ok, CanWait, LandOne;
    Accumulates(Three(ROOMY), Landed0(), 1, 2, [1.0], [5.0]);
  }

  lemma {:induction false} LastFlushes(junk: Padding)
    ensures CanWait(Three(ROOMY), Last()) && Flush(Three(ROOMY), Last(), junk).fp32 == [6.0, 0.0, 6.0]
  {
    LastOk();
    LastCompletes(junk);
    Lands0();
    Lands2();
    hide LandOne, Complete, CanWait, PendingOk, Config.Ok;
    assert Land(Three(ROOMY), LastRead(), 0) == LastRead();
    assert Land(Three(ROOMY), LastRead(), 1) == Landed0();
    assert Land(Three(ROOMY), LastRead(), 2) == Landed2();
  }

  lemma {:induction false} LastLeaves(junk: Padding)
    ensures FlushLeaves(Three(ROOMY), Last(), 0, [6.0], junk)
  {
    LastFlushes(junk);
    ThreeOk(ROOMY);
    hide Flush, CanWait, Config.Ok;
  }

  /** A pass whose last bucket has shards that are not contiguous, over old values: backward ends, the micro step is
      counted, and the last flush then adds the slice of parameter 0, worth 1, to the 5 it finds. */
  lemma {:induction false} LastBucketAdds(junk: Padding)
    ensures Started(Three(ROOMY), Begin(ROOMY, 5.0))
    ensures var r := Pass(Three(ROOMY), true, Begin(ROOMY, 5.0), [Hook0(junk), Hook2(junk), EndBackward(junk)]);
            && r.Some? && r.value.pipe.micro == 1 && PendingParams(r.value.pipe) == [0, 2]
            && 0 in r.value.book.grads && Three(ROOMY).numel(0) == |r.value.book.grads[0]| && Three(ROOMY).world > 0
            && Expected(Three(ROOMY), r.value.book, 0) == [1.0]
            && FlushLeaves(Three(ROOMY), r.value.pipe, 0, [6.0], junk)
  {
    LastSubmitted(junk);
    LastLeaves(junk);
    Worth(ROOMY, LastBook());
    hide Pass, Started, FlushLeaves, Expected;
  }
}
