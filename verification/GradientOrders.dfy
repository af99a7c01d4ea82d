/** Passes in which the hooks fire in any order: in a model without clashes nothing but the last flush can be refused. */
module GradientOrders {
  import opened Prelude
  import opened GradientSpec
  import opened GradientRuns
  import opened GradientTheorems
  import opened GradientViews
  import opened GradientAdds
  import opened GradientOld

  /** Each parameter fires once at most, with a gradient of its size. */
  ghost predicate HooksOnce(cfg: Config, es: seq<Event>)
  {
    && (forall i :: 0 <= i < |es| ==> es[i].Hook? && es[i].p in cfg.params && |es[i].g| == cfg.numel(es[i].p))
    && forall i, j :: 0 <= i < j < |es| ==> es[i].p != es[j].p
  }

  /** The book holds the gradients of these hooks and no others. */
  ghost predicate Records(b: Book, es: seq<Event>)
  {
    && (forall i :: 0 <= i < |es| ==> es[i].Hook? && es[i].p in b.grads && b.grads[es[i].p] == es[i].g)
    && forall p :: p in b.grads ==> FiredIn(es, p)
  }

  ghost predicate FiredIn(es: seq<Event>, p: int)
  {
    exists i :: 0 <= i < |es| && es[i].Hook? && es[i].p == p
  }

  lemma {:induction false} RecordsNone(b: Book)
    requires b.grads == map[]
    ensures Records(b, [])
  {
  }

  lemma {:induction false} RecordsNext(b: Book, c: Book, es: seq<Event>, e: Event)
    requires Records(b, es) && e.Hook? && !FiredIn(es, e.p) && c.grads == b.grads[e.p := e.g]
    ensures Records(c, es + [e])
  {
    var more := es + [e];
    assert more[|es|] == e;
    forall p | p in c.grads ensures FiredIn(more, p) {
      if p != e.p {
        assert FiredIn(es, p);
        var i :| 0 <= i < |es| && es[i].Hook? && es[i].p == p;
        assert more[i].p == p;
      }
    }
    hide FiredIn;
  }

  lemma {:induction false} HooksFirst(cfg: Config, es: seq<Event>)
    requires HooksOnce(cfg, es) && es != []
    ensures var n := |es| - 1;
            && HooksOnce(cfg, es[..n]) && es == es[..n] + [es[n]] && es[n].Hook? && !FiredIn(es[..n], es[n].p)
            && es[n].p in cfg.params && |es[n].g| == cfg.numel(es[n].p)
  {
  }

  lemma {:induction false} NotFired(b: Book, es: seq<Event>, p: int)
    requires Records(b, es) && !FiredIn(es, p)
    ensures p !in b.grads
  {
  }

  lemma {:induction false} HookRecords(cfg: Config, b: Book, s: Pipe, e: Event)
    requires Consistent(cfg, true, b, s) && Guard(cfg, true, b, s, e) && e.Hook?
    ensures After(cfg, true, b, s, e).book.grads == b.grads[e.p := e.g]
  {
    hide Ready, Overflows, Add, Inv;
  }

  lemma {:induction false} PassNone(cfg: Config, start: Pipe)
    requires Started(cfg, start)
    ensures Pass(cfg, true, start, []) == Some(Progress(Book(map[], {}, start.grad, start.fp32), start)) && start.micro == 0
  {
    hide Shaped, Config.Ok, Config.Ascends;
  }

  /** Without clashes every hook order is allowed. */
  lemma {:induction false} HooksRun(cfg: Config, start: Pipe, es: seq<Event>)
    requires Started(cfg, start) && cfg.world > 0 && ClashFree(cfg) && HooksOnce(cfg, es)
    ensures Pass(cfg, true, start, es).Some?
    ensures var r := Pass(cfg, true, start, es).value; r.pipe.micro == 0 && Records(r.book, es)
    decreases |es|
  {
    hide *;
    if es == [] {
      PassNone(cfg, start);
      RecordsNone(Pass(cfg, true, start, es).value.book);
    } else {
      var n := |es| - 1;
      var first, e := es[..n], es[n];
      HooksFirst(cfg, es);
      HooksRun(cfg, start, first);
      PassNext(cfg, start, first, e);
      HooksAllowed(cfg, start, first, e);
      var r := Pass(cfg, true, start, first).value;
      NotFired(r.book, first, e.p);
      HookMicro(cfg, r.book, r.pipe, e);
      HookRecords(cfg, r.book, r.pipe, e);
      RecordsNext(r.book, After(cfg, true, r.book, r.pipe, e).book, first, e);
    }
  }

  /** What follows the hooks: the end of backward and the last flush. */
  function Whole(es: seq<Event>, end: Padding, last: Padding): seq<Event>
  {
    es + [EndBackward(end)] + [Take(last)]
  }

  lemma {:induction false} EndEmpties(cfg: Config, b: Book, s: Pipe, junk: Padding)
    requires Consistent(cfg, true, b, s) && s.micro == 0
    ensures Guard(cfg, true, b, s, EndBackward(junk))
    ensures var r := After(cfg, true, b, s, EndBackward(junk));
            r.pipe.bucket == [] && r.pipe.micro == 1 && r.book.grads == b.grads
  {
    EmptyKeeps(cfg, true, b, s, junk);
    hide Inv, Empty, CanEmpty;
  }

  lemma {:induction false} TakeEmpties(cfg: Config, b: Book, s: Pipe, junk: Padding)
    requires Consistent(cfg, true, b, s) && Guard(cfg, true, b, s, Take(junk))
    ensures var r := After(cfg, true, b, s, Take(junk));
            r.pipe.bucket == s.bucket && r.pipe.pending.None? && r.book.grads == b.grads
  {
    InvParams(cfg, b, s);
    hide Inv, AllClean, CanWait;
  }

  lemma {:induction false} TakeGuard(cfg: Config, b: Book, s: Pipe, junk: Padding)
    requires Consistent(cfg, true, b, s)
    ensures Guard(cfg, true, b, s, Take(junk)) <==> AllClean(cfg, s)
  {
    hide AllClean, Consistent;
  }

  lemma {:induction false} SameRecords(b: Book, c: Book, es: seq<Event>)
    requires Records(b, es) && c.grads == b.grads
    ensures Records(c, es)
  {
    hide FiredIn;
  }

  /** What the last bucket of a pass must meet: there is none, it is reduced in place, or it lands on zeros. */
  ghost predicate LastClean(cfg: Config, start: Pipe, s: Pipe)
  {
    s.pending.Some? ==> StartsClean(cfg, start, s.pending.value)
  }

  lemma {:induction false} LastCleanIs(cfg: Config, start: Pipe, es: seq<Event>)
    requires Started(cfg, start) && Pass(cfg, true, start, es).Some? && Pass(cfg, true, start, es).value.pipe.micro > 0
    ensures var s := Pass(cfg, true, start, es).value.pipe; AllClean(cfg, s) <==> LastClean(cfg, start, s)
  {
    var s := Pass(cfg, true, start, es).value.pipe;
    if s.pending.Some? { OldValuesDecide(cfg, start, es); }
    hide Pass, Started, StartsClean, Clean, Config.Len;
  }

  /** Without clashes a pass goes through in any hook order up to its last flush; it finishes, with the gradients of all
      its hooks, if and only if its last bucket is reduced in place or lands on zeros of the buffer it started with. */
  lemma {:induction false} AnyOrder(cfg: Config, start: Pipe, es: seq<Event>, end: Padding, last: Padding)
    requires Started(cfg, start) && cfg.world > 0 && ClashFree(cfg) && HooksOnce(cfg, es)
    ensures Pass(cfg, true, start, es + [EndBackward(end)]).Some?
    ensures Finished(cfg, true, start, Whole(es, end, last))
       <==> LastClean(cfg, start, Pass(cfg, true, start, es + [EndBackward(end)]).value.pipe)
    ensures Finished(cfg, true, start, Whole(es, end, last)) ==>
              Records(Pass(cfg, true, start, Whole(es, end, last)).value.book, es)
  {
    HooksRun(cfg, start, es);
    hide *;
    PassNext(cfg, start, es, EndBackward(end));
    var r := Pass(cfg, true, start, es).value;
    EndEmpties(cfg, r.book, r.pipe, end);
    PassNext(cfg, start, es + [EndBackward(end)], Take(last));
    var u := Pass(cfg, true, start, es + [EndBackward(end)]).value;
    LastCleanIs(cfg, start, es + [EndBackward(end)]);
    TakeGuard(cfg, u.book, u.pipe, last);
    WholeIs(es, end, last);
    FinishedIs(cfg, start, Whole(es, end, last));
    if AllClean(cfg, u.pipe) {
      TakeEmpties(cfg, u.book, u.pipe, last);
      SameRecords(r.book, Pass(cfg, true, start, Whole(es, end, last)).value.book, es);
    }
  }

  lemma {:induction false} WholeIs(es: seq<Event>, end: Padding, last: Padding)
    ensures Whole(es, end, last) == es + [EndBackward(end)] + [Take(last)]
  {
  }

  lemma {:induction false} FinishedIs(cfg: Config, start: Pipe, es: seq<Event>)
    requires Started(cfg, start)
    ensures Finished(cfg, true, start, es) <==>
              && Pass(cfg, true, start, es).Some? && Pass(cfg, true, start, es).value.pipe.bucket == []
              && Pass(cfg, true, start, es).value.pipe.pending.None?
  {
    hide Pass, Started;
  }

  /** In a model without clashes that cannot add to old values, or on a buffer of zeros, every hook order finishes. */
  lemma {:induction false} EveryOrderFinishes(cfg: Config, start: Pipe, es: seq<Event>, end: Padding, last: Padding)
    requires Started(cfg, start) && cfg.world > 0 && ClashFree(cfg) && HooksOnce(cfg, es)
    requires !CanScatter(cfg) || start.grad == seq(cfg.total, _ => 0.0)
    ensures Finished(cfg, true, start, Whole(es, end, last))
    ensures Records(Pass(cfg, true, start, Whole(es, end, last)).value.book, es)
  {
    hide *;
    AnyOrder(cfg, start, es, end, last);
    HooksRun(cfg, start, es);
    PassNext(cfg, start, es, EndBackward(end));
    var r := Pass(cfg, true, start, es).value;
    EndEmpties(cfg, r.book, r.pipe, end);
    var u := Pass(cfg, true, start, es + [EndBackward(end)]).value;
    LastCleanIs(cfg, start, es + [EndBackward(end)]);
    if CanScatter(cfg) {
      ZerosAllowed(cfg, start, es + [EndBackward(end)]);
    } else {
      TakesAllowed(cfg, start, es + [EndBackward(end)], last);
      PassNext(cfg, start, es + [EndBackward(end)], Take(last));
      TakeGuard(cfg, u.book, u.pipe, last);
    }
  }
}
