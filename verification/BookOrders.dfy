/** Whole-run properties of single orders: the shape of a fill, the life of an order, and submit and
    cancel as inverses. */
module BookOrders {
  import opened Wrappers
  import opened Book
  import opened BookVolumes

  // ------------------------------------------------------------------ FIFO fill shape

  /** The orders resting at `lv`, oldest first. */
  function Resting(resting: seq<Order>, lv: Level): seq<Order> {
    if resting == [] then []
    else if resting[0].At() == lv then [resting[0]] + Resting(resting[1..], lv)
    else Resting(resting[1..], lv)
  }

  /** Everything that rests at some other level, in order. */
  function Elsewhere(resting: seq<Order>, lv: Level): seq<Order> {
    if resting == [] then []
    else if resting[0].At() != lv then [resting[0]] + Elsewhere(resting[1..], lv)
    else Elsewhere(resting[1..], lv)
  }

  /** Time priority: the fills of one submit take the opposite queue from its front, one order
      after the other; all but the last are filled completely; the queue keeps exactly the rest,
      with the last order touched lowered by its fill; other levels are untouched. */
  ghost predicate FillShape(queue: seq<Order>, m: Matched, after: seq<Order>) {
    var n := |m.fills|;
    && n <= |queue|
    && (forall i :: 0 <= i < n ==> m.fills[i].maker == queue[i])
    && (forall i :: 0 <= i < n - 1 ==> m.fills[i].qty == queue[i].remaining)
    && (n > 0 ==> 0 < m.fills[n - 1].qty <= queue[n - 1].remaining)
    && (if n > 0 && m.fills[n - 1].qty < queue[n - 1].remaining then
          after == [queue[n - 1].(remaining := queue[n - 1].remaining - m.fills[n - 1].qty)] + queue[n..]
        else after == queue[n..])
    && (m.left > 0 ==> after == [])
  }

  lemma FifoFills(resting: seq<Order>, lv: Level, qty: nat)
    requires Positive(resting)
    ensures var m := Match(resting, lv, qty);
            && FillShape(Resting(resting, lv), m, Resting(m.rest, lv))
            && Elsewhere(m.rest, lv) == Elsewhere(resting, lv)
            && Filled(m.fills) + m.left == qty
  {
    hide Match, Resting, Elsewhere, FillShape;
    MatchSplitsQty(resting, lv, qty);
    FillsTakeFront(resting, lv, qty);
    OthersUntouched(resting, lv, qty);
  }

  lemma {:induction false} OthersUntouched(resting: seq<Order>, lv: Level, qty: nat)
    ensures Elsewhere(Match(resting, lv, qty).rest, lv) == Elsewhere(resting, lv)
  {
    if qty != 0 && resting != [] {
      var o, t := resting[0], resting[1..];
      if o.At() != lv {
        OthersUntouched(t, lv, qty);
        assert ([o] + Match(t, lv, qty).rest)[1..] == Match(t, lv, qty).rest;
      } else if o.remaining <= qty {
        OthersUntouched(t, lv, qty - o.remaining);
      } else {
        assert Match(resting, lv, qty).rest[1..] == t;
      }
    }
  }

  lemma {:induction false} FillsTakeFront(resting: seq<Order>, lv: Level, qty: nat)
    requires Positive(resting)
    ensures FillShape(Resting(resting, lv), Match(resting, lv, qty), Resting(Match(resting, lv, qty).rest, lv))
  {
    if qty != 0 && resting != [] {
      var o, t := resting[0], resting[1..];
      if o.At() != lv {
        hide FillShape;
        FillsTakeFront(t, lv, qty);
        var n := Match(t, lv, qty);
        assert ([o] + n.rest)[1..] == n.rest;
        ShapeRest(Resting(t, lv), n, [o] + n.rest, Resting(n.rest, lv));
      } else if o.remaining <= qty {
        hide FillShape;
        var n := Match(t, lv, qty - o.remaining);
        FillsTakeFront(t, lv, qty - o.remaining);
        ShapeCons(o, Resting(t, lv), n, Resting(n.rest, lv));
      } else {
        assert Match(resting, lv, qty).rest[1..] == t;
      }
    }
  }

  lemma ShapeRest(queue: seq<Order>, m: Matched, rest: seq<Order>, after: seq<Order>)
    requires FillShape(queue, m, after)
    ensures FillShape(queue, m.(rest := rest), after)
  {
  }

  lemma ShapeCons(o: Order, queue: seq<Order>, m: Matched, after: seq<Order>)
    requires FillShape(queue, m, after) && o.remaining > 0
    ensures FillShape([o] + queue, m.(fills := [Fill(o, o.remaining)] + m.fills), after)
  {
    var fills := [Fill(o, o.remaining)] + m.fills;
    assert forall i :: 0 < i < |fills| ==> fills[i] == m.fills[i - 1] && ([o] + queue)[i] == queue[i - 1];
    assert ([o] + queue)[|fills|..] == queue[|m.fills|..];
  }

  // ------------------------------------------------------------------ order lifetime

  /** The outcome finishes order `id`: a maker filled completely, a taker with nothing left, or a
      cancel. */
  ghost predicate Finishes(o: Outcome, id: nat) {
    || (o.Cancelled? && o.order.id == id)
    || (o.Submitted? && o.order.id == id && o.left == 0)
    || (o.Submitted? && exists f :: f in o.fills && f.maker.id == id && f.qty == f.maker.remaining)
  }

  /** The outcome involves order `id` at all. */
  ghost predicate Involves(o: Outcome, id: nat) {
    || (o.Cancelled? && o.order.id == id)
    || (o.Submitted? && o.order.id == id)
    || (o.Submitted? && exists f :: f in o.fills && f.maker.id == id)
  }

  ghost predicate Rests(resting: seq<Order>, id: nat) {
    exists i :: 0 <= i < |resting| && resting[i].id == id
  }

  lemma RestsStub(before: seq<Order>, after: seq<Order>, id: nat)
    requires Stubs(after) <= Stubs(before) && Rests(after, id)
    ensures Rests(before, id)
  {
    var i :| 0 <= i < |after| && after[i].id == id;
    StubsOf(after, i);
    var p :| p in before && p.(remaining := 0) == after[i].(remaining := 0);
    assert p.id == p.(remaining := 0).id == id;
    var k :| 0 <= k < |before| && before[k] == p;
  }

  /** A fill names an order that was resting; one that takes all of it removes it. */
  lemma {:induction false} FillRests(resting: seq<Order>, lv: Level, qty: nat, f: Fill)
    requires f in Match(resting, lv, qty).fills && Ascending(resting)
    ensures f.maker in resting
    ensures f.qty == f.maker.remaining ==> !Rests(Match(resting, lv, qty).rest, f.maker.id)
  {
    var o, t := resting[0], resting[1..];
    assert resting == [o] + t;
    if o.At() != lv || o.remaining <= qty {
      var n := Match(t, lv, if o.At() != lv then qty else qty - o.remaining);
      if f in n.fills {
        FillRests(t, lv, if o.At() != lv then qty else qty - o.remaining, f);
        assert f.maker.id != o.id;
      } else {
        GoneAfter(o, t, lv, qty - o.remaining);
      }
    }
  }

  lemma GoneAfter(o: Order, t: seq<Order>, lv: Level, qty: nat)
    requires Ascending([o] + t)
    ensures !Rests(Match(t, lv, qty).rest, o.id)
  {
    MatchStubs(t, lv, qty);
    forall k | 0 <= k < |t|
      ensures t[k].id != o.id
    {
      assert ([o] + t)[0] == o && ([o] + t)[k + 1] == t[k];
    }
    if Rests(Match(t, lv, qty).rest, o.id) {
      RestsStub(t, Match(t, lv, qty).rest, o.id);
    }
  }

  /** An order involved in a step was resting or is the new one; a finished one rests no more;
      and one that does not rest and is not new does not come back. */
  lemma StepLifetime(b: Book, op: Op, id: nat)
    requires Good(b)
    ensures var (b', o) := Step(b, op);
            && (Involves(o, id) ==> Rests(b.resting, id) || id == b.nextId)
            && (Finishes(o, id) ==> !Rests(b'.resting, id) && id < b'.nextId)
            && (Rests(b'.resting, id) ==> Rests(b.resting, id) || id == b.nextId)
  {
    match op
    case Submit(side, inst, qty, price, owner) =>
      SubmitLifetime(b, op, id);
    case Cancel(target, canceller) =>
      LookupFinds(b.resting, target);
      WithoutKeeps(b.resting, target);
      var after := Step(b, op).0.resting;
      if Rests(after, id) {
        var i :| 0 <= i < |after| && after[i].id == id;
        assert after[i] in b.resting;
      }
  }

  lemma SubmitLifetime(b: Book, op: Op, id: nat)
    requires Good(b) && op.Submit?
    ensures var (b', o) := Step(b, op);
            && (Involves(o, id) ==> Rests(b.resting, id) || id == b.nextId)
            && (Finishes(o, id) ==> !Rests(b'.resting, id) && id < b'.nextId)
            && (Rests(b'.resting, id) ==> Rests(b.resting, id) || id == b.nextId)
  {
    var (b', o) := Step(b, op);
    var lv := o.order.At().Opposite();
    var m := Match(b.resting, lv, op.qty);
    MatchStubs(b.resting, lv, op.qty);
    if Rests(m.rest, id) {
      RestsStub(b.resting, m.rest, id);
    }
    if Rests(b'.resting, id) && id != b.nextId {
      var i :| 0 <= i < |b'.resting| && b'.resting[i].id == id;
      assert m.rest[i].id == id;
    }
    if f :| f in o.fills && f.maker.id == id {
      FillRests(b.resting, lv, op.qty, f);
      assert f.maker in b.resting;
    }
    if Finishes(o, id) && id != b.nextId {
      var f :| f in o.fills && f.maker.id == id && f.qty == f.maker.remaining;
      FillRests(b.resting, lv, op.qty, f);
    }
  }

  lemma {:induction false} GoneStaysGone(ops: seq<Op>, i: nat, id: nat)
    requires i < |ops| && Finishes(Run(ops).outcomes[i], id)
    ensures !Rests(Run(ops).book.resting, id) && id < Run(ops).book.nextId
  {
    var before, op := ops[..|ops| - 1], ops[|ops| - 1];
    RunGood(before);
    StepLifetime(Run(before).book, op, id);
    if i < |before| {
      GoneStaysGone(before, i, id);
    }
  }

  lemma {:induction false} OutcomesPrefix(ops: seq<Op>, n: nat)
    requires n <= |ops|
    ensures Run(ops[..n]).outcomes == Run(ops).outcomes[..n]
  {
    if n == |ops| {
      assert ops[..n] == ops;
    } else {
      OutcomesPrefix(ops[..|ops| - 1], n);
      assert ops[..|ops| - 1][..n] == ops[..n];
    }
  }

  /** An order that was filled completely or cancelled never trades, rests or cancels again, in any
      later step of any run. */
  lemma FinishedForGood(ops: seq<Op>, i: nat, j: nat, id: nat)
    requires i < j < |ops| && Finishes(Run(ops).outcomes[i], id)
    ensures !Involves(Run(ops).outcomes[j], id)
  {
    hide Run, Finishes, Involves, Rests, Good, Step, Trades;
    OutcomesPrefix(ops, j);
    OutcomesPrefix(ops, j + 1);
    assert Run(ops).outcomes[j] == Run(ops[..j + 1]).outcomes[j];
    assert Run(ops[..j]).outcomes[i] == Run(ops).outcomes[i];
    GoneStaysGone(ops[..j], i, id);
    RunGood(ops[..j]);
    assert ops[..j + 1] == ops[..j] + [ops[j]];
    RunSnoc(ops[..j], ops[j]);
    StepLifetime(Run(ops[..j]).book, ops[j], id);
  }

  function Submits(ops: seq<Op>): nat {
    if ops == [] then 0
    else Submits(ops[..|ops| - 1]) + if ops[|ops| - 1].Submit? then 1 else 0
  }

  lemma {:induction false} IdsCount(ops: seq<Op>)
    ensures Run(ops).book.nextId == Submits(ops)
  {
    if ops != [] {
      IdsCount(ops[..|ops| - 1]);
    }
  }

  /** Ids are 0, 1, 2, ... : the id of an accepted order is the number of orders accepted before it,
      whatever cancels came in between. */
  lemma IdsConsecutive(ops: seq<Op>, i: nat)
    requires i < |ops| && ops[i].Submit?
    ensures Run(ops).outcomes[i].Submitted? && Run(ops).outcomes[i].order.id == Submits(ops[..i])
  {
    hide Run, Submits, Trades;
    OutcomesPrefix(ops, i + 1);
    assert Run(ops).outcomes[i] == Run(ops[..i + 1]).outcomes[i];
    assert ops[..i + 1] == ops[..i] + [ops[i]];
    RunSnoc(ops[..i], ops[i]);
    IdsCount(ops[..i]);
  }

  // ------------------------------------------------------------------ submit and cancel

  lemma {:induction false} WithoutLast(resting: seq<Order>, o: Order)
    requires IdsBelow(resting, o.id)
    ensures Without(resting + [o], o.id) == resting
    ensures Lookup(resting + [o], o.id) == Some(o)
  {
    if resting != [] {
      assert (resting + [o])[1..] == resting[1..] + [o];
      WithoutLast(resting[1..], o);
    }
  }

  /** Cancelling an order right after submitting it leaves exactly what its fills alone left; with
      no fills the earlier list is back, and with it, by `IndexUnique`, the earlier hash map and
      queues.  An order with nothing left cannot be cancelled. */
  lemma CancelUndoesSubmit(b: Book, op: Op)
    requires Good(b) && op.Submit?
    ensures var (b1, o1) := Step(b, op);
            var (b2, o2) := Step(b1, Cancel(b.nextId, op.owner));
            var m := Match(b.resting, o1.order.At().Opposite(), op.qty);
            && b2 == Book(m.rest, b.nextId + 1)
            && (o1.fills == [] ==> b2.resting == b.resting)
            && o2 == (if o1.left > 0 then Cancelled(o1.order.(remaining := o1.left)) else Refused(UnknownOrder))
  {
    var (b1, o1) := Step(b, op);
    var lv := o1.order.At().Opposite();
    var m := Match(b.resting, lv, op.qty);
    MatchStubs(b.resting, lv, op.qty);
    ShrunkKeeps(b.resting, m.rest, b.nextId);
    MatchShrinks(b.resting, lv, op.qty);
    if m.fills == [] {
      NoFills(b.resting, lv, op.qty);
    }
    if m.left > 0 {
      WithoutLast(m.rest, o1.order.(remaining := m.left));
    } else {
      LookupFinds(m.rest, b.nextId);
    }
  }

  lemma {:induction false} NoFills(resting: seq<Order>, lv: Level, qty: nat)
    requires Match(resting, lv, qty).fills == []
    ensures Match(resting, lv, qty).rest == resting
  {
    if qty != 0 && resting != [] {
      NoFills(resting[1..], lv, qty);
    }
  }
}
