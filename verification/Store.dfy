/** The exchange as the source runs it: every operation of src/book.cpp as a total function on its two
    tables, whatever they hold.

    Until an order is put to rest under a 32-bit id that is still taken, the tables stand for the
    flat list of the reference in Book.dfy and everything the exchange does is what the reference
    does.  `Clashes` says, before the call, when that ends.  The class `Exchange` computes these
    functions in every case.
 */
module ExchangeStore {
  import opened Wrappers
  import opened Book
  import opened BookVolumes
  import opened BookOrders
  import opened ExchangeIndex

  /** The tables, and how many orders have been accepted.  A stored order carries its serial number as
      history; the source keeps the 32-bit id that it is stored under. */
  datatype Store = Store(count: nat, orders: map<nat, Order>, books: Index)

  const NO_ORDERS := Store(0, map[], map[])

  /** What the matching loop leaves. */
  datatype Swept = Swept(orders: map<nat, Order>, books: Index, fills: seq<Fill>, left: nat)

  /** The matching loop: fill the order at the front of the queue, drop an id that is not stored. */
  function Sweep(orders: map<nat, Order>, books: Index, lv: Level, qty: nat): Swept
    decreases qty, |QueueAt(books, lv)|
  {
    if qty == 0 || QueueAt(books, lv) == [] then Swept(orders, books, [], qty)
    else
      var w, popped := books[lv][0], books[lv := books[lv][1..]];
      if w !in orders then Sweep(orders, popped, lv, qty)
      else
        var other := orders[w];
        var q := Portion(other, qty);
        var sw :=
          if other.remaining == q then Sweep(orders - {w}, popped, lv, qty - q)
          else Sweep(orders[w := other.(remaining := other.remaining - q)], books, lv, qty - q);
        sw.(fills := [Fill(other, q)] + sw.fills)
  }

  /** An empty level is dropped. */
  function Tidy(books: Index, lv: Level): Index {
    if lv in books && books[lv] == [] then books - {lv} else books
  }

  /** The first occurrence of an id, or the length. */
  function Position(q: seq<nat>, w: nat): (pos: nat)
    ensures pos <= |q| && w !in q[..pos] && (pos < |q| ==> q[pos] == w)
  {
    if q == [] || q[0] == w then 0
    else
      var pos := Position(q[1..], w);
      assert q[..pos + 1] == [q[0]] + q[1..][..pos];
      pos + 1
  }

  function Erase(q: seq<nat>, w: nat): seq<nat> {
    var pos := Position(q, w);
    if pos < |q| then q[..pos] + q[pos + 1..] else q
  }

  function Delisted(books: Index, lv: Level, w: nat): Index {
    if lv in books then Tidy(books[lv := Erase(books[lv], w)], lv) else books
  }

  /** One request on the tables; a cancel names the order by its 32-bit id. */
  function Perform(st: Store, req: Op): (Store, Outcome) {
    match req
    case Submit(side, inst, qty, price, owner) =>
      var o := Order(st.count, side, inst, price, qty, owner);
      var sw := Sweep(st.orders, st.books, o.At().Opposite(), qty);
      var books := Tidy(sw.books, o.At().Opposite());
      (if sw.left == 0 then Store(st.count + 1, sw.orders, books)
       else Store(st.count + 1, Emplace(sw.orders, o.(remaining := sw.left)), Pushed(books, o.At(), WireId(o.id))),
       Submitted(o, sw.fills, sw.left))
    case Cancel(w, canceller) =>
      if w !in st.orders then (st, Refused(UnknownOrder))
      else if st.orders[w].owner != canceller then (st, Refused(NotYourOrder))
      else
        (st.(orders := st.orders - {w}, books := Delisted(st.books, st.orders[w].At(), w)), Cancelled(st.orders[w]))
  }

  /** A whole run from empty tables. */
  datatype Ran = Ran(store: Store, outs: seq<Outcome>)

  function Performed(reqs: seq<Op>): (r: Ran)
    ensures |r.outs| == |reqs|
  {
    if reqs == [] then Ran(NO_ORDERS, [])
    else
      var r := Performed(reqs[..|reqs| - 1]);
      var (st, o) := Perform(r.store, reqs[|reqs| - 1]);
      Ran(st, r.outs + [o])
  }

  lemma PerformedSnoc(reqs: seq<Op>, req: Op)
    ensures var r := Performed(reqs);
            var (st, o) := Perform(r.store, req);
            Performed(reqs + [req]) == Ran(st, r.outs + [o])
  {
    assert (reqs + [req])[..|reqs|] == reqs;
  }

  // ------------------------------------------------------------------ what every run keeps

  /** Stored orders have the ids they are stored under, and have been accepted. */
  ghost predicate Keyed(st: Store) {
    forall w :: w in st.orders ==> WireId(st.orders[w].id) == w && st.orders[w].id < st.count
  }

  /** Order number `id` of `owner` has been accepted. */
  ghost predicate SubmittedIn(outs: seq<Outcome>, id: nat, owner: int) {
    exists j :: 0 <= j < |outs| && outs[j].Submitted? && outs[j].order.id == id && outs[j].order.owner == owner
  }

  ghost predicate Sourced(orders: map<nat, Order>, outs: seq<Outcome>) {
    forall w :: w in orders ==> SubmittedIn(outs, orders[w].id, orders[w].owner)
  }

  /** What is filled or cancelled is an order accepted before. */
  ghost predicate Rooted(outs: seq<Outcome>, o: Outcome) {
    match o
    case Submitted(order, fills, left) =>
      forall i :: 0 <= i < |fills| ==> SubmittedIn(outs, fills[i].maker.id, fills[i].maker.owner)
    case Cancelled(order) => SubmittedIn(outs, order.id, order.owner)
    case Refused(_) => true
  }

  ghost predicate Grounded(outs: seq<Outcome>) {
    forall k :: 0 <= k < |outs| ==> Rooted(outs[..k], outs[k])
  }

  /** Orders accepted so far. */
  function AcceptedCount(outs: seq<Outcome>): nat {
    if outs == [] then 0 else AcceptedCount(outs[..|outs| - 1]) + if outs[|outs| - 1].Submitted? then 1 else 0
  }

  /** Accepted orders are numbered 0, 1, 2, ... */
  ghost predicate Numbered(outs: seq<Outcome>) {
    forall k :: 0 <= k < |outs| && outs[k].Submitted? ==> outs[k].order.id == AcceptedCount(outs[..k])
  }

  lemma {:induction false} SweepKeyed(orders: map<nat, Order>, books: Index, lv: Level, qty: nat, count: nat)
    requires Keyed(Store(count, orders, books))
    ensures var sw := Sweep(orders, books, lv, qty); Keyed(Store(count, sw.orders, sw.books))
    decreases qty, |QueueAt(books, lv)|
  {
    hide WireId;
    if qty > 0 && QueueAt(books, lv) != [] {
      var w, popped := books[lv][0], books[lv := books[lv][1..]];
      if w !in orders {
        SweepKeyed(orders, popped, lv, qty, count);
      } else {
        var q := Portion(orders[w], qty);
        if orders[w].remaining == q {
          SweepKeyed(orders - {w}, popped, lv, qty - q, count);
        } else {
          SweepKeyed(orders[w := orders[w].(remaining := orders[w].remaining - q)], books, lv, qty - q, count);
        }
      }
    }
  }

  lemma {:induction false} SweepSourced(orders: map<nat, Order>, books: Index, lv: Level, qty: nat, outs: seq<Outcome>)
    requires Sourced(orders, outs)
    ensures var sw := Sweep(orders, books, lv, qty);
            && Sourced(sw.orders, outs)
            && forall i :: 0 <= i < |sw.fills| ==> SubmittedIn(outs, sw.fills[i].maker.id, sw.fills[i].maker.owner)
    decreases qty, |QueueAt(books, lv)|
  {
    hide SubmittedIn;
    if qty > 0 && QueueAt(books, lv) != [] {
      var w, popped := books[lv][0], books[lv := books[lv][1..]];
      if w !in orders {
        SweepSourced(orders, popped, lv, qty, outs);
      } else {
        var q := Portion(orders[w], qty);
        if orders[w].remaining == q {
          SweepSourced(orders - {w}, popped, lv, qty - q, outs);
        } else {
          SweepSourced(orders[w := orders[w].(remaining := orders[w].remaining - q)], books, lv, qty - q, outs);
        }
      }
    }
  }

  lemma SubmittedMore(outs: seq<Outcome>, o: Outcome, id: nat, owner: int)
    ensures SubmittedIn(outs, id, owner) ==> SubmittedIn(outs + [o], id, owner)
    ensures o.Submitted? ==> SubmittedIn(outs + [o], o.order.id, o.order.owner)
  {
    if SubmittedIn(outs, id, owner) {
      var j :| 0 <= j < |outs| && outs[j].Submitted? && outs[j].order.id == id && outs[j].order.owner == owner;
      assert (outs + [o])[j] == outs[j];
    }
    assert (outs + [o])[|outs|] == o;
  }

  lemma PerformKeeps(st: Store, req: Op, outs: seq<Outcome>)
    requires Keyed(st) && Sourced(st.orders, outs)
    ensures var (st', o) := Perform(st, req);
            && Keyed(st') && Sourced(st'.orders, outs + [o]) && Rooted(outs, o)
            && st'.count == st.count + (if o.Submitted? then 1 else 0)
            && (o.Submitted? <==> req.Submit?)
            && (o.Submitted? ==> o.order.id == st.count && o.order.owner == req.owner)
  {
    hide WireId, SubmittedIn;
    var (st', o) := Perform(st, req);
    if req.Submit? {
      var lv := o.order.At().Opposite();
      SweepKeyed(st.orders, st.books, lv, req.qty, st.count);
      SweepSourced(st.orders, st.books, lv, req.qty, outs);
    }
    forall w | w in st'.orders
      ensures SubmittedIn(outs + [o], st'.orders[w].id, st'.orders[w].owner)
    {
      SubmittedMore(outs, o, st'.orders[w].id, st'.orders[w].owner);
    }
  }

  lemma GroundedSnoc(outs: seq<Outcome>, o: Outcome)
    requires Grounded(outs) && Numbered(outs) && Rooted(outs, o) && (o.Submitted? ==> o.order.id == AcceptedCount(outs))
    ensures Grounded(outs + [o]) && Numbered(outs + [o])
    ensures AcceptedCount(outs + [o]) == AcceptedCount(outs) + if o.Submitted? then 1 else 0
  {
    hide Rooted;
    var all := outs + [o];
    assert all[..|outs|] == outs;
    forall k | 0 <= k < |all|
      ensures Rooted(all[..k], all[k])
      ensures all[k].Submitted? ==> all[k].order.id == AcceptedCount(all[..k])
    {
      if k < |outs| {
        assert all[..k] == outs[..k] && all[k] == outs[k];
      }
    }
  }

  /** Whatever the requests: stored orders have been accepted and have the ids they are stored under;
      only accepted orders are ever filled or cancelled; and accepted orders are numbered in
      sequence. */
  lemma {:induction false} PerformedKeeps(reqs: seq<Op>)
    ensures var r := Performed(reqs);
            && Keyed(r.store) && Sourced(r.store.orders, r.outs)
            && Grounded(r.outs) && Numbered(r.outs) && r.store.count == AcceptedCount(r.outs) == Submits(reqs)
            && forall k :: 0 <= k < |reqs| ==>
                 && (r.outs[k].Submitted? <==> reqs[k].Submit?)
                 && (r.outs[k].Submitted? ==> r.outs[k].order.owner == reqs[k].owner)
  {
    if reqs != [] {
      hide Perform, Performed, Keyed, Sourced, Grounded, Numbered, Rooted, AcceptedCount;
      var before, req := reqs[..|reqs| - 1], reqs[|reqs| - 1];
      var r := Performed(before);
      PerformedKeeps(before);
      PerformedSnoc(before, req);
      assert reqs == before + [req];
      PerformKeeps(r.store, req, r.outs);
      GroundedSnoc(r.outs, Perform(r.store, req).1);
    } else {
      assert AcceptedCount([]) == 0;
    }
  }

  // ------------------------------------------------------------------ quantities

  ghost predicate Stocked(orders: map<nat, Order>) {
    forall w :: w in orders ==> orders[w].remaining > 0
  }

  ghost predicate FillsWithin(fills: seq<Fill>, qty: nat) {
    forall i :: 0 <= i < |fills| ==> 1 <= fills[i].qty <= qty
  }

  lemma {:induction false} SweepWithin(orders: map<nat, Order>, books: Index, lv: Level, qty: nat)
    requires Stocked(orders)
    ensures var sw := Sweep(orders, books, lv, qty); Stocked(sw.orders) && FillsWithin(sw.fills, qty)
    decreases qty, |QueueAt(books, lv)|
  {
    if qty > 0 && QueueAt(books, lv) != [] {
      var w, popped := books[lv][0], books[lv := books[lv][1..]];
      if w !in orders {
        SweepWithin(orders, popped, lv, qty);
      } else {
        var q := Portion(orders[w], qty);
        if orders[w].remaining == q {
          SweepWithin(orders - {w}, popped, lv, qty - q);
        } else {
          SweepWithin(orders[w := orders[w].(remaining := orders[w].remaining - q)], books, lv, qty - q);
        }
      }
    }
  }

  /** What an accepted order is: the one asked for, filled in portions of at least one that do not
      exceed it. */
  ghost predicate Fulfils(req: Op, o: Outcome) {
    o.Submitted? ==>
      && req.Submit?
      && o.order == Order(o.order.id, req.side, req.inst, req.price, req.qty, req.owner)
      && FillsWithin(o.fills, req.qty)
  }

  lemma {:induction false} PerformedWithin(reqs: seq<Op>)
    ensures var r := Performed(reqs);
            Stocked(r.store.orders) && forall k :: 0 <= k < |reqs| ==> Fulfils(reqs[k], r.outs[k])
  {
    if reqs != [] {
      hide Performed, FillsWithin, Sweep;
      var before, req := reqs[..|reqs| - 1], reqs[|reqs| - 1];
      var r := Performed(before);
      PerformedWithin(before);
      PerformedSnoc(before, req);
      assert reqs == before + [req];
      if req.Submit? {
        SweepWithin(r.store.orders, r.store.books, Level(req.inst, req.side, req.price).Opposite(), req.qty);
      }
    }
  }

  // ------------------------------------------------------------------ agreement with the reference

  /** The tables hold exactly the orders of the reference book. */
  ghost predicate Agrees(st: Store, b: Book) {
    st.count == b.nextId && Indexed(st.orders, st.books, b.resting)
  }

  lemma {:induction false} SweepAgrees(orders: map<nat, Order>, books: Index, cur: seq<Order>, lv: Level, qty: nat)
    requires Mid(orders, books, cur, lv) && DistinctWire(cur) && Positive(cur)
    ensures var sw, m := Sweep(orders, books, lv, qty), Match(cur, lv, qty);
            sw.fills == m.fills && sw.left == m.left && Mid(sw.orders, sw.books, m.rest, lv) && DistinctWire(m.rest)
    decreases qty, |QueueAt(books, lv)|
  {
    hide Mid, DistinctWire, Queue, First, Match, WireId;
    if qty == 0 || QueueAt(books, lv) == [] {
      CleanUp(orders, books, cur, lv);
      MatchEmpty(cur, lv, qty);
    } else {
      Front(orders, books, cur, lv);
      var w, k := books[lv][0], First(cur, lv);
      var q := Portion(orders[w], qty);
      var left := orders[w].remaining - q;
      MatchStep(cur, lv, qty);
      ReduceKeeps(cur, k, left);
      if left == 0 {
        TurnFilled(orders, books, cur, lv);
        SweepAgrees(orders - {w}, books[lv := books[lv][1..]], Reduce(cur, k, 0), lv, qty - q);
      } else {
        TurnPartial(orders, books, cur, lv, left);
        SweepAgrees(orders[w := orders[w].(remaining := left)], books, Reduce(cur, k, left), lv, qty - q);
      }
    }
  }

  /** The operation of the reference that a request amounts to. */
  function MeantBy(b: Book, req: Op): Op {
    if req.Cancel? then req.(id := Resolve(b, req.id)) else req
  }

  ghost predicate LegalId(req: Op) {
    req.Cancel? ==> req.id < ID_SPACE
  }

  /** The stored orders after a submit whose remainder found its id still taken. */
  ghost predicate LosesRemainder(st: Store, b: Book, op: Op)
    requires op.Submit?
  {
    var o := Step(b, op).1;
    Lost(st.orders, st.books, Match(b.resting, o.order.At().Opposite(), op.qty).rest, o.order.(remaining := o.left))
  }

  lemma SubmitAgrees(st: Store, b: Book, op: Op)
    requires Agrees(st, b) && Good(b) && DistinctWire(b.resting) && op.Submit?
    ensures Perform(st, op).1 == Step(b, op).1
    ensures DistinctWire(Step(b, op).0.resting) ==> Agrees(Perform(st, op).0, Step(b, op).0)
    ensures !DistinctWire(Step(b, op).0.resting) ==>
              Step(b, op).1.left > 0 && LosesRemainder(Perform(st, op).0, b, op)
  {
    hide Match, Sweep, Indexed, Mid, Lost, DistinctWire, WireId, Positive;
    var o := Order(b.nextId, op.side, op.inst, op.price, op.qty, op.owner);
    var lv := o.At().Opposite();
    var sw, m := Sweep(st.orders, st.books, lv, op.qty), Match(b.resting, lv, op.qty);
    MidStarts(st.orders, st.books, b.resting, lv);
    SweepAgrees(st.orders, st.books, b.resting, lv, op.qty);
    CleanUp(sw.orders, sw.books, m.rest, lv);
    if m.left > 0 {
      RestNeedsFreeId(sw.orders, Tidy(sw.books, lv), m.rest, o.(remaining := m.left));
    }
  }

  /** An id is in the hash map exactly when an order rests under it, and it is that order. */
  lemma FindStored(st: Store, b: Book, w: nat)
    requires Agrees(st, b)
    ensures w in st.orders <==> FindWire(b.resting, w).Some?
    ensures w in st.orders && DistinctWire(b.resting) ==> FindWire(b.resting, w) == Some(st.orders[w])
  {
    hide WireId, QueuesMatch, NoEmptyLevel, DistinctWire;
    FindWireFinds(b.resting, w);
    if FindWire(b.resting, w).Some? {
      var i :| 0 <= i < |b.resting| && b.resting[i] == FindWire(b.resting, w).value;
    }
  }

  lemma CancelAgrees(st: Store, b: Book, req: Op)
    requires Agrees(st, b) && Good(b) && DistinctWire(b.resting) && req.Cancel? && LegalId(req)
    ensures var op := MeantBy(b, req);
            && Perform(st, req).1 == Step(b, op).1
            && Agrees(Perform(st, req).0, Step(b, op).0) && DistinctWire(Step(b, op).0.resting)
  {
    hide Indexed, WireId, DistinctWire, FindWire, Resolve, Lookup, Without, Position, Mid;
    hide Positive, Uncrossed, IdsBelow;
    ResolveHits(b, req.id);
    FindStored(st, b, req.id);
    if req.id in st.orders && st.orders[req.id].owner == req.canceller {
      var o := st.orders[req.id];
      ResolveIs(b, req.id);
      FindWireFinds(b.resting, req.id);
      var q := QueueAt(st.books, o.At());
      Unlinked(st.orders, st.books, b.resting, o, Position(q, req.id));
      CleanUp(st.orders - {req.id}, st.books[o.At() := Erase(q, req.id)], Without(b.resting, o.id), o.At());
      WithoutDistinct(b.resting, o);
    }
  }

  lemma ResolveIs(b: Book, w: nat)
    ensures FindWire(b.resting, w).Some? ==> Resolve(b, w) == FindWire(b.resting, w).value.id
  {
  }

  lemma WithoutDistinct(resting: seq<Order>, o: Order)
    requires DistinctWire(resting) && o in resting
    ensures DistinctWire(Without(resting, o.id))
  {
    hide WireId;
    var k :| 0 <= k < |resting| && resting[k] == o;
    WithoutAt(resting, k);
    DistinctRemove(resting, k);
  }

  /** One request that does not clash: the tables answer like the reference and still stand for it. */
  lemma PerformAgrees(st: Store, b: Book, req: Op)
    requires Agrees(st, b) && Good(b) && DistinctWire(b.resting) && LegalId(req)
    ensures var op := MeantBy(b, req);
            && Perform(st, req).1 == Step(b, op).1
            && (DistinctWire(Step(b, op).0.resting) ==> Agrees(Perform(st, req).0, Step(b, op).0))
  {
    hide Agrees, Good, DistinctWire, Perform, Step, Resolve;
    if req.Submit? {
      SubmitAgrees(st, b, req);
    } else {
      CancelAgrees(st, b, req);
    }
  }

  // ------------------------------------------------------------------ when an id clashes

  /** Known before the call: the new order outlasts everything on the opposite side at its price, and
      its id is taken by an order that rests somewhere else. */
  ghost predicate Clashes(b: Book, op: Op) {
    && op.Submit?
    && var opp := Level(op.inst, op.side, op.price).Opposite();
       && op.qty > Depth(b.resting, opp, Anyone)
       && exists p :: p in b.resting && p.At() != opp && WireId(p.id) == WireId(b.nextId)
  }

  lemma {:induction false} MatchDepth(resting: seq<Order>, lv: Level, qty: nat)
    ensures var m := Match(resting, lv, qty);
            Depth(resting, lv, Anyone) == Depth(m.rest, lv, Anyone) + Filled(m.fills)
  {
    if qty != 0 && resting != [] {
      var o, t := resting[0], resting[1..];
      assert resting == [o] + t;
      if o.At() != lv {
        MatchDepth(t, lv, qty);
        DepthCons(o, Match(t, lv, qty).rest, lv, Anyone);
      } else if o.remaining <= qty {
        MatchDepth(t, lv, qty - o.remaining);
      } else {
        DepthCons(o.(remaining := o.remaining - qty), t, lv, Anyone);
        assert Filled([Fill(o, qty)]) == qty + Filled([Fill(o, qty)][1..]);
      }
    }
  }

  /** Something is left over exactly when the order is larger than the opposite depth. */
  lemma LeftOver(resting: seq<Order>, lv: Level, qty: nat)
    requires Ascending(resting) && Positive(resting)
    ensures Match(resting, lv, qty).left > 0 <==> qty > Depth(resting, lv, Anyone)
  {
    hide Match, Depth, Filled;
    MatchDepth(resting, lv, qty);
    MatchSplitsQty(resting, lv, qty);
    MatchShrinks(resting, lv, qty);
    if Match(resting, lv, qty).left > 0 {
      DepthClear(Match(resting, lv, qty).rest, lv, Anyone);
    }
  }

  lemma {:induction false} ElsewhereMembers(resting: seq<Order>, lv: Level)
    ensures forall o :: o in Elsewhere(resting, lv) <==> o in resting && o.At() != lv
  {
    if resting != [] {
      ElsewhereMembers(resting[1..], lv);
      assert resting == [resting[0]] + resting[1..];
    }
  }

  lemma MatchDistinct(resting: seq<Order>, lv: Level, qty: nat)
    requires Ascending(resting) && Positive(resting) && DistinctWire(resting)
    ensures DistinctWire(Match(resting, lv, qty).rest)
  {
    hide Match, WireId;
    var rest := Match(resting, lv, qty).rest;
    MatchStubs(resting, lv, qty);
    MatchShrinks(resting, lv, qty);
    forall i, j | 0 <= i < j < |rest|
      ensures WireId(rest[i].id) != WireId(rest[j].id)
    {
      var k := StubAt(resting, rest, i);
      var l := StubAt(resting, rest, j);
      assert resting[k].id < resting[l].id;
    }
  }

  lemma StubAt(before: seq<Order>, after: seq<Order>, i: nat) returns (k: nat)
    requires i < |after| && Stubs(after) <= Stubs(before)
    ensures k < |before| && before[k].id == after[i].id
  {
    StubsOf(after, i);
    var p :| p in before && p.(remaining := 0) == after[i].(remaining := 0);
    assert p.id == p.(remaining := 0).id == after[i].(remaining := 0).id == after[i].id;
    k :| 0 <= k < |before| && before[k] == p;
  }

  /** The exact condition, on what is known before the call: after a submit two orders of the
      reference share a 32-bit id if and only if it clashes. */
  lemma ClashExactly(b: Book, op: Op)
    requires Good(b) && DistinctWire(b.resting) && op.Submit?
    ensures !DistinctWire(Step(b, op).0.resting) <==> Clashes(b, op)
  {
    hide Match, WireId, Depth, Elsewhere, Uncrossed;
    var opp := Level(op.inst, op.side, op.price).Opposite();
    var m := Match(b.resting, opp, op.qty);
    LeftOver(b.resting, opp, op.qty);
    MatchDistinct(b.resting, opp, op.qty);
    if m.left > 0 {
      MatchShrinks(b.resting, opp, op.qty);
      OthersUntouched(b.resting, opp, op.qty);
      ElsewhereMembers(b.resting, opp);
      ElsewhereMembers(m.rest, opp);
      ClashLast(m.rest, Order(b.nextId, op.side, op.inst, op.price, m.left, op.owner));
      assert forall p :: p in m.rest <==> p in Elsewhere(m.rest, opp);
    }
  }

  lemma ClashLast(rest: seq<Order>, o: Order)
    requires DistinctWire(rest)
    ensures !DistinctWire(rest + [o]) <==> exists p :: p in rest && WireId(p.id) == WireId(o.id)
  {
    hide WireId;
    var all := rest + [o];
    if p :| p in rest && WireId(p.id) == WireId(o.id) {
      var i :| 0 <= i < |rest| && rest[i] == p;
      assert all[i] == p && all[|rest|] == o;
    } else {
      forall i, j | 0 <= i < j < |all|
        ensures WireId(all[i].id) != WireId(all[j].id)
      {
        assert all[i] == rest[i];
        if j < |rest| {
          assert all[j] == rest[j];
        }
      }
    }
  }

  /** The same condition read off the tables: the counter's id is in the hash map, its order rests at
      another level than the one about to be matched, and the quantity exceeds what waits there. */
  lemma ClashOnTables(st: Store, b: Book, op: Op)
    requires Agrees(st, b) && DistinctWire(b.resting) && op.Submit?
    ensures var opp, w := Level(op.inst, op.side, op.price).Opposite(), WireId(st.count);
            Clashes(b, op) <==>
            w in st.orders && st.orders[w].At() != opp && op.qty > Waiting(st.orders, QueueAt(st.books, opp))
  {
    hide WireId, Depth, Waiting;
    var opp, w := Level(op.inst, op.side, op.price).Opposite(), WireId(st.count);
    assert QueueAt(st.books, opp) == Queue(b.resting, opp);
    WaitingDepth(st.orders, b.resting, opp);
    FindStored(st, b, w);
    FindWireFinds(b.resting, w);
  }

  /** The total of the stored orders under some ids. */
  function Waiting(orders: map<nat, Order>, q: seq<nat>): nat {
    if q == [] then 0
    else (if q[0] in orders then orders[q[0]].remaining else 0) + Waiting(orders, q[1..])
  }

  lemma {:induction false} WaitingDepth(orders: map<nat, Order>, resting: seq<Order>, lv: Level)
    requires forall i :: 0 <= i < |resting| ==>
               WireId(resting[i].id) in orders && orders[WireId(resting[i].id)] == resting[i]
    ensures Waiting(orders, Queue(resting, lv)) == Depth(resting, lv, Anyone)
  {
    hide WireId;
    if resting != [] {
      WaitingDepth(orders, resting[1..], lv);
    }
  }

  /** What a clash costs: the stored orders are short of the reference by exactly the remainder at its
      level, and by nothing elsewhere, and the id stands in the queue of the older order and
      again in that of the lost one. */
  lemma WrapLosesRemainder(st: Store, b: Book, op: Op, lv: Level, who: Who)
    requires Agrees(st, b) && Good(b) && DistinctWire(b.resting) && op.Submit? && Clashes(b, op)
    ensures var (b', out) := Step(b, op);
            var after, w := Perform(st, op).0, WireId(b.nextId);
            var stored := Match(b.resting, out.order.At().Opposite(), op.qty).rest;
            && OrdersMatch(after.orders, stored)
            && Depth(b'.resting, lv, who) ==
               Depth(stored, lv, who) + (if lv == out.order.At() && who.Covers(op.owner) then out.left else 0)
            && out.left > 0 && w in after.orders && w in QueueAt(after.books, after.orders[w].At())
            && (exists q :: QueueAt(after.books, out.order.At()) == q + [w]
                            && (after.orders[w].At() == out.order.At() ==> w in q))
  {
    hide Match, WireId, Perform, Agrees, Good;
    ClashExactly(b, op);
    SubmitAgrees(st, b, op);
    var (b', out) := Step(b, op);
    var after, w := Perform(st, op).0, WireId(b.nextId);
    var stored := Match(b.resting, out.order.At().Opposite(), op.qty).rest;
    var rested := out.order.(remaining := out.left);
    DepthConcat(stored, [rested], lv, who);
    assert [rested][1..] == [];
    var q := Queue(stored, out.order.At());
    assert QueueAt(after.books, out.order.At()) == q + [w];
    var i :| 0 <= i < |stored| && stored[i] == after.orders[w];
    QueueMembers(stored, after.orders[w].At(), w);
  }

  /** What the queued id does next: with nothing else at the level of the lost order, an order on the
      other side there is filled by the older order, which rests somewhere else. */
  lemma WrapFillsStranger(st: Store, b: Book, op: Op, other: int)
    requires Agrees(st, b) && Good(b) && DistinctWire(b.resting) && op.Submit? && Clashes(b, op)
    requires Clear(b.resting, Level(op.inst, op.side, op.price))
    ensures var after, w := Perform(st, op).0, WireId(b.nextId);
            && w in after.orders && after.orders[w].At() != Level(op.inst, op.side, op.price)
            && Perform(after, Submit(op.side.Opposite(), op.inst, 1, op.price, other)).1.fills ==
               [Fill(after.orders[w], 1)]
  {
    hide Match, WireId, Indexed, Uncrossed, DistinctWire, Depth;
    ClashExactly(b, op);
    SubmitAgrees(st, b, op);
    var lv := Level(op.inst, op.side, op.price);
    var after, w := Perform(st, op).0, WireId(b.nextId);
    var stored := Match(b.resting, lv.Opposite(), op.qty).rest;
    MatchShrinks(b.resting, lv.Opposite(), op.qty);
    MatchStubs(b.resting, lv.Opposite(), op.qty);
    StillClear(b.resting, stored, lv);
    QueueClear(stored, lv);
    var p := after.orders[w];
    var i :| 0 <= i < |stored| && stored[i] == p;
    assert QueueAt(after.books, lv) == Queue(stored, lv) + [w];
    OneFill(after, lv, w);
  }

  lemma StillClear(before: seq<Order>, after: seq<Order>, lv: Level)
    requires Stubs(after) <= Stubs(before) && Clear(before, lv)
    ensures Clear(after, lv)
  {
    forall i | 0 <= i < |after|
      ensures after[i].At() != lv
    {
      StubsOf(after, i);
      var p :| p in before && p.(remaining := 0) == after[i].(remaining := 0);
      assert p.At() == p.(remaining := 0).At() == after[i].(remaining := 0).At() == after[i].At();
    }
  }

  lemma {:induction false} QueueClear(resting: seq<Order>, lv: Level)
    requires Clear(resting, lv)
    ensures Queue(resting, lv) == []
  {
    if resting != [] {
      QueueClear(resting[1..], lv);
    }
  }

  lemma OneFill(st: Store, lv: Level, w: nat)
    requires QueueAt(st.books, lv) == [w] && w in st.orders && st.orders[w].remaining > 0
    ensures Sweep(st.orders, st.books, lv, 1).fills == [Fill(st.orders[w], 1)]
  {
    var p := st.orders[w];
    var popped := st.books[lv := st.books[lv][1..]];
    assert Sweep(st.orders - {w}, popped, lv, 0).fills == [];
    assert Sweep(st.orders[w := p.(remaining := p.remaining - 1)], st.books, lv, 0).fills == [];
  }

  // ------------------------------------------------------------------ whole runs

  /** The operations of the reference that a list of requests amounts to. */
  function Meant(reqs: seq<Op>): (ops: seq<Op>)
    ensures |ops| == |reqs|
  {
    if reqs == [] then []
    else
      var ops := Meant(reqs[..|reqs| - 1]);
      ops + [MeantBy(Run(ops).book, reqs[|reqs| - 1])]
  }

  lemma MeantSnoc(reqs: seq<Op>, req: Op)
    ensures Meant(reqs + [req]) == Meant(reqs) + [MeantBy(Run(Meant(reqs)).book, req)]
  {
    assert (reqs + [req])[..|reqs|] == reqs;
  }

  /** No submit of the run clashes. */
  ghost predicate ClashFree(ops: seq<Op>) {
    forall n :: 0 <= n < |ops| ==> !Clashes(Run(ops[..n]).book, ops[n])
  }

  lemma ClashFreeSnoc(ops: seq<Op>, op: Op)
    ensures ClashFree(ops + [op]) <==> ClashFree(ops) && !Clashes(Run(ops).book, op)
  {
    hide Clashes, Run;
    var all := ops + [op];
    assert all[..|ops|] == ops && all[|ops|] == op;
    forall n | 0 <= n < |ops|
      ensures all[..n] == ops[..n] && all[n] == ops[n]
    {
    }
    if ClashFree(all) {
      forall n | 0 <= n < |ops|
        ensures !Clashes(Run(ops[..n]).book, ops[n])
      {
        assert !Clashes(Run(all[..n]).book, all[n]);
      }
    }
  }

  /** Refinement over whole runs: while no submit has clashed, the tables have given the answers of
      the reference, in order, and hold exactly its resting orders. */
  lemma {:induction false} RunAgrees(reqs: seq<Op>)
    requires (forall i :: 0 <= i < |reqs| ==> LegalId(reqs[i])) && ClashFree(Meant(reqs))
    ensures var h, r := Run(Meant(reqs)), Performed(reqs);
            r.outs == h.outcomes && Agrees(r.store, h.book) && DistinctWire(h.book.resting)
  {
    if reqs == [] {
      assert Run([]).book.resting == [];
    } else {
      hide Run, Performed, Meant, Clashes, DistinctWire, Agrees, Perform, Step;
      hide Good, ClashFree, Trades, LegalId, MeantBy;
      var before, req := reqs[..|reqs| - 1], reqs[|reqs| - 1];
      var ops := Meant(before);
      var b := Run(ops).book;
      var op := MeantBy(b, req);
      assert before + [req] == reqs;
      MeantSnoc(before, req);
      ClashFreeSnoc(ops, op);
      RunAgrees(before);
      RunGood(ops);
      RunSnoc(ops, op);
      PerformedSnoc(before, req);
      PerformAgrees(Performed(before).store, b, req);
      StepDistinct(b, op);
    }
  }

  lemma StepDistinct(b: Book, op: Op)
    requires Good(b) && DistinctWire(b.resting) && !Clashes(b, op)
    ensures DistinctWire(Step(b, op).0.resting)
  {
    if op.Submit? {
      ClashExactly(b, op);
    } else {
      LookupFinds(b.resting, op.id);
      if Lookup(b.resting, op.id).Some? {
        WithoutDistinct(b.resting, Lookup(b.resting, op.id).value);
      }
    }
  }

  /** Until 2^32 orders have been accepted nothing clashes, and ids mean what they say. */
  lemma {:induction false} EarlyRuns(reqs: seq<Op>)
    requires (forall i :: 0 <= i < |reqs| ==> LegalId(reqs[i])) && Submits(reqs) <= ID_SPACE
    ensures Meant(reqs) == reqs && ClashFree(reqs)
  {
    if reqs != [] {
      hide Run, Good, Resolve, Clashes, ClashFree, WireId;
      var before, req := reqs[..|reqs| - 1], reqs[|reqs| - 1];
      EarlyRuns(before);
      IdsCount(before);
      RunGood(before);
      EarlyMeaning(Run(before).book, req);
      assert reqs == before + [req];
      ClashFreeSnoc(before, req);
    }
  }

  lemma EarlyMeaning(b: Book, req: Op)
    requires Good(b) && LegalId(req) && b.nextId + (if req.Submit? then 1 else 0) <= ID_SPACE
    ensures MeantBy(b, req) == req && !Clashes(b, req)
  {
    if req.Cancel? {
      FindWireFinds(b.resting, req.id);
    }
  }
}
