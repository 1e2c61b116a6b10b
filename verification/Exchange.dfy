/** The class `Exchange` of src/book.hpp and src/book.cpp: the tables as mutable fields and the
    operations as loops over them.  Every operation computes the function of Store.dfy, in every
    state, and so behaves like the reference of Book.dfy until an id clashes. */
module ExchangeClass {
  import opened Wrappers
  import opened Book
  import opened ExchangeIndex
  import opened ExchangeStore

  /** `std::find` over a queue: the position of `id`, or the length. */
  method Find(q: seq<nat>, id: nat) returns (pos: nat)
    ensures pos == Position(q, id)
  {
    pos := 0;
    while pos < |q| && q[pos] != id
      invariant pos <= |q|
      invariant id !in q[..pos]
    {
      pos := pos + 1;
    }
    PositionIs(q, id, pos);
  }

  lemma {:induction false} PositionIs(q: seq<nat>, w: nat, pos: nat)
    requires pos <= |q| && w !in q[..pos] && (pos < |q| ==> q[pos] == w)
    ensures Position(q, w) == pos
  {
    if pos > 0 {
      assert q[..pos] == [q[0]] + q[1..][..pos - 1];
      PositionIs(q[1..], w, pos - 1);
    }
  }

  /** The orders as the source stores them, with their 32-bit ids. */
  function Stored(orders: map<nat, Order>): map<nat, Order> {
    map w | w in orders :: orders[w].(id := w)
  }

  lemma StoredChanges(orders: map<nat, Order>, w: nat, o: Order)
    ensures Stored(orders - {w}) == Stored(orders) - {w}
    ensures Stored(orders[w := o]) == Stored(orders)[w := o.(id := w)]
  {
  }

  lemma TradesSame(taker: Order, id: nat, fills: seq<Fill>)
    ensures TradesOf(taker.(id := id), fills) == TradesOf(taker, fills)
  {
  }

  lemma WireNext(n: nat)
    ensures WireId(n + 1) == (WireId(n) + 1) % ID_SPACE
  {
  }

  /** `fills` followed by what is still to be swept is the whole sweep. */
  ghost predicate Continues(whole: Swept, fills: seq<Fill>, sw: Swept) {
    whole == sw.(fills := fills + sw.fills)
  }

  /** One turn of the loop on an id that is stored. */
  lemma FillTurn(orders: map<nat, Order>, books: Index, lv: Level, qty: nat, whole: Swept, fills: seq<Fill>)
    requires qty > 0 && lv in books && books[lv] != [] && books[lv][0] in orders
    requires Continues(whole, fills, Sweep(orders, books, lv, qty))
    ensures var w := books[lv][0];
            var q := Portion(orders[w], qty);
            Continues(whole, fills + [Fill(orders[w], q)],
                      if orders[w].remaining == q then Sweep(orders - {w}, books[lv := books[lv][1..]], lv, qty - q)
                      else Sweep(orders[w := orders[w].(remaining := orders[w].remaining - q)], books, lv, qty - q))
  {
    var w := books[lv][0];
    var q := Portion(orders[w], qty);
    var sw :=
      if orders[w].remaining == q then Sweep(orders - {w}, books[lv := books[lv][1..]], lv, qty - q)
      else Sweep(orders[w := orders[w].(remaining := orders[w].remaining - q)], books, lv, qty - q);
    assert fills + ([Fill(orders[w], q)] + sw.fills) == fills + [Fill(orders[w], q)] + sw.fills;
  }

  lemma Stale(orders: map<nat, Order>, books: Index, lv: Level, qty: nat)
    requires qty > 0 && lv in books && books[lv] != [] && books[lv][0] !in orders
    ensures Sweep(orders, books, lv, qty) == Sweep(orders, books[lv := books[lv][1..]], lv, qty)
  {
  }

  lemma Done(orders: map<nat, Order>, books: Index, lv: Level, qty: nat)
    requires qty == 0 || QueueAt(books, lv) == []
    ensures Sweep(orders, books, lv, qty) == Swept(orders, books, [], qty)
  {
  }

  class Exchange {
    var nextId: nat
    var orders: map<nat, Order>
    var books: Index

    /** The tables with serial numbers, as history. */
    ghost var store: Store

    ghost predicate Valid()
      reads this
    {
      nextId == WireId(store.count) && orders == Stored(store.orders) && books == store.books
    }

    constructor ()
      ensures Valid() && store == NO_ORDERS
    {
      nextId, orders, books := 0, map[], map[];
      store := NO_ORDERS;
    }

    /** Accepts an order, matches it and rests what is left. */
    method Submit(side: Side, inst: Inst, qty: nat, price: nat, owner: int) returns (id: nat, out: seq<Trade>)
      requires Valid()
      modifies this
      ensures Valid() && id == WireId(old(store).count)
      ensures store == Perform(old(store), Op.Submit(side, inst, qty, price, owner)).0
      ensures out == OutcomeTrades(Perform(old(store), Op.Submit(side, inst, qty, price, owner)).1)
    {
      hide Sweep, WireId, Stored, TradesOf;
      ghost var op := Op.Submit(side, inst, qty, price, owner);
      ghost var serial := Order(store.count, side, inst, price, qty, owner);
      WireNext(store.count);
      id := nextId;
      nextId := (nextId + 1) % ID_SPACE;
      var taker := Order(id, side, inst, price, qty, owner);
      ghost var sw := Sweep(store.orders, store.books, taker.At().Opposite(), qty);
      TradesSame(serial, id, sw.fills);
      var rest, trades := MatchLoop(taker, store.orders);
      out := trades;
      if rest > 0 {
        StoredChanges(sw.orders, id, serial.(remaining := rest));
        assert id in orders <==> id in sw.orders by { StoredKeys(sw.orders); }
        if id !in orders {
          orders := orders[id := taker.(remaining := rest)];
        }
        books := books[taker.At() := QueueAt(books, taker.At()) + [id]];
      }
      store := Perform(store, op).0;
    }

    /** The matching loop and the level clean-up after it. */
    method MatchLoop(taker: Order, ghost stored: map<nat, Order>) returns (remaining: nat, out: seq<Trade>)
      requires orders == Stored(stored)
      modifies this`orders, this`books
      ensures var sw := Sweep(stored, old(books), taker.At().Opposite(), taker.remaining);
              && remaining == sw.left
              && out == TradesOf(taker, sw.fills)
              && orders == Stored(sw.orders)
              && books == Tidy(sw.books, taker.At().Opposite())
    {
      hide Sweep, Stored;
      var lv := taker.At().Opposite();
      remaining, out := taker.remaining, [];
      ghost var cur, fills := stored, [];
      ghost var whole := Sweep(stored, books, lv, remaining);
      while remaining > 0 && lv in books && books[lv] != []
        invariant orders == Stored(cur)
        invariant Continues(whole, fills, Sweep(cur, books, lv, remaining))
        invariant out == TradesOf(taker, fills)
        decreases remaining, |QueueAt(books, lv)|
      {
        StoredKeys(cur);
        var otherId := books[lv][0];
        if otherId !in orders {
          Stale(cur, books, lv, remaining);
          books := books[lv := books[lv][1..]];
          continue;
        }
        FillTurn(cur, books, lv, remaining, whole, fills);
        ghost var left := cur[otherId].remaining - Portion(cur[otherId], remaining);
        StoredChanges(cur, otherId, cur[otherId].(remaining := left));
        var other := orders[otherId];
        var q := if remaining < other.remaining then remaining else other.remaining;
        out := out + [TradeOf(taker, Fill(other, q))];
        fills := fills + [Fill(cur[otherId], q)];
        if other.remaining == q {
          books := books[lv := books[lv][1..]];
          orders := orders - {otherId};
          cur := cur - {otherId};
        } else {
          orders := orders[otherId := other.(remaining := other.remaining - q)];
          cur := cur[otherId := cur[otherId].(remaining := cur[otherId].remaining - q)];
        }
        remaining := remaining - q;
      }
      Done(cur, books, lv, remaining);
      assert fills + [] == fills;
      if lv in books && books[lv] == [] {
        books := books - {lv};
      }
    }

    /** Takes a resting order out of the book, for its owner only; the reason when it does not. */
    method Cancel(id: nat, owner: int) returns (refusal: Option<Refusal>)
      requires Valid()
      modifies this
      ensures Valid() && store == Perform(old(store), Op.Cancel(id, owner)).0
      ensures refusal == RefusalOf(Perform(old(store), Op.Cancel(id, owner)).1)
    {
      hide WireId, Stored;
      StoredKeys(store.orders);
      if id !in orders {
        return Some(UnknownOrder);
      }
      if orders[id].owner != owner {
        return Some(NotYourOrder);
      }
      StoredChanges(store.orders, id, store.orders[id]);
      Unlink(orders[id].At(), id);
      orders := orders - {id};
      store := Perform(store, Op.Cancel(id, owner)).0;
      return None;
    }

    /** Takes `id` out of the queue of its level, and the level out of the book if that was all. */
    method Unlink(lv: Level, id: nat)
      modifies this`books
      ensures books == Delisted(old(books), lv, id)
    {
      hide Position;
      if lv in books {
        var dq := books[lv];
        var pos := Find(dq, id);
        if pos < |dq| {
          dq := dq[..pos] + dq[pos + 1..];
        }
        books := books[lv := dq];
        if dq == [] {
          books := books - {lv};
        }
      }
    }
  }

  lemma StoredKeys(orders: map<nat, Order>)
    ensures Stored(orders).Keys == orders.Keys
    ensures forall w :: w in orders ==> Stored(orders)[w] == orders[w].(id := w)
  {
  }

  function RefusalOf(o: Outcome): Option<Refusal> {
    if o.Refused? then Some(o.reason) else None
  }

  // ------------------------------------------------------------------ whole runs

  /** What the caller of the exchange sees of one operation. */
  datatype Response = Placed(id: nat, trades: seq<Trade>) | Answered(refusal: Option<Refusal>)

  function ResponseOf(o: Outcome): Response {
    if o.Submitted? then Placed(WireId(o.order.id), OutcomeTrades(o)) else Answered(RefusalOf(o))
  }

  function Responses(outs: seq<Outcome>): seq<Response> {
    seq(|outs|, i requires 0 <= i < |outs| => ResponseOf(outs[i]))
  }

  lemma ResponsesSnoc(outs: seq<Outcome>, o: Outcome)
    ensures Responses(outs + [o]) == Responses(outs) + [ResponseOf(o)]
  {
  }

  lemma SubmitResponse(st: Store, op: Op)
    requires op.Submit?
    ensures ResponseOf(Perform(st, op).1) == Placed(WireId(st.count), OutcomeTrades(Perform(st, op).1))
  {
    hide Sweep;
  }

  lemma CancelResponse(st: Store, op: Op)
    requires op.Cancel?
    ensures ResponseOf(Perform(st, op).1) == Answered(RefusalOf(Perform(st, op).1))
  {
  }

  /** Refinement over whole runs: driven by any requests, a new exchange gives the responses of the
      tables, in order, and ends with those tables; and if no submit clashed these are the
      responses and the resting orders of the reference. */
  method Replay(reqs: seq<Op>) returns (responses: seq<Response>, orders: map<nat, Order>, books: Index)
    requires forall i :: 0 <= i < |reqs| ==> LegalId(reqs[i])
    ensures var r := Performed(reqs);
            responses == Responses(r.outs) && orders == Stored(r.store.orders) && books == r.store.books
    ensures ClashFree(Meant(reqs)) ==>
              var h := Run(Meant(reqs));
              && responses == Responses(h.outcomes)
              && exists serial :: orders == Stored(serial) && Indexed(serial, books, h.book.resting)
  {
    hide Run, Performed, Perform, Indexed, WireId, Meant, ClashFree, Stored, Responses, LegalId;
    var e := new Exchange();
    responses := [];
    NothingYet(reqs[..0]);
    for i := 0 to |reqs|
      invariant e.Valid() && fresh(e)
      invariant e.store == Performed(reqs[..i]).store
      invariant responses == Responses(Performed(reqs[..i]).outs)
    {
      ghost var outs := Performed(reqs[..i]).outs;
      assert reqs[..i + 1] == reqs[..i] + [reqs[i]];
      PerformedSnoc(reqs[..i], reqs[i]);
      ResponsesSnoc(outs, Perform(e.store, reqs[i]).1);
      var response;
      match reqs[i] {
        case Submit(side, inst, qty, price, owner) =>
          SubmitResponse(e.store, reqs[i]);
          var id, trades := e.Submit(side, inst, qty, price, owner);
          response := Placed(id, trades);
        case Cancel(target, canceller) =>
          CancelResponse(e.store, reqs[i]);
          var refusal := e.Cancel(target, canceller);
          response := Answered(refusal);
      }
      responses := responses + [response];
    }
    assert reqs[..|reqs|] == reqs;
    orders, books := e.orders, e.books;
    if ClashFree(Meant(reqs)) {
      RunAgrees(reqs);
      assert Indexed(e.store.orders, books, Run(Meant(reqs)).book.resting);
    }
  }

  lemma NothingYet(reqs: seq<Op>)
    requires reqs == []
    ensures Performed(reqs) == Ran(NO_ORDERS, []) && Responses([]) == []
  {
  }
}
