/** The order book of src/book.hpp and src/book.cpp, as a reference model.

    The reference keeps one flat list of resting orders in arrival order.  A new order scans that
    list from its oldest end and trades with every opposite order at exactly its own price until
    nothing of it is left; a remainder is appended to the list.  The hash map and the price-level
    queues of the source, in Store.dfy and Exchange.dfy, are proved to behave exactly like this
    list until a 32-bit id clashes.

    The `id` of an order here is its serial number and never repeats.  What the source stores and
    clients see is that number modulo 2^32, its `WireId`.
 */
module Book {
  import opened Wrappers

  /** 0 is JNST and 1 is IMCT. */
  type Inst = i: nat | i < 2

  datatype Side = Buy | Sell {
    function Opposite(): Side {
      if this == Buy then Sell else Buy
    }
  }

  /** One FIFO queue of the source: `books_[inst][side][price]`. */
  datatype Level = Level(inst: Inst, side: Side, price: nat) {
    function Opposite(): Level {
      Level(inst, side.Opposite(), price)
    }
  }

  datatype Order = Order(id: nat, side: Side, inst: Inst, price: nat, remaining: nat, owner: int) {
    function At(): Level {
      Level(inst, side, price)
    }
  }

  datatype Trade = Trade(inst: Inst, qty: nat, price: nat, buyer: int, seller: int)

  /** One execution: the resting order as it stood, and how much of it was taken. */
  datatype Fill = Fill(maker: Order, qty: nat)

  function TradeOf(taker: Order, f: Fill): Trade {
    if taker.side == Buy then Trade(taker.inst, f.qty, taker.price, taker.owner, f.maker.owner)
    else Trade(taker.inst, f.qty, taker.price, f.maker.owner, taker.owner)
  }

  function TradesOf(taker: Order, fills: seq<Fill>): seq<Trade> {
    seq(|fills|, i requires 0 <= i < |fills| => TradeOf(taker, fills[i]))
  }

  /** What is left of the book and of the incoming quantity after matching. */
  datatype Matched = Matched(rest: seq<Order>, fills: seq<Fill>, left: nat)

  function Match(resting: seq<Order>, lv: Level, qty: nat): Matched {
    if qty == 0 || resting == [] then
      Matched(resting, [], qty)
    else
      var o := resting[0];
      if o.At() != lv then
        var m := Match(resting[1..], lv, qty);
        m.(rest := [o] + m.rest)
      else if o.remaining <= qty then
        var m := Match(resting[1..], lv, qty - o.remaining);
        m.(fills := [Fill(o, o.remaining)] + m.fills)
      else
        Matched([o.(remaining := o.remaining - qty)] + resting[1..], [Fill(o, qty)], 0)
  }

  /** The list without the order called `id`. */
  function Without(resting: seq<Order>, id: nat): seq<Order> {
    if resting == [] then []
    else if resting[0].id == id then resting[1..]
    else [resting[0]] + Without(resting[1..], id)
  }

  function Lookup(resting: seq<Order>, id: nat): Option<Order> {
    if resting == [] then None
    else if resting[0].id == id then Some(resting[0])
    else Lookup(resting[1..], id)
  }

  datatype Op =
    | Submit(side: Side, inst: Inst, qty: nat, price: nat, owner: int)
    | Cancel(id: nat, canceller: int)

  datatype Refusal = UnknownOrder | NotYourOrder

  /** What one operation did: the accepted order with its full quantity and its fills, the
      order that was taken out, or the reason for refusing. */
  datatype Outcome =
    | Submitted(order: Order, fills: seq<Fill>, left: nat)
    | Cancelled(order: Order)
    | Refused(reason: Refusal)

  /** The effect of `op` on the resting list, when a new order would be called `id`. */
  function Apply(resting: seq<Order>, id: nat, op: Op): (seq<Order>, Outcome) {
    match op
    case Submit(side, inst, qty, price, owner) =>
      var o := Order(id, side, inst, price, qty, owner);
      var m := Match(resting, o.At().Opposite(), qty);
      (if m.left > 0 then m.rest + [o.(remaining := m.left)] else m.rest,
       Submitted(o, m.fills, m.left))
    case Cancel(target, canceller) =>
      match Lookup(resting, target)
      case None => (resting, Refused(UnknownOrder))
      case Some(o) =>
        if o.owner != canceller then (resting, Refused(NotYourOrder))
        else (Without(resting, target), Cancelled(o))
  }

  datatype Book = Book(resting: seq<Order>, nextId: nat)

  function Step(b: Book, op: Op): (Book, Outcome) {
    var (resting, outcome) := Apply(b.resting, b.nextId, op);
    (Book(resting, if op.Submit? then b.nextId + 1 else b.nextId), outcome)
  }

  /** A whole run from the empty exchange: the final book and what every operation did. */
  datatype History = History(book: Book, outcomes: seq<Outcome>)

  function Run(ops: seq<Op>): (h: History)
    ensures |h.outcomes| == |ops|
  {
    if ops == [] then
      History(Book([], 0), [])
    else
      var h := Run(ops[..|ops| - 1]);
      var (b, outcome) := Step(h.book, ops[|ops| - 1]);
      History(b, h.outcomes + [outcome])
  }

  function OutcomeTrades(outcome: Outcome): seq<Trade> {
    if outcome.Submitted? then TradesOf(outcome.order, outcome.fills) else []
  }

  function Trades(outcomes: seq<Outcome>): seq<Trade> {
    if outcomes == [] then []
    else Trades(outcomes[..|outcomes| - 1]) + OutcomeTrades(outcomes[|outcomes| - 1])
  }

  // ------------------------------------------------------------------ 32-bit ids

  /** One more than the largest `std::uint32_t`. */
  const ID_SPACE := 0x1_0000_0000

  /** The id a client sees: the serial number in a 32-bit counter. */
  function WireId(id: nat): (w: nat)
    ensures w < ID_SPACE
    ensures id < ID_SPACE ==> w == id
  {
    id % ID_SPACE
  }

  /** No two resting orders share a 32-bit id. */
  predicate DistinctWire(resting: seq<Order>) {
    forall i, j :: 0 <= i < j < |resting| ==> WireId(resting[i].id) != WireId(resting[j].id)
  }

  /** The resting order a 32-bit id stands for. */
  function FindWire(resting: seq<Order>, w: nat): Option<Order> {
    if resting == [] then None
    else if WireId(resting[0].id) == w then Some(resting[0])
    else FindWire(resting[1..], w)
  }

  /** The serial number a client means by `w`; an id that nothing rests under stands for itself. */
  function Resolve(b: Book, w: nat): nat {
    match FindWire(b.resting, w)
    case Some(o) => o.id
    case None => w
  }

  lemma {:induction false} FindWireFinds(resting: seq<Order>, w: nat)
    ensures FindWire(resting, w).Some? ==>
              FindWire(resting, w).value in resting && WireId(FindWire(resting, w).value.id) == w
    ensures FindWire(resting, w).None? ==> forall o :: o in resting ==> WireId(o.id) != w
    ensures DistinctWire(resting) ==> forall o :: o in resting && WireId(o.id) == w ==> FindWire(resting, w) == Some(o)
  {
    if resting != [] {
      var t := resting[1..];
      assert resting == [resting[0]] + t;
      FindWireFinds(t, w);
      assert forall o :: o in resting <==> o == resting[0] || o in t;
      if DistinctWire(resting) {
        forall i | 0 <= i < |t|
          ensures WireId(t[i].id) != WireId(resting[0].id)
        {
          assert t[i] == resting[i + 1];
        }
      }
    }
  }

  /** Cancelling by a 32-bit id hits an order with that id, or none. */
  lemma ResolveHits(b: Book, w: nat)
    requires Ascending(b.resting) && w < ID_SPACE
    ensures Lookup(b.resting, Resolve(b, w)) == FindWire(b.resting, w)
    ensures FindWire(b.resting, w).Some? ==> WireId(Resolve(b, w)) == w
  {
    FindWireFinds(b.resting, w);
    LookupFinds(b.resting, Resolve(b, w));
  }

  // ------------------------------------------------------------------ the book invariant

  /** Arrival order is id order. */
  ghost predicate Ascending(resting: seq<Order>) {
    forall i, j :: 0 <= i < j < |resting| ==> resting[i].id < resting[j].id
  }

  ghost predicate Positive(resting: seq<Order>) {
    forall i :: 0 <= i < |resting| ==> resting[i].remaining > 0
  }

  ghost predicate IdsBelow(resting: seq<Order>, bound: nat) {
    forall i :: 0 <= i < |resting| ==> resting[i].id < bound
  }

  /** No order rests at `lv`. */
  ghost predicate Clear(resting: seq<Order>, lv: Level) {
    forall i :: 0 <= i < |resting| ==> resting[i].At() != lv
  }

  /** No instrument and price has both a resting buy and a resting sell. */
  ghost predicate Uncrossed(resting: seq<Order>) {
    forall i, j :: 0 <= i < |resting| && 0 <= j < |resting| ==>
      resting[i].At() != resting[j].At().Opposite()
  }

  ghost predicate Good(b: Book) {
    && Ascending(b.resting)
    && Positive(b.resting)
    && IdsBelow(b.resting, b.nextId)
    && Uncrossed(b.resting)
  }

  /** Who is resting, leaving out how much of each order remains. */
  ghost function Stubs(resting: seq<Order>): set<Order> {
    set o | o in resting :: o.(remaining := 0)
  }

  lemma StubsOf(resting: seq<Order>, i: nat)
    requires i < |resting|
    ensures resting[i].(remaining := 0) in Stubs(resting)
  {
    assert resting[i] in resting;
  }

  lemma {:induction false} MatchStubs(resting: seq<Order>, lv: Level, qty: nat)
    ensures Stubs(Match(resting, lv, qty).rest) <= Stubs(resting)
  {
    if qty != 0 && resting != [] {
      var o, t := resting[0], resting[1..];
      assert resting == [o] + t;
      StubsConcat([o], t);
      if o.At() != lv {
        MatchStubs(t, lv, qty);
        StubsConcat([o], Match(t, lv, qty).rest);
      } else if o.remaining <= qty {
        MatchStubs(t, lv, qty - o.remaining);
      } else {
        StubsConcat([o.(remaining := o.remaining - qty)], t);
      }
    }
  }

  lemma AscendingCons(o: Order, t: seq<Order>, rest: seq<Order>)
    requires Ascending([o] + t) && Stubs(rest) <= Stubs(t) && Ascending(rest)
    ensures Ascending([o] + rest)
  {
    forall i | 0 <= i < |rest|
      ensures o.id < rest[i].id
    {
      StubsOf(rest, i);
      var p :| p in t && p.(remaining := 0) == rest[i].(remaining := 0);
      assert p.id == p.(remaining := 0).id == rest[i].id;
      var k :| 0 <= k < |t| && t[k] == p;
      assert ([o] + t)[0] == o && ([o] + t)[k + 1] == p;
    }
  }

  /** Matching only ever shortens the list and lowers remainders, and while some of the new
      order is left over no opposite order is. */
  lemma {:induction false} MatchShrinks(resting: seq<Order>, lv: Level, qty: nat)
    requires Ascending(resting) && Positive(resting)
    ensures Ascending(Match(resting, lv, qty).rest)
    ensures Positive(Match(resting, lv, qty).rest)
    ensures Match(resting, lv, qty).left > 0 ==> Clear(Match(resting, lv, qty).rest, lv)
  {
    if qty != 0 && resting != [] {
      var o, t := resting[0], resting[1..];
      assert resting == [o] + t;
      if o.At() != lv {
        MatchShrinks(t, lv, qty);
        MatchStubs(t, lv, qty);
        AscendingCons(o, t, Match(t, lv, qty).rest);
      } else if o.remaining <= qty {
        MatchShrinks(t, lv, qty - o.remaining);
      }
    }
  }

  lemma StubsConcat(a: seq<Order>, b: seq<Order>)
    ensures Stubs(a + b) == Stubs(a) + Stubs(b)
    ensures |a| == 1 ==> Stubs(a) == {a[0].(remaining := 0)}
  {
    assert forall o :: o in a + b <==> o in a || o in b;
    assert |a| == 1 ==> a == [a[0]];
  }

  lemma {:induction false} WithoutKeeps(resting: seq<Order>, id: nat)
    requires Ascending(resting)
    ensures Ascending(Without(resting, id))
    ensures forall o :: o in Without(resting, id) <==> o in resting && o.id != id
  {
    if resting != [] {
      var t := resting[1..];
      assert resting == [resting[0]] + t;
      if resting[0].id == id {
        assert forall o :: o in t ==> o.id != id;
      } else {
        WithoutKeeps(t, id);
        var w := Without(t, id);
        forall i | 0 <= i < |w|
          ensures resting[0].id < w[i].id
        {
          assert w[i] in t;
        }
      }
    }
  }

  lemma {:induction false} LookupFinds(resting: seq<Order>, id: nat)
    requires Ascending(resting)
    ensures Lookup(resting, id).Some? ==> Lookup(resting, id).value in resting && Lookup(resting, id).value.id == id
    ensures forall o :: o in resting && o.id == id ==> Lookup(resting, id) == Some(o)
  {
    if resting != [] {
      assert resting == [resting[0]] + resting[1..];
      if resting[0].id != id {
        LookupFinds(resting[1..], id);
      } else {
        assert forall o :: o in resting[1..] ==> o.id != id;
      }
    }
  }

  lemma MoreIds(resting: seq<Order>, bound: nat)
    requires IdsBelow(resting, bound)
    ensures IdsBelow(resting, bound + 1)
  {
  }

  lemma RestGood(rest: seq<Order>, o: Order, bound: nat)
    requires Ascending(rest) && Positive(rest) && IdsBelow(rest, bound) && Uncrossed(rest)
    requires Clear(rest, o.At().Opposite())
    requires o.id == bound && o.remaining > 0
    ensures Ascending(rest + [o]) && Positive(rest + [o]) && IdsBelow(rest + [o], bound + 1) && Uncrossed(rest + [o])
  {
    var after := rest + [o];
    forall i, j | 0 <= i < |after| && 0 <= j < |after|
      ensures after[i].At() != after[j].At().Opposite()
    {
      assert i < |rest| ==> after[i] == rest[i];
      assert j < |rest| ==> after[j] == rest[j] && rest[j].At() != o.At().Opposite();
    }
  }

  lemma StepGood(b: Book, op: Op)
    requires Good(b)
    ensures Good(Step(b, op).0)
  {
    match op
    case Submit(side, inst, qty, price, owner) =>
      hide Match, Stubs, Ascending, Positive, Clear, IdsBelow, Uncrossed;
      var o := Order(b.nextId, side, inst, price, qty, owner);
      var lv := o.At().Opposite();
      var m := Match(b.resting, lv, qty);
      MatchShrinks(b.resting, lv, qty);
      MatchStubs(b.resting, lv, qty);
      ShrunkKeeps(b.resting, m.rest, b.nextId);
      if m.left > 0 {
        RestGood(m.rest, o.(remaining := m.left), b.nextId);
      }
      MoreIds(m.rest, b.nextId);
    case Cancel(target, canceller) =>
      WithoutKeeps(b.resting, target);
      var w := Without(b.resting, target);
      assert forall i :: 0 <= i < |w| ==> w[i] in b.resting;
  }

  lemma ShrunkKeeps(before: seq<Order>, after: seq<Order>, bound: nat)
    requires Stubs(after) <= Stubs(before) && IdsBelow(before, bound) && Uncrossed(before)
    ensures IdsBelow(after, bound) && Uncrossed(after)
  {
    forall i | 0 <= i < |after|
      ensures exists k :: 0 <= k < |before| && before[k].id == after[i].id && before[k].At() == after[i].At()
    {
      StubsOf(after, i);
      var p :| p in before && p.(remaining := 0) == after[i].(remaining := 0);
      assert p.id == p.(remaining := 0).id && p.At() == p.(remaining := 0).At();
      assert after[i].At() == after[i].(remaining := 0).At() && after[i].id == after[i].(remaining := 0).id;
    }
  }

  /** The invariant holds after every run. */
  lemma {:induction false} RunGood(ops: seq<Op>)
    ensures Good(Run(ops).book)
  {
    if ops != [] {
      RunGood(ops[..|ops| - 1]);
      StepGood(Run(ops[..|ops| - 1]).book, ops[|ops| - 1]);
    }
  }
}
