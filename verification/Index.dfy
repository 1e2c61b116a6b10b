/** The two tables of the indexed order book of src/book.hpp, and how they stand for a flat list.

    `orders` is the hash map of resting orders under their 32-bit ids and `books` the four
    price-to-queue maps, with `books_[inst][side][price]` written as one map over `Level`.
    `Indexed` ties both to a list of resting orders, and the lemmas say what each change of the
    tables does to that list.
 */
module ExchangeIndex {
  import opened Book

  type Index = map<Level, seq<nat>>

  /** The 32-bit ids of the orders resting at `lv`, oldest first. */
  function Queue(resting: seq<Order>, lv: Level): seq<nat> {
    if resting == [] then []
    else if resting[0].At() == lv then [WireId(resting[0].id)] + Queue(resting[1..], lv)
    else Queue(resting[1..], lv)
  }

  function QueueAt(books: Index, lv: Level): seq<nat> {
    if lv in books then books[lv] else []
  }

  ghost predicate OrdersMatch(orders: map<nat, Order>, resting: seq<Order>) {
    && (forall i :: 0 <= i < |resting| ==>
          WireId(resting[i].id) in orders && orders[WireId(resting[i].id)] == resting[i])
    && (forall w :: w in orders ==> WireId(orders[w].id) == w && orders[w] in resting)
  }

  ghost predicate QueuesMatch(books: Index, resting: seq<Order>) {
    forall lv :: QueueAt(books, lv) == Queue(resting, lv)
  }

  ghost predicate NoEmptyLevel(books: Index) {
    forall lv :: lv in books ==> books[lv] != []
  }

  /** The hash map and the queues hold exactly the orders of `resting`. */
  ghost predicate Indexed(orders: map<nat, Order>, books: Index, resting: seq<Order>) {
    OrdersMatch(orders, resting) && QueuesMatch(books, resting) && NoEmptyLevel(books)
  }

  // ------------------------------------------------------------------ queues of a changed list

  lemma {:induction false} QueueConcat(a: seq<Order>, b: seq<Order>, lv: Level)
    ensures Queue(a + b, lv) == Queue(a, lv) + Queue(b, lv)
  {
    if a == [] {
      assert a + b == b;
    } else {
      assert (a + b)[1..] == a[1..] + b;
      QueueConcat(a[1..], b, lv);
    }
  }

  lemma QueueOne(o: Order, lv: Level)
    ensures Queue([o], lv) == if o.At() == lv then [WireId(o.id)] else []
  {
    assert [o][1..] == [];
  }

  /** Position of the oldest order at `lv`. */
  function First(resting: seq<Order>, lv: Level): (k: nat)
    requires Queue(resting, lv) != []
    ensures k < |resting| && resting[k].At() == lv
    ensures Queue(resting, lv)[0] == WireId(resting[k].id)
    ensures Queue(resting[..k], lv) == []
  {
    if resting[0].At() == lv then 0
    else
      var k := First(resting[1..], lv);
      assert resting[..k + 1] == [resting[0]] + resting[1..][..k];
      k + 1
  }

  lemma QueueSplit(resting: seq<Order>, k: nat, lv: Level)
    requires k < |resting|
    ensures Queue(resting, lv) ==
            Queue(resting[..k], lv)
            + (if resting[k].At() == lv then [WireId(resting[k].id)] else [])
            + Queue(resting[k + 1..], lv)
  {
    assert resting == resting[..k] + [resting[k]] + resting[k + 1..];
    QueueConcat(resting[..k] + [resting[k]], resting[k + 1..], lv);
    QueueConcat(resting[..k], [resting[k]], lv);
    QueueOne(resting[k], lv);
  }

  /** The list with its `k`-th order reduced to `left`, and gone when nothing is left. */
  function Reduce(resting: seq<Order>, k: nat, left: nat): seq<Order>
    requires k < |resting|
  {
    if left == 0 then resting[..k] + resting[k + 1..]
    else resting[k := resting[k].(remaining := left)]
  }

  lemma QueueReduce(resting: seq<Order>, k: nat, left: nat, lv: Level)
    requires k < |resting|
    ensures Queue(Reduce(resting, k, left), lv) ==
            Queue(resting[..k], lv) + (if resting[k].At() == lv && left > 0 then [WireId(resting[k].id)] else [])
            + Queue(resting[k + 1..], lv)
  {
    var r := Reduce(resting, k, left);
    if left == 0 {
      QueueConcat(resting[..k], resting[k + 1..], lv);
    } else {
      QueueSplit(r, k, lv);
      assert r[..k] == resting[..k] && r[k + 1..] == resting[k + 1..];
      assert r[k].At() == resting[k].At();
    }
  }

  lemma DistinctRemove(resting: seq<Order>, k: nat)
    requires k < |resting| && DistinctWire(resting)
    ensures DistinctWire(resting[..k] + resting[k + 1..])
    ensures forall i :: 0 <= i < |resting| && i != k ==> WireId(resting[i].id) != WireId(resting[k].id)
  {
    hide WireId;
  }

  lemma RemoveOrder(orders: map<nat, Order>, resting: seq<Order>, k: nat)
    requires k < |resting| && OrdersMatch(orders, resting)
    requires forall i :: 0 <= i < |resting| && i != k ==> WireId(resting[i].id) != WireId(resting[k].id)
    ensures OrdersMatch(orders - {WireId(resting[k].id)}, resting[..k] + resting[k + 1..])
  {
    hide WireId;
    var r := resting[..k] + resting[k + 1..];
    forall x | x in orders && x != WireId(resting[k].id)
      ensures orders[x] in r
    {
      var i :| 0 <= i < |resting| && resting[i] == orders[x];
      assert r[if i > k then i - 1 else i] == orders[x];
    }
    forall i | 0 <= i < |r|
      ensures WireId(r[i].id) in orders - {WireId(resting[k].id)} && orders[WireId(r[i].id)] == r[i]
    {
      var j := if i < k then i else i + 1;
      assert r[i] == resting[j];
    }
  }

  lemma ReplaceOrder(orders: map<nat, Order>, resting: seq<Order>, k: nat, left: nat)
    requires k < |resting| && DistinctWire(resting) && OrdersMatch(orders, resting)
    ensures var o := resting[k].(remaining := left);
            DistinctWire(resting[k := o]) && OrdersMatch(orders[WireId(o.id) := o], resting[k := o])
  {
    hide WireId;
    var o := resting[k].(remaining := left);
    var r := resting[k := o];
    assert r[k] == o;
    forall x | x in orders && x != WireId(o.id)
      ensures orders[x] in r
    {
      var i :| 0 <= i < |resting| && resting[i] == orders[x];
      assert r[i] == orders[x];
    }
  }

  // ------------------------------------------------------------------ one turn of the matching loop

  function Prepend(f: Fill, m: Matched): Matched {
    m.(fills := [f] + m.fills)
  }

  /** How much of order `o` an incoming `qty` takes. */
  function Portion(o: Order, qty: nat): nat {
    if qty < o.remaining then qty else o.remaining
  }

  /** Matching takes the oldest opposite order first: one turn of the loop, then the rest. */
  lemma {:induction false} MatchStep(resting: seq<Order>, lv: Level, qty: nat)
    requires Queue(resting, lv) != [] && qty > 0
    ensures var k := First(resting, lv);
            var q := Portion(resting[k], qty);
            Match(resting, lv, qty) ==
            Prepend(Fill(resting[k], q), Match(Reduce(resting, k, resting[k].remaining - q), lv, qty - q))
  {
    hide Reduce, First, Queue;
    FirstUnfold(resting, lv);
    if resting[0].At() != lv {
      var t := resting[1..];
      MatchStep(t, lv, qty);
      var k := First(t, lv);
      MatchSkip(resting[0], t, k, t[k].remaining - Portion(t[k], qty), lv, qty - Portion(t[k], qty));
      assert resting == [resting[0]] + t;
    } else {
      MatchHead(resting, lv, qty);
    }
  }

  lemma FirstUnfold(resting: seq<Order>, lv: Level)
    requires Queue(resting, lv) != []
    ensures resting[0].At() == lv ==> First(resting, lv) == 0
    ensures resting[0].At() != lv ==> Queue(resting[1..], lv) != [] && First(resting, lv) == First(resting[1..], lv) + 1
  {
  }

  lemma MatchHead(resting: seq<Order>, lv: Level, qty: nat)
    requires resting != [] && resting[0].At() == lv && qty > 0
    ensures var q := Portion(resting[0], qty);
            Match(resting, lv, qty) ==
            Prepend(Fill(resting[0], q), Match(Reduce(resting, 0, resting[0].remaining - q), lv, qty - q))
  {
    var q := Portion(resting[0], qty);
    var r := Reduce(resting, 0, resting[0].remaining - q);
    if resting[0].remaining <= qty {
      assert r == resting[1..];
    } else {
      assert r == [resting[0].(remaining := resting[0].remaining - qty)] + resting[1..];
    }
  }

  lemma MatchSkip(o: Order, t: seq<Order>, k: nat, left: nat, lv: Level, qty: nat)
    requires k < |t| && o.At() != lv
    ensures var r := Match(Reduce(t, k, left), lv, qty);
            Match(Reduce([o] + t, k + 1, left), lv, qty) == r.(rest := [o] + r.rest)
  {
    var r := Reduce([o] + t, k + 1, left);
    assert r == [o] + Reduce(t, k, left);
    assert r[1..] == Reduce(t, k, left);
  }

  /** Finishing the oldest order at `lv` pops the front of its queue and leaves the others. */
  lemma QueuePop(resting: seq<Order>, lv: Level, lv': Level)
    requires Queue(resting, lv) != []
    ensures Queue(Reduce(resting, First(resting, lv), 0), lv') ==
            if lv' == lv then Queue(resting, lv)[1..] else Queue(resting, lv')
  {
    QueueReduce(resting, First(resting, lv), 0, lv');
    QueueSplit(resting, First(resting, lv), lv');
  }

  /** Lowering a remainder leaves every queue as it was. */
  lemma QueueKeep(resting: seq<Order>, k: nat, left: nat, lv: Level)
    requires k < |resting| && left > 0
    ensures Queue(Reduce(resting, k, left), lv) == Queue(resting, lv)
  {
    QueueReduce(resting, k, left, lv);
    QueueSplit(resting, k, lv);
  }

  // ------------------------------------------------------------------ what the index determines

  lemma {:induction false} QueueMembers(resting: seq<Order>, lv: Level, w: nat)
    ensures w in Queue(resting, lv) <==>
            exists i :: 0 <= i < |resting| && WireId(resting[i].id) == w && resting[i].At() == lv
  {
    hide WireId;
    if resting != [] {
      var t := resting[1..];
      QueueMembers(t, lv, w);
      if i :| 0 <= i < |t| && WireId(t[i].id) == w && t[i].At() == lv {
        assert resting[i + 1] == t[i];
      }
      if i :| 0 <= i < |resting| && WireId(resting[i].id) == w && resting[i].At() == lv {
        assert i > 0 ==> t[i - 1] == resting[i];
      }
    }
  }

  lemma {:induction false} QueueDistinct(resting: seq<Order>, lv: Level)
    requires DistinctWire(resting)
    ensures forall i, j :: 0 <= i < j < |Queue(resting, lv)| ==> Queue(resting, lv)[i] != Queue(resting, lv)[j]
  {
    hide WireId;
    if resting != [] {
      var t := resting[1..];
      QueueDistinct(t, lv);
      forall i | 0 <= i < |Queue(t, lv)|
        ensures WireId(resting[0].id) != Queue(t, lv)[i]
      {
        QueueMembers(t, lv, Queue(t, lv)[i]);
      }
    }
  }

  lemma {:induction false} QueueAscending(resting: seq<Order>, lv: Level)
    requires Ascending(resting) && IdsBelow(resting, ID_SPACE)
    ensures forall i, j :: 0 <= i < j < |Queue(resting, lv)| ==> Queue(resting, lv)[i] < Queue(resting, lv)[j]
  {
    if resting != [] {
      var t := resting[1..];
      QueueAscending(t, lv);
      forall i | 0 <= i < |Queue(t, lv)|
        ensures WireId(resting[0].id) < Queue(t, lv)[i]
      {
        QueueMembers(t, lv, Queue(t, lv)[i]);
      }
    }
  }

  lemma OneSided(orders: map<nat, Order>, books: Index, resting: seq<Order>, lv: Level)
    requires Indexed(orders, books, resting) && Uncrossed(resting) && lv in books
    ensures lv.Opposite() !in books
  {
    assert QueueAt(books, lv) == Queue(resting, lv);
    assert QueueAt(books, lv.Opposite()) == Queue(resting, lv.Opposite());
    ghost var k := First(resting, lv);
    if Queue(resting, lv.Opposite()) != [] {
      ghost var j := First(resting, lv.Opposite());
    }
  }

  /** What the two indexes look like in every valid state: an id is in the hash map exactly when it
      is in one queue, that of its own instrument, side and price, and there it occurs once; no
      level is empty, no remainder is zero, and no instrument and price has both sides.  Until
      the 32-bit counter wraps, every queue is strictly increasing. */
  lemma BookInvariant(orders: map<nat, Order>, books: Index, b: Book)
    requires Indexed(orders, books, b.resting) && Good(b) && DistinctWire(b.resting)
    ensures forall w, lv :: w in QueueAt(books, lv) <==> w in orders && orders[w].At() == lv
    ensures forall w :: w in orders ==> WireId(orders[w].id) == w && 0 < orders[w].remaining
    ensures forall lv :: lv in books ==> books[lv] != [] && lv.Opposite() !in books
    ensures forall lv, i, j :: lv in books && 0 <= i < j < |books[lv]| ==>
              books[lv][i] != books[lv][j] && (b.nextId <= ID_SPACE ==> books[lv][i] < books[lv][j])
  {
    hide WireId;
    var resting := b.resting;
    forall w, lv
      ensures w in QueueAt(books, lv) <==> w in orders && orders[w].At() == lv
    {
      assert QueueAt(books, lv) == Queue(resting, lv);
      QueueMembers(resting, lv, w);
    }
    forall lv | lv in books
      ensures lv.Opposite() !in books
    {
      OneSided(orders, books, resting, lv);
    }
    forall lv | lv in books
      ensures forall i, j :: 0 <= i < j < |books[lv]| ==>
                books[lv][i] != books[lv][j] && (b.nextId <= ID_SPACE ==> books[lv][i] < books[lv][j])
    {
      assert QueueAt(books, lv) == Queue(resting, lv);
      QueueDistinct(resting, lv);
      if b.nextId <= ID_SPACE {
        QueueAscending(resting, lv);
      }
    }
  }

  /** The flat list determines both indexes, so equal lists mean the same hash map and queues. */
  lemma IndexUnique(o1: map<nat, Order>, b1: Index, o2: map<nat, Order>, b2: Index, resting: seq<Order>)
    requires Indexed(o1, b1, resting) && Indexed(o2, b2, resting)
    ensures o1 == o2 && b1 == b2
  {
    forall id
      ensures id in o1 <==> id in o2
      ensures id in o1 ==> o1[id] == o2[id]
    {
    }
    assert o1.Keys == o2.Keys;
    forall lv
      ensures lv in b1 <==> lv in b2
      ensures lv in b1 ==> b1[lv] == b2[lv]
    {
      assert QueueAt(b1, lv) == Queue(resting, lv) == QueueAt(b2, lv);
    }
    assert b1.Keys == b2.Keys;
  }

  // ------------------------------------------------------------------ resting and cancelling

  /** `push_back` on the queue of a level. */
  function Pushed(books: Index, lv: Level, w: nat): Index {
    books[lv := QueueAt(books, lv) + [w]]
  }

  lemma RestOrder(orders: map<nat, Order>, books: Index, resting: seq<Order>, o: Order)
    requires Indexed(orders, books, resting) && WireId(o.id) !in orders
    ensures Indexed(orders[WireId(o.id) := o], Pushed(books, o.At(), WireId(o.id)), resting + [o])
  {
    hide WireId;
    var books' := Pushed(books, o.At(), WireId(o.id));
    forall lv
      ensures QueueAt(books', lv) == Queue(resting + [o], lv)
    {
      QueueConcat(resting, [o], lv);
      QueueOne(o, lv);
      assert QueueAt(books, lv) == Queue(resting, lv);
    }
    assert (resting + [o])[|resting|] == o;
    forall w | w in orders
      ensures orders[w] in resting + [o] && w != WireId(o.id)
    {
      assert orders[w] in resting;
    }
  }

  /** `emplace` does not overwrite: an order whose id is still taken is queued but not stored. */
  function Emplace(orders: map<nat, Order>, o: Order): map<nat, Order> {
    if WireId(o.id) in orders then orders else orders[WireId(o.id) := o]
  }

  /** What resting `o` leaves behind when its id is still taken: the orders are those of `resting`
      without it, and its id is at the end of its queue all the same. */
  ghost predicate Lost(orders: map<nat, Order>, books: Index, resting: seq<Order>, o: Order) {
    && WireId(o.id) in orders
    && OrdersMatch(orders, resting)
    && (forall lv :: QueueAt(books, lv) == Queue(resting, lv) + if lv == o.At() then [WireId(o.id)] else [])
  }

  /** Resting an order works if and only if its id is free.  If an order still rests under it, which
      takes a counter that has wrapped, the new remainder is in no order and the id is in the
      queues twice. */
  lemma RestNeedsFreeId(orders: map<nat, Order>, books: Index, resting: seq<Order>, o: Order)
    requires Indexed(orders, books, resting) && DistinctWire(resting)
    ensures var w := WireId(o.id);
            var orders', books' := Emplace(orders, o), Pushed(books, o.At(), w);
            && (w !in orders ==> Indexed(orders', books', resting + [o]) && DistinctWire(resting + [o]))
            && (w in orders ==> Lost(orders', books', resting, o) && !DistinctWire(resting + [o]))
  {
    hide WireId;
    var w := WireId(o.id);
    if w !in orders {
      RestOrder(orders, books, resting, o);
      forall i | 0 <= i < |resting|
        ensures WireId(resting[i].id) != w
      {
        assert WireId(resting[i].id) in orders;
      }
    } else {
      var i :| 0 <= i < |resting| && resting[i] == orders[w];
      assert (resting + [o])[i] == orders[w] && (resting + [o])[|resting|] == o;
      forall lv
        ensures QueueAt(Pushed(books, o.At(), w), lv) == Queue(resting, lv) + if lv == o.At() then [w] else []
      {
        assert QueueAt(books, lv) == Queue(resting, lv);
      }
    }
  }

  lemma {:induction false} WithoutAt(resting: seq<Order>, k: nat)
    requires k < |resting| && DistinctWire(resting)
    ensures Without(resting, resting[k].id) == resting[..k] + resting[k + 1..]
  {
    hide WireId;
    if k == 0 {
      assert resting[..0] + resting[1..] == resting[1..];
    } else {
      var t := resting[1..];
      assert WireId(resting[0].id) != WireId(resting[k].id) && t[k - 1] == resting[k];
      WithoutAt(t, k - 1);
      hide DistinctWire;
      assert t[k..] == resting[k + 1..];
      assert [resting[0]] + (t[..k - 1] + t[k..]) == resting[..k] + resting[k + 1..];
    }
  }

  /** Taking a resting order out: its id leaves its own queue, wherever it stands there. */
  lemma QueueRemove(books: Index, resting: seq<Order>, k: nat, pos: nat)
    requires k < |resting| && QueuesMatch(books, resting) && DistinctWire(resting)
    requires var q := QueueAt(books, resting[k].At());
             pos <= |q| && WireId(resting[k].id) !in q[..pos] && (pos < |q| ==> q[pos] == WireId(resting[k].id))
    ensures pos < |QueueAt(books, resting[k].At())|
    ensures var lv := resting[k].At();
            var q := QueueAt(books, lv);
            QueuesMatch(books[lv := q[..pos] + q[pos + 1..]], resting[..k] + resting[k + 1..])
  {
    hide WireId;
    var lv := resting[k].At();
    var q := QueueAt(books, lv);
    var j := |Queue(resting[..k], lv)|;
    assert q == Queue(resting, lv);
    QueueSplit(resting, k, lv);
    QueueDistinct(resting, lv);
    assert q[j] == WireId(resting[k].id);
    assert pos == j;
    assert q[..j] == Queue(resting[..k], lv) && q[j + 1..] == Queue(resting[k + 1..], lv);
    var books' := books[lv := q[..pos] + q[pos + 1..]];
    forall lv'
      ensures QueueAt(books', lv') == Queue(resting[..k] + resting[k + 1..], lv')
    {
      assert QueueAt(books, lv') == Queue(resting, lv');
      QueueReduce(resting, k, 0, lv');
      QueueSplit(resting, k, lv');
    }
  }

  // ------------------------------------------------------------------ inside the matching loop

  /** Between two turns of the loop only the level being matched may be empty. */
  ghost predicate Mid(orders: map<nat, Order>, books: Index, cur: seq<Order>, lv: Level) {
    && OrdersMatch(orders, cur)
    && QueuesMatch(books, cur)
    && (forall lv' :: lv' in books && lv' != lv ==> books[lv'] != [])
  }

  lemma Front(orders: map<nat, Order>, books: Index, cur: seq<Order>, lv: Level)
    requires Mid(orders, books, cur, lv) && lv in books && books[lv] != []
    ensures Queue(cur, lv) == books[lv] && books[lv][0] in orders
    ensures orders[books[lv][0]] == cur[First(cur, lv)]
    ensures Positive(cur) ==> orders[books[lv][0]].remaining > 0
  {
    hide WireId;
    assert QueueAt(books, lv) == Queue(cur, lv);
    assert WireId(cur[First(cur, lv)].id) in orders;
  }

  lemma TurnFilled(orders: map<nat, Order>, books: Index, cur: seq<Order>, lv: Level)
    requires Mid(orders, books, cur, lv) && lv in books && books[lv] != [] && DistinctWire(cur)
    ensures Queue(cur, lv) == books[lv]
    ensures Mid(orders - {books[lv][0]}, books[lv := books[lv][1..]], Reduce(cur, First(cur, lv), 0), lv)
  {
    Front(orders, books, cur, lv);
    DistinctRemove(cur, First(cur, lv));
    RemoveOrder(orders, cur, First(cur, lv));
    forall lv'
      ensures QueueAt(books[lv := books[lv][1..]], lv') == Queue(Reduce(cur, First(cur, lv), 0), lv')
    {
      assert QueueAt(books, lv') == Queue(cur, lv');
      QueuePop(cur, lv, lv');
    }
  }

  lemma TurnPartial(orders: map<nat, Order>, books: Index, cur: seq<Order>, lv: Level, left: nat)
    requires Mid(orders, books, cur, lv) && lv in books && books[lv] != [] && DistinctWire(cur) && left > 0
    ensures Queue(cur, lv) == books[lv] && books[lv][0] in orders
    ensures var o := orders[books[lv][0]];
            Mid(orders[books[lv][0] := o.(remaining := left)], books, Reduce(cur, First(cur, lv), left), lv)
  {
    Front(orders, books, cur, lv);
    ReplaceOrder(orders, cur, First(cur, lv), left);
    forall lv'
      ensures QueueAt(books, lv') == Queue(Reduce(cur, First(cur, lv), left), lv')
    {
      assert QueueAt(books, lv') == Queue(cur, lv');
      QueueKeep(cur, First(cur, lv), left, lv');
    }
  }

  lemma ReduceKeeps(cur: seq<Order>, k: nat, left: nat)
    requires k < |cur| && DistinctWire(cur) && Positive(cur)
    ensures var r := Reduce(cur, k, left); DistinctWire(r) && Positive(r)
  {
    hide WireId;
    if left == 0 {
      DistinctRemove(cur, k);
    }
  }

  lemma MidStarts(orders: map<nat, Order>, books: Index, cur: seq<Order>, lv: Level)
    requires Indexed(orders, books, cur)
    ensures Mid(orders, books, cur, lv)
  {
  }

  /** After the loop the level is dropped if it is empty, and the index is whole again. */
  lemma CleanUp(orders: map<nat, Order>, books: Index, cur: seq<Order>, lv: Level)
    requires Mid(orders, books, cur, lv)
    ensures Queue(cur, lv) == QueueAt(books, lv)
    ensures Indexed(orders, if lv in books && books[lv] == [] then books - {lv} else books, cur)
  {
    var after := if lv in books && books[lv] == [] then books - {lv} else books;
    forall lv'
      ensures QueueAt(after, lv') == Queue(cur, lv')
    {
      assert QueueAt(books, lv') == Queue(cur, lv');
    }
  }

  /** A cancelled order is in its queue; without it the index stands for the shorter list. */
  lemma Unlinked(orders: map<nat, Order>, books: Index, resting: seq<Order>, o: Order, pos: nat)
    requires Indexed(orders, books, resting) && DistinctWire(resting) && o in resting
    requires var q := QueueAt(books, o.At());
             pos <= |q| && WireId(o.id) !in q[..pos] && (pos < |q| ==> q[pos] == WireId(o.id))
    ensures o.At() in books && pos < |books[o.At()]|
    ensures var q := books[o.At()];
            Mid(orders - {WireId(o.id)}, books[o.At() := q[..pos] + q[pos + 1..]], Without(resting, o.id), o.At())
  {
    var k :| 0 <= k < |resting| && resting[k] == o;
    hide Queue, Without, DistinctWire, OrdersMatch, QueuesMatch, WireId;
    WithoutAt(resting, k);
    DistinctRemove(resting, k);
    RemoveOrder(orders, resting, k);
    QueueRemove(books, resting, k, pos);
  }

  lemma {:induction false} MatchEmpty(cur: seq<Order>, lv: Level, qty: nat)
    requires qty == 0 || Queue(cur, lv) == []
    ensures Match(cur, lv, qty) == Matched(cur, [], qty)
  {
    if qty > 0 && cur != [] {
      MatchEmpty(cur[1..], lv, qty);
    }
  }
}
