/** Isolation: what happens at one instrument and price is decided by the operations addressed to
    it alone. */
module BookIsolation {
  import opened Book
  import opened BookOrders

  datatype Key = Key(inst: Inst, price: nat) {
    predicate Has(o: Order) {
      o.inst == inst && o.price == price
    }

    predicate HasOp(op: Op) {
      op.Submit? && op.inst == inst && op.price == price
    }
  }

  /** An operation together with the id it gets, if it is a submit. */
  datatype Tagged = Tagged(id: nat, op: Op)

  /** The operations of a run with the ids the run hands out. */
  function Tag(ops: seq<Op>): seq<Tagged> {
    if ops == [] then []
    else Tag(ops[..|ops| - 1]) + [Tagged(Submits(ops[..|ops| - 1]), ops[|ops| - 1])]
  }

  datatype Played = Played(resting: seq<Order>, outcomes: seq<Outcome>)

  /** A run of operations whose ids are given. */
  function RunTagged(ts: seq<Tagged>): (r: Played)
    ensures |r.outcomes| == |ts|
  {
    if ts == [] then Played([], [])
    else
      var r, t := RunTagged(ts[..|ts| - 1]), ts[|ts| - 1];
      var (resting, outcome) := Apply(r.resting, t.id, t.op);
      Played(resting, r.outcomes + [outcome])
  }

  function AtKey(resting: seq<Order>, k: Key): seq<Order> {
    if resting == [] then []
    else if k.Has(resting[0]) then [resting[0]] + AtKey(resting[1..], k)
    else AtKey(resting[1..], k)
  }

  /** Addressed to the key: a submit there, or a cancel of an order submitted there. */
  predicate Addressed(t: Tagged, ids: set<nat>, k: Key) {
    if t.op.Submit? then k.HasOp(t.op) else t.op.id in ids
  }

  function Restrict(ts: seq<Tagged>, ids: set<nat>, k: Key): seq<Tagged> {
    if ts == [] then []
    else
      var r, t := Restrict(ts[..|ts| - 1], ids, k), ts[|ts| - 1];
      if Addressed(t, ids, k) then r + [t] else r
  }

  /** The outcomes at the positions that `Restrict` keeps. */
  function Kept(ts: seq<Tagged>, outs: seq<Outcome>, ids: set<nat>, k: Key): seq<Outcome>
    requires |ts| == |outs|
  {
    if ts == [] then []
    else
      var n := |ts| - 1;
      var r := Kept(ts[..n], outs[..n], ids, k);
      if Addressed(ts[n], ids, k) then r + [outs[n]] else r
  }

  ghost function IdsAt(ts: seq<Tagged>, k: Key): set<nat> {
    set t | t in ts && k.HasOp(t.op) :: t.id
  }

  function TradesAt(trades: seq<Trade>, k: Key): seq<Trade> {
    if trades == [] then []
    else
      var r, t := TradesAt(trades[..|trades| - 1], k), trades[|trades| - 1];
      if t.inst == k.inst && t.price == k.price then r + [t] else r
  }

  // ------------------------------------------------------------------ filtering one step

  lemma {:induction false} AtKeyConcat(a: seq<Order>, b: seq<Order>, k: Key)
    ensures AtKey(a + b, k) == AtKey(a, k) + AtKey(b, k)
  {
    if a == [] {
      assert a + b == b;
    } else {
      assert (a + b)[1..] == a[1..] + b;
      AtKeyConcat(a[1..], b, k);
    }
  }

  lemma AtKeyCons(o: Order, t: seq<Order>, k: Key)
    ensures AtKey([o] + t, k) == if k.Has(o) then [o] + AtKey(t, k) else AtKey(t, k)
  {
    assert ([o] + t)[1..] == t;
  }

  lemma {:induction false} MatchOnKey(resting: seq<Order>, lv: Level, qty: nat, k: Key)
    requires lv.inst == k.inst && lv.price == k.price
    ensures var m := Match(resting, lv, qty);
            Match(AtKey(resting, k), lv, qty) == m.(rest := AtKey(m.rest, k))
  {
    hide AtKey;
    if resting == [] {
      assert AtKey(resting, k) == [] by { AtKeyEmpty(k); }
    } else {
      var o, t := resting[0], resting[1..];
      assert resting == [o] + t;
      AtKeyCons(o, t, k);
      if qty > 0 {
        assert k.Has(o) ==> (([o] + AtKey(t, k))[1..] == AtKey(t, k));
        if o.At() != lv {
          MatchOnKey(t, lv, qty, k);
          AtKeyCons(o, Match(t, lv, qty).rest, k);
        } else if o.remaining <= qty {
          MatchOnKey(t, lv, qty - o.remaining, k);
        } else {
          AtKeyCons(o.(remaining := o.remaining - qty), t, k);
        }
      }
    }
  }

  lemma AtKeyEmpty(k: Key)
    ensures AtKey([], k) == []
  {
  }

  lemma {:induction false} MatchOffKey(resting: seq<Order>, lv: Level, qty: nat, k: Key)
    requires lv.inst != k.inst || lv.price != k.price
    ensures AtKey(Match(resting, lv, qty).rest, k) == AtKey(resting, k)
  {
    if resting != [] && qty > 0 {
      hide AtKey;
      var o, t := resting[0], resting[1..];
      assert resting == [o] + t;
      AtKeyCons(o, t, k);
      if o.At() != lv {
        MatchOffKey(t, lv, qty, k);
        AtKeyCons(o, Match(t, lv, qty).rest, k);
      } else if o.remaining <= qty {
        MatchOffKey(t, lv, qty - o.remaining, k);
      } else {
        AtKeyCons(o.(remaining := o.remaining - qty), t, k);
      }
    }
  }

  /** The ids in `ids` are exactly those of the resting orders at the key. */
  ghost predicate Labelled(resting: seq<Order>, ids: set<nat>, k: Key) {
    forall i :: 0 <= i < |resting| ==> (resting[i].id in ids <==> k.Has(resting[i]))
  }

  lemma {:induction false} WithoutAtKey(resting: seq<Order>, id: nat, ids: set<nat>, k: Key)
    requires Labelled(resting, ids, k)
    ensures AtKey(Without(resting, id), k) == if id in ids then Without(AtKey(resting, k), id) else AtKey(resting, k)
    ensures id in ids ==> Lookup(AtKey(resting, k), id) == Lookup(resting, id)
  {
    if resting != [] {
      var o, t := resting[0], resting[1..];
      WithoutAtKey(t, id, ids, k);
      AtKeyCons(o, Without(t, id), k);
      assert ([o] + AtKey(t, k))[1..] == AtKey(t, k);
    }
  }

  /** One operation, seen from the key: the same step there if it is addressed to the key, and no
      step at all otherwise. */
  lemma ApplyAtKey(resting: seq<Order>, t: Tagged, ids: set<nat>, k: Key)
    requires Labelled(resting, ids, k)
    ensures var (after, out) := Apply(resting, t.id, t.op);
            if Addressed(t, ids, k) then Apply(AtKey(resting, k), t.id, t.op) == (AtKey(after, k), out)
            else AtKey(after, k) == AtKey(resting, k)
  {
    hide AtKey, Match;
    match t.op
    case Submit(side, inst, qty, price, owner) =>
      var o := Order(t.id, side, inst, price, qty, owner);
      var lv := o.At().Opposite();
      var m := Match(resting, lv, qty);
      if k.HasOp(t.op) {
        MatchOnKey(resting, lv, qty, k);
      } else {
        MatchOffKey(resting, lv, qty, k);
      }
      AtKeyConcat(m.rest, [o.(remaining := m.left)], k);
      AtKeyCons(o.(remaining := m.left), [], k);
      AtKeyEmpty(k);
      assert [o.(remaining := m.left)] + [] == [o.(remaining := m.left)];
    case Cancel(target, canceller) =>
      WithoutAtKey(resting, target, ids, k);
      CancelOffKey(resting, target, ids, k);
  }

  lemma {:induction false} CancelOffKey(resting: seq<Order>, id: nat, ids: set<nat>, k: Key)
    requires Labelled(resting, ids, k)
    ensures Lookup(resting, id).Some? ==>
              Lookup(resting, id).value.id == id && (id in ids <==> k.Has(Lookup(resting, id).value))
  {
    if resting != [] && resting[0].id != id {
      CancelOffKey(resting[1..], id, ids, k);
    }
  }

  ghost predicate WellTagged(ts: seq<Tagged>, ids: set<nat>, k: Key) {
    forall i :: 0 <= i < |ts| && ts[i].op.Submit? ==> (ts[i].id in ids <==> k.HasOp(ts[i].op))
  }

  lemma {:induction false} WithoutLabelled(resting: seq<Order>, id: nat, ids: set<nat>, k: Key)
    requires Labelled(resting, ids, k)
    ensures Labelled(Without(resting, id), ids, k)
  {
    if resting != [] {
      WithoutLabelled(resting[1..], id, ids, k);
    }
  }

  lemma MatchLabelled(resting: seq<Order>, lv: Level, qty: nat, ids: set<nat>, k: Key)
    requires Labelled(resting, ids, k)
    ensures Labelled(Match(resting, lv, qty).rest, ids, k)
  {
    hide Match;
    var rest := Match(resting, lv, qty).rest;
    MatchStubs(resting, lv, qty);
    forall i | 0 <= i < |rest|
      ensures rest[i].id in ids <==> k.Has(rest[i])
    {
      StubsOf(rest, i);
      var p :| p in resting && p.(remaining := 0) == rest[i].(remaining := 0);
      assert p.id == p.(remaining := 0).id && k.Has(p) == k.Has(p.(remaining := 0));
      assert k.Has(rest[i]) == k.Has(rest[i].(remaining := 0));
    }
  }

  lemma ApplyLabelled(resting: seq<Order>, t: Tagged, ids: set<nat>, k: Key)
    requires Labelled(resting, ids, k)
    requires t.op.Submit? ==> (t.id in ids <==> k.HasOp(t.op))
    ensures Labelled(Apply(resting, t.id, t.op).0, ids, k)
  {
    match t.op
    case Submit(side, inst, qty, price, owner) =>
      MatchLabelled(resting, Level(inst, side, price).Opposite(), qty, ids, k);
    case Cancel(target, canceller) =>
      WithoutLabelled(resting, target, ids, k);
  }

  // ------------------------------------------------------------------ whole runs

  lemma {:induction false} TaggedIsolation(ts: seq<Tagged>, ids: set<nat>, k: Key)
    requires WellTagged(ts, ids, k)
    ensures Labelled(RunTagged(ts).resting, ids, k)
    ensures RunTagged(Restrict(ts, ids, k)).resting == AtKey(RunTagged(ts).resting, k)
    ensures RunTagged(Restrict(ts, ids, k)).outcomes == Kept(ts, RunTagged(ts).outcomes, ids, k)
  {
    if ts != [] {
      hide Apply, AtKey, Labelled;
      var n := |ts| - 1;
      TaggedIsolation(ts[..n], ids, k);
      var r, t := RunTagged(ts[..n]), ts[n];
      ApplyAtKey(r.resting, t, ids, k);
      ApplyLabelled(r.resting, t, ids, k);
      assert RunTagged(ts).outcomes[..n] == r.outcomes;
      var sub := Restrict(ts[..n], ids, k);
      assert (sub + [t])[..|sub|] == sub;
    } else {
      AtKeyEmpty(k);
    }
  }

  lemma {:induction false} TagRuns(ops: seq<Op>)
    ensures RunTagged(Tag(ops)) == Played(Run(ops).book.resting, Run(ops).outcomes)
    ensures |Tag(ops)| == |ops|
  {
    if ops != [] {
      var n := |ops| - 1;
      TagRuns(ops[..n]);
      IdsCount(ops[..n]);
      assert Tag(ops)[..n] == Tag(ops[..n]);
    }
  }

  lemma {:induction false} TagIds(ops: seq<Op>)
    ensures forall i :: 0 <= i < |Tag(ops)| && Tag(ops)[i].op.Submit? ==> Tag(ops)[i].id < Submits(ops)
    ensures forall i, j :: 0 <= i < j < |Tag(ops)| && Tag(ops)[i].op.Submit? && Tag(ops)[j].op.Submit? ==>
              Tag(ops)[i].id < Tag(ops)[j].id
  {
    if ops != [] {
      TagIds(ops[..|ops| - 1]);
    }
  }

  /** Keeping only the operations addressed to one instrument and price, with the ids they had,
      gives the same outcomes for them and the same resting orders there. */
  lemma Isolation(ops: seq<Op>, k: Key)
    ensures var ts := Tag(ops);
            var ids := IdsAt(ts, k);
            var sub := RunTagged(Restrict(ts, ids, k));
            && |ts| == |ops|
            && sub.resting == AtKey(Run(ops).book.resting, k)
            && sub.outcomes == Kept(ts, Run(ops).outcomes, ids, k)
            && Trades(sub.outcomes) == TradesAt(Trades(Run(ops).outcomes), k)
  {
    var ts := Tag(ops);
    var ids := IdsAt(ts, k);
    TagRuns(ops);
    TagIds(ops);
    forall i | 0 <= i < |ts| && ts[i].op.Submit?
      ensures ts[i].id in ids <==> k.HasOp(ts[i].op)
    {
      if ts[i].id in ids {
        var t :| t in ts && k.HasOp(t.op) && t.id == ts[i].id;
        var j :| 0 <= j < |ts| && ts[j] == t;
        assert i == j;
      }
    }
    TaggedIsolation(ts, ids, k);
    KeptTrades(ts, ids, k);
  }

  lemma {:induction false} TradesAtConcat(a: seq<Trade>, b: seq<Trade>, k: Key)
    ensures TradesAt(a + b, k) == TradesAt(a, k) + TradesAt(b, k)
  {
    if b == [] {
      assert a + b == a;
    } else {
      assert (a + b)[..|a + b| - 1] == a + b[..|b| - 1];
      TradesAtConcat(a, b[..|b| - 1], k);
    }
  }

  lemma {:induction false} SubmitTradesAt(taker: Order, fills: seq<Fill>, k: Key)
    ensures TradesAt(TradesOf(taker, fills), k) == if k.Has(taker) then TradesOf(taker, fills) else []
  {
    if fills == [] {
      assert TradesOf(taker, fills) == [];
    } else {
      var n := |fills| - 1;
      SubmitTradesAt(taker, fills[..n], k);
      assert TradesOf(taker, fills) == TradesOf(taker, fills[..n]) + [TradeOf(taker, fills[n])];
    }
  }

  lemma {:induction false} KeptTrades(ts: seq<Tagged>, ids: set<nat>, k: Key)
    ensures Trades(Kept(ts, RunTagged(ts).outcomes, ids, k)) == TradesAt(Trades(RunTagged(ts).outcomes), k)
  {
    if ts != [] {
      var n := |ts| - 1;
      KeptTrades(ts[..n], ids, k);
      var r, t := RunTagged(ts[..n]), ts[n];
      var out := Apply(r.resting, t.id, t.op).1;
      assert RunTagged(ts).outcomes[..n] == r.outcomes;
      TradesAtConcat(Trades(r.outcomes), OutcomeTrades(out), k);
      if t.op.Submit? {
        SubmitTradesAt(out.order, out.fills, k);
      }
      var kept := Kept(ts[..n], r.outcomes, ids, k);
      assert (kept + [out])[..|kept|] == kept;
    }
  }
}
