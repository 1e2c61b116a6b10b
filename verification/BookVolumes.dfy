/** Volumes over whole runs of the book: conservation per trader, the closed form of depth and
    traded volume, and independence of arrival order. */
module BookVolumes {
  import opened Book

  /** Whose quantities to count. */
  datatype Who = Anyone | Only(owner: int) {
    predicate Covers(x: int) {
      Anyone? || owner == x
    }
  }

  /** Quantity still resting at `lv`. */
  function Depth(resting: seq<Order>, lv: Level, who: Who): nat {
    if resting == [] then 0
    else (if resting[0].At() == lv && who.Covers(resting[0].owner) then resting[0].remaining else 0)
         + Depth(resting[1..], lv, who)
  }

  /** What one trade contributes to the `lv.side` side of the market at `lv`. */
  function TradeShare(t: Trade, lv: Level, who: Who): nat {
    if t.inst == lv.inst && t.price == lv.price && who.Covers(if lv.side == Buy then t.buyer else t.seller)
    then t.qty else 0
  }

  function Traded(trades: seq<Trade>, lv: Level, who: Who): nat {
    if trades == [] then 0
    else Traded(trades[..|trades| - 1], lv, who) + TradeShare(trades[|trades| - 1], lv, who)
  }

  /** Quantity accepted at `lv`. */
  function Accepted(outcomes: seq<Outcome>, lv: Level, who: Who): nat {
    if outcomes == [] then 0
    else
      var last := outcomes[|outcomes| - 1];
      Accepted(outcomes[..|outcomes| - 1], lv, who)
      + if last.Submitted? && last.order.At() == lv && who.Covers(last.order.owner) then last.order.remaining else 0
  }

  /** Remainders taken out of `lv` by cancelling. */
  function Withdrawn(outcomes: seq<Outcome>, lv: Level, who: Who): nat {
    if outcomes == [] then 0
    else
      var last := outcomes[|outcomes| - 1];
      Withdrawn(outcomes[..|outcomes| - 1], lv, who)
      + if last.Cancelled? && last.order.At() == lv && who.Covers(last.order.owner) then last.order.remaining else 0
  }

  // ------------------------------------------------------------------ one operation

  lemma {:induction false} DepthConcat(a: seq<Order>, b: seq<Order>, lv: Level, who: Who)
    ensures Depth(a + b, lv, who) == Depth(a, lv, who) + Depth(b, lv, who)
  {
    if a == [] {
      assert a + b == b;
    } else {
      assert (a + b)[1..] == a[1..] + b;
      DepthConcat(a[1..], b, lv, who);
    }
  }

  lemma {:induction false} TradedConcat(a: seq<Trade>, b: seq<Trade>, lv: Level, who: Who)
    ensures Traded(a + b, lv, who) == Traded(a, lv, who) + Traded(b, lv, who)
  {
    if b == [] {
      assert a + b == a;
    } else {
      assert (a + b)[..|a + b| - 1] == a + b[..|b| - 1];
      TradedConcat(a, b[..|b| - 1], lv, who);
    }
  }

  function Filled(fills: seq<Fill>): nat {
    if fills == [] then 0 else fills[0].qty + Filled(fills[1..])
  }

  lemma TradesCons(taker: Order, f: Fill, fills: seq<Fill>, lv: Level, who: Who)
    ensures Traded(TradesOf(taker, [f] + fills), lv, who) ==
            TradeShare(TradeOf(taker, f), lv, who) + Traded(TradesOf(taker, fills), lv, who)
  {
    assert TradesOf(taker, [f] + fills) == [TradeOf(taker, f)] + TradesOf(taker, fills);
    TradedConcat([TradeOf(taker, f)], TradesOf(taker, fills), lv, who);
    assert [TradeOf(taker, f)][..0] == [];
  }

  lemma {:induction false} MatchSplitsQty(resting: seq<Order>, lv: Level, qty: nat)
    ensures qty == Filled(Match(resting, lv, qty).fills) + Match(resting, lv, qty).left
  {
    if qty != 0 && resting != [] {
      var o, t := resting[0], resting[1..];
      if o.At() != lv {
        MatchSplitsQty(t, lv, qty);
      } else if o.remaining <= qty {
        MatchSplitsQty(t, lv, qty - o.remaining);
      }
    }
  }

  /** The taker's own side trades exactly what was filled. */
  lemma {:induction false} TakerShare(taker: Order, fills: seq<Fill>, who: Who)
    ensures Traded(TradesOf(taker, fills), taker.At(), who) == if who.Covers(taker.owner) then Filled(fills) else 0
  {
    if fills == [] {
      assert TradesOf(taker, fills) == [];
    } else {
      TakerShare(taker, fills[1..], who);
      TradesCons(taker, fills[0], fills[1..], taker.At(), who);
      assert fills == [fills[0]] + fills[1..];
    }
  }

  lemma DepthCons(o: Order, t: seq<Order>, lv: Level, who: Who)
    ensures Depth([o] + t, lv, who) ==
            (if o.At() == lv && who.Covers(o.owner) then o.remaining else 0) + Depth(t, lv, who)
  {
    assert ([o] + t)[1..] == t;
  }

  /** Matching moves quantity out of the opposite level, to the trades, and nowhere else. */
  lemma {:induction false} MatchConserves(resting: seq<Order>, taker: Order, qty: nat, lv: Level, who: Who)
    ensures var m := Match(resting, taker.At().Opposite(), qty);
            Depth(resting, lv, who) ==
            Depth(m.rest, lv, who) + if lv == taker.At() then 0 else Traded(TradesOf(taker, m.fills), lv, who)
  {
    hide Depth, Traded, TradesOf;
    var opp := taker.At().Opposite();
    var m := Match(resting, opp, qty);
    if qty == 0 || resting == [] {
      NoTrades(taker, lv, who);
    } else {
      var o, t := resting[0], resting[1..];
      assert resting == [o] + t;
      DepthCons(o, t, lv, who);
      if o.At() != opp {
        MatchConserves(t, taker, qty, lv, who);
        DepthCons(o, Match(t, opp, qty).rest, lv, who);
      } else if o.remaining <= qty {
        MatchConserves(t, taker, qty - o.remaining, lv, who);
        TradesCons(taker, Fill(o, o.remaining), Match(t, opp, qty - o.remaining).fills, lv, who);
      } else {
        NoTrades(taker, lv, who);
        TradesCons(taker, Fill(o, qty), [], lv, who);
        DepthCons(o.(remaining := o.remaining - qty), t, lv, who);
        assert [Fill(o, qty)] + [] == [Fill(o, qty)];
      }
    }
  }

  lemma NoTrades(taker: Order, lv: Level, who: Who)
    ensures Traded(TradesOf(taker, []), lv, who) == 0
  {
    assert TradesOf(taker, []) == [];
  }

  lemma {:induction false} WithoutDepth(resting: seq<Order>, id: nat, lv: Level, who: Who)
    requires Lookup(resting, id).Some?
    ensures var o := Lookup(resting, id).value;
            Depth(resting, lv, who) ==
            Depth(Without(resting, id), lv, who) + if o.At() == lv && who.Covers(o.owner) then o.remaining else 0
  {
    if resting[0].id != id {
      WithoutDepth(resting[1..], id, lv, who);
      assert ([resting[0]] + Without(resting[1..], id))[1..] == Without(resting[1..], id);
    }
  }

  // ------------------------------------------------------------------ whole runs

  lemma RunSnoc(ops: seq<Op>, op: Op)
    ensures Run(ops + [op]).book == Step(Run(ops).book, op).0
    ensures Run(ops + [op]).outcomes == Run(ops).outcomes + [Step(Run(ops).book, op).1]
    ensures Trades(Run(ops + [op]).outcomes) ==
            Trades(Run(ops).outcomes) + OutcomeTrades(Step(Run(ops).book, op).1)
  {
    assert (ops + [op])[..|ops|] == ops;
    var outs, o := Run(ops).outcomes, Step(Run(ops).book, op).1;
    assert (outs + [o])[..|outs|] == outs;
  }

  lemma VolumesSnoc(outs: seq<Outcome>, o: Outcome, lv: Level, who: Who)
    ensures Accepted(outs + [o], lv, who) == Accepted(outs, lv, who)
              + if o.Submitted? && o.order.At() == lv && who.Covers(o.order.owner) then o.order.remaining else 0
    ensures Withdrawn(outs + [o], lv, who) == Withdrawn(outs, lv, who)
              + if o.Cancelled? && o.order.At() == lv && who.Covers(o.order.owner) then o.order.remaining else 0
    ensures Traded(Trades(outs + [o]), lv, who) == Traded(Trades(outs), lv, who) + Traded(OutcomeTrades(o), lv, who)
  {
    assert (outs + [o])[..|outs|] == outs;
    TradedConcat(Trades(outs), OutcomeTrades(o), lv, who);
  }

  /** One operation accounts for everything it moves, for every trader at every level. */
  lemma StepConserves(b: Book, op: Op, lv: Level, who: Who)
    ensures var (b', o) := Step(b, op);
            Depth(b'.resting, lv, who) + Traded(OutcomeTrades(o), lv, who)
              + (if o.Cancelled? && o.order.At() == lv && who.Covers(o.order.owner) then o.order.remaining else 0)
            == Depth(b.resting, lv, who)
              + if o.Submitted? && o.order.At() == lv && who.Covers(o.order.owner) then o.order.remaining else 0
  {
    match op
    case Submit(side, inst, qty, price, owner) =>
      var taker := Order(b.nextId, side, inst, price, qty, owner);
      var m := Match(b.resting, taker.At().Opposite(), qty);
      MatchConserves(b.resting, taker, qty, lv, who);
      MatchSplitsQty(b.resting, taker.At().Opposite(), qty);
      TakerShare(taker, m.fills, who);
      var rested := taker.(remaining := m.left);
      if m.left > 0 {
        DepthConcat(m.rest, [rested], lv, who);
        assert [rested][1..] == [];
      }
    case Cancel(target, canceller) =>
      if Lookup(b.resting, target).Some? {
        WithoutDepth(b.resting, target, lv, who);
      }
  }

  /** Conservation: over every run, for every trader (and for all together), at every instrument,
      side and price, what was accepted is what was traded, plus what rests, plus what was
      cancelled. */
  lemma {:induction false} Conservation(ops: seq<Op>, lv: Level, who: Who)
    ensures Accepted(Run(ops).outcomes, lv, who) ==
            Traded(Trades(Run(ops).outcomes), lv, who) + Depth(Run(ops).book.resting, lv, who)
            + Withdrawn(Run(ops).outcomes, lv, who)
  {
    if ops != [] {
      var before, op := ops[..|ops| - 1], ops[|ops| - 1];
      Conservation(before, lv, who);
      StepConserves(Run(before).book, op, lv, who);
      VolumesSnoc(Run(before).outcomes, Step(Run(before).book, op).1, lv, who);
    }
  }

  lemma {:induction false} TradedBothSides(trades: seq<Trade>, lv: Level)
    ensures Traded(trades, lv, Anyone) == Traded(trades, lv.Opposite(), Anyone)
  {
    if trades != [] {
      TradedBothSides(trades[..|trades| - 1], lv);
    }
  }

  lemma {:induction false} DepthClear(resting: seq<Order>, lv: Level, who: Who)
    requires Clear(resting, lv)
    ensures Depth(resting, lv, who) == 0
  {
    if resting != [] {
      DepthClear(resting[1..], lv, who);
    }
  }

  lemma OneSideEmpty(b: Book, lv: Level)
    requires Good(b)
    ensures Depth(b.resting, lv, Anyone) == 0 || Depth(b.resting, lv.Opposite(), Anyone) == 0
  {
    if Clear(b.resting, lv) {
      DepthClear(b.resting, lv, Anyone);
    } else {
      var i :| 0 <= i < |b.resting| && b.resting[i].At() == lv;
      forall j | 0 <= j < |b.resting|
        ensures b.resting[j].At() != lv.Opposite()
      {
        assert b.resting[j].At() != b.resting[i].At().Opposite();
      }
      DepthClear(b.resting, lv.Opposite(), Anyone);
    }
  }

  /** Accepted minus cancelled quantity at `lv` over a run. */
  function Net(ops: seq<Op>, lv: Level): int {
    Accepted(Run(ops).outcomes, lv, Anyone) - Withdrawn(Run(ops).outcomes, lv, Anyone)
  }

  function Max(a: int, b: int): int { if a > b then a else b }

  function Min(a: int, b: int): int { if a < b then a else b }

  /** Closed form: with B and S the accepted minus cancelled buy and sell quantities at one
      instrument and price, max(0, B - S) rests on the buy side, max(0, S - B) on the sell side,
      and min(B, S) has traded, after every run. */
  lemma ClosedForm(ops: seq<Op>, inst: Inst, price: nat)
    ensures var buy, sell := Level(inst, Buy, price), Level(inst, Sell, price);
            var B, S := Net(ops, buy), Net(ops, sell);
            && Depth(Run(ops).book.resting, buy, Anyone) == Max(0, B - S)
            && Depth(Run(ops).book.resting, sell, Anyone) == Max(0, S - B)
            && Traded(Trades(Run(ops).outcomes), buy, Anyone) == Min(B, S)
  {
    var buy, sell := Level(inst, Buy, price), Level(inst, Sell, price);
    Conservation(ops, buy, Anyone);
    Conservation(ops, sell, Anyone);
    TradedBothSides(Trades(Run(ops).outcomes), buy);
    RunGood(ops);
    OneSideEmpty(Run(ops).book, buy);
  }

  // ------------------------------------------------------------------ order independence

  /** Quantity asked for at `lv`, read off the operations alone. */
  function Asked(ops: seq<Op>, lv: Level): nat {
    if ops == [] then 0
    else Asked(ops[1..], lv) + AskedBy(ops[0], lv)
  }

  function AskedBy(op: Op, lv: Level): nat {
    if op.Submit? && Level(op.inst, op.side, op.price) == lv then op.qty else 0
  }

  lemma {:induction false} AskedConcat(a: seq<Op>, b: seq<Op>, lv: Level)
    ensures Asked(a + b, lv) == Asked(a, lv) + Asked(b, lv)
  {
    if a == [] {
      assert a + b == b;
    } else {
      assert (a + b)[1..] == a[1..] + b;
      AskedConcat(a[1..], b, lv);
    }
  }

  lemma AskedOne(op: Op, lv: Level)
    ensures Asked([op], lv) == AskedBy(op, lv)
  {
    assert [op][1..] == [];
  }

  lemma NetSnoc(ops: seq<Op>, op: Op, lv: Level)
    requires op.Submit?
    ensures Net(ops + [op], lv) == Net(ops, lv) + AskedBy(op, lv)
  {
    hide Run, Accepted, Withdrawn, Trades, Match;
    RunSnoc(ops, op);
    VolumesSnoc(Run(ops).outcomes, Step(Run(ops).book, op).1, lv, Anyone);
  }

  lemma {:induction false} NetWithoutCancels(ops: seq<Op>, lv: Level)
    requires forall i :: 0 <= i < |ops| ==> ops[i].Submit?
    ensures Net(ops, lv) == Asked(ops, lv)
  {
    if ops != [] {
      hide Net, Asked;
      var before, op := ops[..|ops| - 1], ops[|ops| - 1];
      NetWithoutCancels(before, lv);
      NetSnoc(before, op, lv);
      assert ops == before + [op];
      AskedConcat(before, [op], lv);
      AskedOne(op, lv);
    }
  }

  lemma AskedAround(ops: seq<Op>, k: nat, lv: Level)
    requires k < |ops|
    ensures Asked(ops, lv) == AskedBy(ops[k], lv) + Asked(ops[..k] + ops[k + 1..], lv)
    ensures multiset(ops[..k] + ops[k + 1..]) == multiset(ops) - multiset{ops[k]}
  {
    assert ops == ops[..k] + [ops[k]] + ops[k + 1..];
    AskedConcat(ops[..k] + [ops[k]], ops[k + 1..], lv);
    AskedConcat(ops[..k], [ops[k]], lv);
    AskedConcat(ops[..k], ops[k + 1..], lv);
    assert [ops[k]][1..] == [];
  }

  lemma {:induction false} AskedPermuted(a: seq<Op>, b: seq<Op>, lv: Level)
    requires multiset(a) == multiset(b)
    ensures Asked(a, lv) == Asked(b, lv)
    decreases |a|
  {
    if a == [] {
      assert |multiset(b)| == 0;
    } else {
      hide Asked;
      assert a[0] in multiset(b);
      var k :| 0 <= k < |b| && b[k] == a[0];
      AskedAround(a, 0, lv);
      AskedAround(b, k, lv);
      AskedPermuted(a[..0] + a[1..], b[..k] + b[k + 1..], lv);
    }
  }

  /** Without cancels, depth and traded volume everywhere do not depend on the order in which the
      same orders arrive. */
  lemma OrderIndependence(a: seq<Op>, b: seq<Op>, lv: Level)
    requires forall i :: 0 <= i < |a| ==> a[i].Submit?
    requires multiset(a) == multiset(b)
    ensures Depth(Run(a).book.resting, lv, Anyone) == Depth(Run(b).book.resting, lv, Anyone)
    ensures Traded(Trades(Run(a).outcomes), lv, Anyone) == Traded(Trades(Run(b).outcomes), lv, Anyone)
  {
    hide Run, Asked, Depth, Traded, Trades, Net;
    forall i | 0 <= i < |b|
      ensures b[i].Submit?
    {
      assert b[i] in multiset(b);
      assert b[i] in a;
    }
    var buy, sell := Level(lv.inst, Buy, lv.price), Level(lv.inst, Sell, lv.price);
    assert lv == (if lv.side == Buy then buy else sell) && buy.Opposite() == sell;
    AskedPermuted(a, b, buy);
    AskedPermuted(a, b, sell);
    NetWithoutCancels(a, buy);
    NetWithoutCancels(a, sell);
    NetWithoutCancels(b, buy);
    NetWithoutCancels(b, sell);
    ClosedForm(a, lv.inst, lv.price);
    ClosedForm(b, lv.inst, lv.price);
    TradedBothSides(Trades(Run(a).outcomes), buy);
    TradedBothSides(Trades(Run(b).outcomes), buy);
  }
}
