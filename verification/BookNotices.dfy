/** What the exchange owes its traders to be told: for every accepted order its announcement and then
    both sides of every fill, for every cancelled order its confirmation, in order.  Nothing here
    depends on ids being free: it holds of whatever the tables do. */
module BookNotices {
  import opened Book
  import opened BookVolumes
  import opened ExchangeStore
  import opened Protocol

  /** A message owed to `owner` about its order number `id`. */
  datatype Notice = Notice(owner: int, id: nat, msg: Msg)

  function BoughtMsg(t: Trade): Msg { Exec(Bought, t.inst, t.qty, t.price) }

  function SoldMsg(t: Trade): Msg { Exec(Sold, t.inst, t.qty, t.price) }

  /** The buyer's notice, then the seller's. */
  function FillPair(taker: Order, f: Fill): seq<Notice> {
    var t := TradeOf(taker, f);
    if taker.side == Buy then [Notice(t.buyer, taker.id, BoughtMsg(t)), Notice(t.seller, f.maker.id, SoldMsg(t))]
    else [Notice(t.buyer, f.maker.id, BoughtMsg(t)), Notice(t.seller, taker.id, SoldMsg(t))]
  }

  function FillNotices(taker: Order, fills: seq<Fill>): seq<Notice> {
    if fills == [] then [] else FillPair(taker, fills[0]) + FillNotices(taker, fills[1..])
  }

  function Announcement(o: Order): Notice {
    Notice(o.owner, o.id, OrderAccepted(WireId(o.id)))
  }

  function OutcomeNotices(o: Outcome): seq<Notice> {
    match o
    case Submitted(order, fills, left) => [Announcement(order)] + FillNotices(order, fills)
    case Cancelled(order) => [Notice(order.owner, order.id, OrderCancelled(WireId(order.id)))]
    case Refused(reason) => []
  }

  function Notices(outs: seq<Outcome>): seq<Notice> {
    if outs == [] then [] else Notices(outs[..|outs| - 1]) + OutcomeNotices(outs[|outs| - 1])
  }

  /** The notices owed to one owner. */
  function For(owner: int, ns: seq<Notice>): seq<Notice> {
    if ns == [] then []
    else if ns[0].owner == owner then [ns[0]] + For(owner, ns[1..])
    else For(owner, ns[1..])
  }

  function Msgs(ns: seq<Notice>): (ms: seq<Msg>)
    ensures |ms| == |ns|
  {
    seq(|ns|, i requires 0 <= i < |ns| => ns[i].msg)
  }

  /** The transcript of an owner: everything it is to be told about its orders, in order. */
  function Transcript(outs: seq<Outcome>, owner: int): seq<Notice> {
    For(owner, Notices(outs))
  }

  lemma {:induction false} ForConcat(owner: int, a: seq<Notice>, b: seq<Notice>)
    ensures For(owner, a + b) == For(owner, a) + For(owner, b)
  {
    if a == [] {
      assert a + b == b;
    } else {
      assert (a + b)[1..] == a[1..] + b;
      ForConcat(owner, a[1..], b);
    }
  }

  lemma MsgsConcat(a: seq<Notice>, b: seq<Notice>)
    ensures Msgs(a + b) == Msgs(a) + Msgs(b)
  {
  }

  lemma ForOne(owner: int, n: Notice)
    ensures For(owner, [n]) == if n.owner == owner then [n] else []
  {
    assert [n][1..] == [];
  }

  lemma NoticesSnoc(outs: seq<Outcome>, o: Outcome)
    ensures Notices(outs + [o]) == Notices(outs) + OutcomeNotices(o)
  {
    assert (outs + [o])[..|outs|] == outs;
  }

  lemma {:induction false} ForMembers(owner: int, ns: seq<Notice>, n: Notice)
    ensures n in For(owner, ns) <==> n in ns && n.owner == owner
  {
    if ns != [] {
      ForMembers(owner, ns[1..], n);
      assert ns == [ns[0]] + ns[1..];
    }
  }

  // ------------------------------------------------------------------ who is told about what

  /** A fill notice is about the taker's order or about a filled one, and goes to that order's owner. */
  lemma {:induction false} FillNoticeAbout(taker: Order, fills: seq<Fill>, n: Notice)
    requires n in FillNotices(taker, fills)
    ensures n.msg.Exec? && n.msg.verb != TradeVerb
    ensures (n.id == taker.id && n.owner == taker.owner) ||
            exists f :: f in fills && n.id == f.maker.id && n.owner == f.maker.owner
  {
    if n !in FillPair(taker, fills[0]) {
      FillNoticeAbout(taker, fills[1..], n);
    }
  }

  /** Every notice of an outcome is about the order just accepted or about one accepted before. */
  lemma NoticeAbout(outs: seq<Outcome>, o: Outcome, n: Notice)
    requires Rooted(outs, o) && n in OutcomeNotices(o)
    ensures || (o.Submitted? && n.id == o.order.id && n.owner == o.order.owner)
            || SubmittedIn(outs, n.id, n.owner)
    ensures n.msg.OrderAccepted? ==> o.Submitted? && n == Announcement(o.order)
  {
    hide SubmittedIn;
    if o.Submitted? && n != Announcement(o.order) {
      FillNoticeAbout(o.order, o.fills, n);
      if f :| f in o.fills && n.id == f.maker.id && n.owner == f.maker.owner {
        var i :| 0 <= i < |o.fills| && o.fills[i] == f;
      }
    }
  }

  lemma {:induction false} ForNobody(owner: int, ns: seq<Notice>)
    requires forall n :: n in ns ==> n.owner != owner
    ensures For(owner, ns) == []
  {
    if ns != [] {
      ForNobody(owner, ns[1..]);
    }
  }

  lemma GroundedPrefix(outs: seq<Outcome>)
    requires Grounded(outs) && Numbered(outs) && outs != []
    ensures var n := |outs| - 1;
            && Grounded(outs[..n]) && Numbered(outs[..n]) && Rooted(outs[..n], outs[n])
            && (outs[n].Submitted? ==> outs[n].order.id == AcceptedCount(outs[..n]))
  {
    hide Rooted;
    var n := |outs| - 1;
    forall k | 0 <= k < n
      ensures outs[..n][..k] == outs[..k]
    {
    }
  }

  /** Nobody is told anything who has not submitted an order. */
  lemma {:induction false} NoNotices(outs: seq<Outcome>, owner: int)
    requires Grounded(outs) && Numbered(outs)
    requires forall k :: 0 <= k < |outs| && outs[k].Submitted? ==> outs[k].order.owner != owner
    ensures Transcript(outs, owner) == []
  {
    if outs != [] {
      hide Grounded, Numbered, Rooted, OutcomeNotices;
      var before, o := outs[..|outs| - 1], outs[|outs| - 1];
      GroundedPrefix(outs);
      NoNotices(before, owner);
      ForConcat(owner, Notices(before), OutcomeNotices(o));
      forall n | n in OutcomeNotices(o)
        ensures n.owner != owner
      {
        NoticeAbout(before, o, n);
      }
      ForNobody(owner, OutcomeNotices(o));
    }
  }

  // ------------------------------------------------------------------ announcements come first

  ghost predicate AnnouncedIn(ns: seq<Notice>, id: nat) {
    exists i :: 0 <= i < |ns| && ns[i].id == id && ns[i].msg == OrderAccepted(WireId(id))
  }

  /** Every notice but an announcement comes after the announcement of the order it is about. */
  ghost predicate Preceded(ns: seq<Notice>) {
    forall j :: 0 <= j < |ns| && !ns[j].msg.OrderAccepted? ==> AnnouncedIn(ns[..j], ns[j].id)
  }

  /** Announcements carry increasing order numbers, so none comes twice, all below `bound`. */
  ghost predicate Once(ns: seq<Notice>, bound: nat) {
    && (forall i :: 0 <= i < |ns| && ns[i].msg.OrderAccepted? ==>
          ns[i].id < bound && ns[i].msg == OrderAccepted(WireId(ns[i].id)))
    && (forall i, j :: 0 <= i < j < |ns| && ns[i].msg.OrderAccepted? && ns[j].msg.OrderAccepted? ==>
          ns[i].id < ns[j].id)
  }

  lemma AnnouncedMore(a: seq<Notice>, b: seq<Notice>, id: nat)
    requires AnnouncedIn(a, id)
    ensures AnnouncedIn(a + b, id)
  {
    var i :| 0 <= i < |a| && a[i].id == id && a[i].msg == OrderAccepted(WireId(id));
    assert (a + b)[i] == a[i];
  }

  lemma PrecededConcat(a: seq<Notice>, b: seq<Notice>)
    requires Preceded(a)
    requires forall j :: 0 <= j < |b| && !b[j].msg.OrderAccepted? ==> AnnouncedIn(a + b[..j], b[j].id)
    ensures Preceded(a + b)
  {
    var ns := a + b;
    forall j | 0 <= j < |ns| && !ns[j].msg.OrderAccepted?
      ensures AnnouncedIn(ns[..j], ns[j].id)
    {
      if j < |a| {
        assert ns[..j] == a[..j] && ns[j] == a[j];
      } else {
        assert ns[..j] == a + b[..j - |a|] && ns[j] == b[j - |a|];
      }
    }
  }

  lemma AnnouncedNow(ns: seq<Notice>, out: Outcome, owner: int)
    requires out.Submitted? && out.order.owner == owner
    ensures AnnouncedIn(For(owner, ns) + For(owner, OutcomeNotices(out)), out.order.id)
  {
    var a := Announcement(out.order);
    var mine := For(owner, OutcomeNotices(out));
    ForConcat(owner, [a], FillNotices(out.order, out.fills));
    ForOne(owner, a);
    assert mine[0] == a;
    assert (For(owner, ns) + mine)[|For(owner, ns)|] == a;
  }

  /** Every accepted order is announced in its owner's transcript. */
  lemma {:induction false} AllAnnounced(outs: seq<Outcome>, id: nat, owner: int)
    requires SubmittedIn(outs, id, owner)
    ensures AnnouncedIn(Transcript(outs, owner), id)
  {
    hide AnnouncedIn, OutcomeNotices;
    var before, o := outs[..|outs| - 1], outs[|outs| - 1];
    var j :| 0 <= j < |outs| && outs[j].Submitted? && outs[j].order.id == id && outs[j].order.owner == owner;
    ForConcat(owner, Notices(before), OutcomeNotices(o));
    if j < |before| {
      assert before[j] == outs[j];
      AllAnnounced(before, id, owner);
      AnnouncedMore(Transcript(before, owner), For(owner, OutcomeNotices(o)), id);
    } else {
      AnnouncedNow(Notices(before), o, owner);
    }
  }

  /** In every transcript, executions and cancellations of an order come after its announcement, and
      every order is announced at most once. */
  lemma {:induction false} TranscriptOrdered(outs: seq<Outcome>, owner: int)
    requires Grounded(outs) && Numbered(outs)
    ensures Preceded(Transcript(outs, owner))
    ensures Once(Transcript(outs, owner), AcceptedCount(outs))
  {
    if outs != [] {
      hide Preceded, Once, AnnouncedIn, Grounded, Numbered, Rooted, OutcomeNotices;
      var before, o := outs[..|outs| - 1], outs[|outs| - 1];
      GroundedPrefix(outs);
      TranscriptOrdered(before, owner);
      ForConcat(owner, Notices(before), OutcomeNotices(o));
      StepPreceded(before, o, owner);
      StepOnce(Transcript(before, owner), o, owner, AcceptedCount(before));
    }
  }

  lemma StepPreceded(outs: seq<Outcome>, o: Outcome, owner: int)
    requires Preceded(Transcript(outs, owner)) && Rooted(outs, o)
    ensures Preceded(Transcript(outs, owner) + For(owner, OutcomeNotices(o)))
  {
    hide Preceded, AnnouncedIn, Notices, OutcomeNotices, Rooted, SubmittedIn;
    var a, new_ := Transcript(outs, owner), For(owner, OutcomeNotices(o));
    forall j | 0 <= j < |new_| && !new_[j].msg.OrderAccepted?
      ensures AnnouncedIn(a + new_[..j], new_[j].id)
    {
      ForMembers(owner, OutcomeNotices(o), new_[j]);
      NoticeAbout(outs, o, new_[j]);
      if o.Submitted? && new_[j].id == o.order.id && o.order.owner == owner {
        HeadAnnounced(o, owner, a, j);
      } else {
        AllAnnounced(outs, new_[j].id, owner);
        AnnouncedMore(a, new_[..j], new_[j].id);
      }
    }
    PrecededConcat(a, new_);
  }

  lemma HeadAnnounced(out: Outcome, owner: int, a: seq<Notice>, j: nat)
    requires out.Submitted? && out.order.owner == owner
    requires var new_ := For(owner, OutcomeNotices(out)); j < |new_| && !new_[j].msg.OrderAccepted?
    ensures AnnouncedIn(a + For(owner, OutcomeNotices(out))[..j], out.order.id)
  {
    var first := Announcement(out.order);
    var new_ := For(owner, OutcomeNotices(out));
    ForConcat(owner, [first], FillNotices(out.order, out.fills));
    ForOne(owner, first);
    assert new_[0] == first && j > 0;
    assert (a + new_[..j])[|a|] == first;
  }

  lemma StepOnce(a: seq<Notice>, o: Outcome, owner: int, bound: nat)
    requires Once(a, bound) && (o.Submitted? ==> o.order.id == bound)
    ensures Once(a + For(owner, OutcomeNotices(o)), bound + if o.Submitted? then 1 else 0)
  {
    hide WireId;
    var new_ := For(owner, OutcomeNotices(o));
    forall j | 0 <= j < |new_| && new_[j].msg.OrderAccepted?
      ensures j == 0 && o.Submitted? && new_[j] == Announcement(o.order)
    {
      ForMembers(owner, OutcomeNotices(o), new_[j]);
      if o.Submitted? {
        OnlyHeadAnnounces(o, owner, j);
      }
    }
    var ns := a + new_;
    forall j | 0 <= j < |ns| && ns[j].msg.OrderAccepted?
      ensures || j < |a|
              || (j == |a| && o.Submitted? && ns[j].id == bound && ns[j].msg == OrderAccepted(WireId(bound)))
    {
      if j >= |a| {
        assert ns[j] == new_[j - |a|];
      }
    }
  }

  lemma OnlyHeadAnnounces(out: Outcome, owner: int, j: nat)
    requires out.Submitted?
    requires var new_ := For(owner, OutcomeNotices(out)); j < |new_| && new_[j].msg.OrderAccepted?
    ensures j == 0 && For(owner, OutcomeNotices(out))[0] == Announcement(out.order)
  {
    var first := Announcement(out.order);
    var fills := FillNotices(out.order, out.fills);
    ForConcat(owner, [first], fills);
    ForOne(owner, first);
    var new_ := For(owner, OutcomeNotices(out));
    var k := |For(owner, [first])|;
    if j >= k {
      assert new_[j] == For(owner, fills)[j - k];
      ForMembers(owner, fills, new_[j]);
      FillNoticeAbout(out.order, out.fills, new_[j]);
    }
  }

  // ------------------------------------------------------------------ quantities

  function VerbOf(side: Side): Verb {
    if side == Buy then Bought else Sold
  }

  function ReportedBy(m: Msg, lv: Level): nat {
    if m.Exec? && m.verb == VerbOf(lv.side) && m.inst == lv.inst && m.price == lv.price then m.qty else 0
  }

  /** The total of the BOUGHT (or SOLD) messages for `lv` in a list of messages. */
  function Reported(ms: seq<Msg>, lv: Level): nat {
    if ms == [] then 0 else Reported(ms[..|ms| - 1], lv) + ReportedBy(ms[|ms| - 1], lv)
  }

  lemma {:induction false} ReportedConcat(a: seq<Msg>, b: seq<Msg>, lv: Level)
    ensures Reported(a + b, lv) == Reported(a, lv) + Reported(b, lv)
  {
    if b == [] {
      assert a + b == a;
    } else {
      assert (a + b)[..|a + b| - 1] == a + b[..|b| - 1];
      ReportedConcat(a, b[..|b| - 1], lv);
    }
  }

  lemma ReportedOne(m: Msg, lv: Level)
    ensures Reported([m], lv) == ReportedBy(m, lv)
  {
    assert [m][..0] == [];
  }

  /** A fill reports to an owner exactly its share of the trade, on both sides if it traded with
      itself. */
  lemma PairReports(taker: Order, f: Fill, owner: int, lv: Level)
    ensures Reported(Msgs(For(owner, FillPair(taker, f))), lv) == TradeShare(TradeOf(taker, f), lv, Only(owner))
  {
    hide Reported, For;
    var p := FillPair(taker, f);
    assert p == [p[0]] + [p[1]];
    ForConcat(owner, [p[0]], [p[1]]);
    ForOne(owner, p[0]);
    ForOne(owner, p[1]);
    MsgsConcat(For(owner, [p[0]]), For(owner, [p[1]]));
    ReportedConcat(Msgs(For(owner, [p[0]])), Msgs(For(owner, [p[1]])), lv);
    OneReports(p[0], owner, lv);
    OneReports(p[1], owner, lv);
  }

  lemma OneReports(n: Notice, owner: int, lv: Level)
    ensures Reported(Msgs(For(owner, [n])), lv) == if n.owner == owner then ReportedBy(n.msg, lv) else 0
  {
    ForOne(owner, n);
    ReportedOne(n.msg, lv);
    assert Msgs([n]) == [n.msg] && Msgs([]) == [];
  }

  lemma {:induction false} FillsReport(taker: Order, fills: seq<Fill>, owner: int, lv: Level)
    ensures Reported(Msgs(For(owner, FillNotices(taker, fills))), lv) == Traded(TradesOf(taker, fills), lv, Only(owner))
  {
    if fills == [] {
      assert TradesOf(taker, fills) == [];
    } else {
      hide Reported, For, Traded, FillPair;
      var f, rest := fills[0], FillNotices(taker, fills[1..]);
      FillsReport(taker, fills[1..], owner, lv);
      ForConcat(owner, FillPair(taker, f), rest);
      MsgsConcat(For(owner, FillPair(taker, f)), For(owner, rest));
      ReportedConcat(Msgs(For(owner, FillPair(taker, f))), Msgs(For(owner, rest)), lv);
      PairReports(taker, f, owner, lv);
      TradesCons(taker, f, fills[1..], lv, Only(owner));
      assert fills == [f] + fills[1..];
    }
  }

  lemma OutcomeReports(o: Outcome, owner: int, lv: Level)
    ensures Reported(Msgs(For(owner, OutcomeNotices(o))), lv) == Traded(OutcomeTrades(o), lv, Only(owner))
  {
    hide Reported, For, Traded, FillNotices;
    match o
    case Submitted(order, fills, left) =>
      var a := Announcement(order);
      ForConcat(owner, [a], FillNotices(order, fills));
      MsgsConcat(For(owner, [a]), For(owner, FillNotices(order, fills)));
      ReportedConcat(Msgs(For(owner, [a])), Msgs(For(owner, FillNotices(order, fills))), lv);
      OneReports(a, owner, lv);
      FillsReport(order, fills, owner, lv);
    case Cancelled(order) =>
      OneReports(Notice(order.owner, order.id, OrderCancelled(WireId(order.id))), owner, lv);
      NoTrade(lv, Only(owner));
    case Refused(reason) =>
      NothingSaid(owner, lv);
      NoTrade(lv, Only(owner));
  }

  lemma NoTrade(lv: Level, who: Who)
    ensures Traded([], lv, who) == 0
  {
  }

  lemma NothingSaid(owner: int, lv: Level)
    ensures Reported(Msgs(For(owner, [])), lv) == 0
  {
  }

  /** The executions in an owner's transcript add up to what it has traded. */
  lemma {:induction false} TranscriptReports(outs: seq<Outcome>, owner: int, lv: Level)
    ensures Reported(Msgs(Transcript(outs, owner)), lv) == Traded(Trades(outs), lv, Only(owner))
  {
    if outs != [] {
      hide Reported, For, Traded, OutcomeNotices, OutcomeTrades;
      var n := |outs| - 1;
      var a, b := Notices(outs[..n]), OutcomeNotices(outs[n]);
      TranscriptReports(outs[..n], owner, lv);
      ForConcat(owner, a, b);
      MsgsConcat(For(owner, a), For(owner, b));
      ReportedConcat(Msgs(For(owner, a)), Msgs(For(owner, b)), lv);
      OutcomeReports(outs[n], owner, lv);
      TradedConcat(Trades(outs[..n]), OutcomeTrades(outs[n]), lv, Only(owner));
    }
  }
}
