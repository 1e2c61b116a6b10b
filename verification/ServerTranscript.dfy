/** What clients are told.  Every live trader's stream is, message for message, the transcript of what
    the exchange did with its orders; every live subscriber's is the tape of the trades published
    while it listened.  The stream of a dead connection is an initial part of that. */
module ServerTranscript {
  import opened Wrappers
  import opened Book
  import opened BookVolumes
  import opened ExchangeIndex
  import opened ExchangeStore
  import opened BookNotices
  import opened Protocol
  import opened ServerSpec
  import opened ServerConns
  import opened ServerRegistry

  // ------------------------------------------------------------------ reading a stream

  predicate IsBusiness(m: Msg) {
    m.OrderAccepted? || m.OrderCancelled? || (m.Exec? && m.verb != TradeVerb)
  }

  predicate IsTicker(m: Msg) {
    m.Exec? && m.verb == TradeVerb
  }

  /** The ORDER_ACCEPTED, ORDER_CANCELLED, BOUGHT and SOLD messages of a stream. */
  function Business(ms: seq<Msg>): seq<Msg> {
    if ms == [] then []
    else Business(ms[..|ms| - 1]) + if IsBusiness(ms[|ms| - 1]) then [ms[|ms| - 1]] else []
  }

  /** The TRADE messages of a stream. */
  function Ticker(ms: seq<Msg>): seq<Msg> {
    if ms == [] then []
    else Ticker(ms[..|ms| - 1]) + if IsTicker(ms[|ms| - 1]) then [ms[|ms| - 1]] else []
  }

  lemma StreamsSnoc(ms: seq<Msg>, m: Msg)
    ensures Business(ms + [m]) == Business(ms) + if IsBusiness(m) then [m] else []
    ensures Ticker(ms + [m]) == Ticker(ms) + if IsTicker(m) then [m] else []
  {
    assert (ms + [m])[..|ms|] == ms;
  }

  /** The instruments listened to when the `k`-th trade is published: those of the last mark up to
      there. */
  function Tuned(marks: seq<Mark>, k: nat): set<Inst> {
    if marks == [] then {}
    else if marks[|marks| - 1].at <= k then marks[|marks| - 1].subs
    else Tuned(marks[..|marks| - 1], k)
  }

  function TradeMsg(t: Trade): Msg {
    Exec(TradeVerb, t.inst, t.qty, t.price)
  }

  /** The trades published while listening to their instrument. */
  function Tape(published: seq<Trade>, marks: seq<Mark>): seq<Msg> {
    if published == [] then []
    else
      var n := |published| - 1;
      Tape(published[..n], marks) + if published[n].inst in Tuned(marks, n) then [TradeMsg(published[n])] else []
  }

  lemma TapeSnoc(published: seq<Trade>, t: Trade, marks: seq<Mark>)
    ensures Tape(published + [t], marks) ==
            Tape(published, marks) + if t.inst in Tuned(marks, |published|) then [TradeMsg(t)] else []
  {
    assert (published + [t])[..|published|] == published;
  }

  lemma TunedSnoc(marks: seq<Mark>, m: Mark, k: nat)
    ensures Tuned(marks + [m], k) == if m.at <= k then m.subs else Tuned(marks, k)
  {
    assert (marks + [m])[..|marks|] == marks;
  }

  /** A mark for the future leaves the past alone. */
  lemma {:induction false} TapeMark(published: seq<Trade>, marks: seq<Mark>, m: Mark)
    requires |published| <= m.at
    ensures Tape(published, marks + [m]) == Tape(published, marks)
  {
    if published != [] {
      TapeMark(published[..|published| - 1], marks, m);
      TunedSnoc(marks, m, |published| - 1);
    }
  }

  // ------------------------------------------------------------------ the invariant

  /** What the connection listens to now. */
  function Current(c: Conn): set<Inst> {
    if c.closing then {} else c.subs
  }

  /** The tape is complete, and the last mark says what the connection listens to now. */
  ghost predicate OnTape(c: Conn, published: seq<Trade>) {
    && Ticker(c.wire.queued) == Tape(published, c.wire.marks)
    && (forall i :: 0 <= i < |c.wire.marks| ==> c.wire.marks[i].at <= |published|)
    && Tuned(c.wire.marks, |published|) == Current(c)
  }

  /** What was told, followed by what is due, is all there is to tell. */
  ghost predicate OnScript(c: Conn, due: seq<Notice>, ns: seq<Notice>) {
    Business(c.wire.queued) + Msgs(For(c.ownerId, due)) == Msgs(For(c.ownerId, ns))
  }

  /** A connection that died was told an initial part. */
  ghost predicate Cut(c: Conn, ns: seq<Notice>, published: seq<Trade>) {
    && Business(c.wire.queued) <= Msgs(For(c.ownerId, ns))
    && Ticker(c.wire.queued) <= Tape(published, c.wire.marks)
  }

  ghost predicate ToldConn(c: Conn, due: seq<Notice>, ns: seq<Notice>, published: seq<Trade>) {
    if c.dead then Cut(c, ns, published) else OnScript(c, due, ns) && OnTape(c, published)
  }

  function AllNotices(s: State): seq<Notice> {
    Notices(Performed(s.reqs).outs)
  }

  function AllTrades(s: State): seq<Trade> {
    Trades(Performed(s.reqs).outs)
  }

  /** Every live connection has been told everything but `due`, everything but `owed` has been
      published, and nobody was ever told anything else. */
  ghost predicate Told(s: State, due: seq<Notice>, owed: seq<Trade>) {
    && s.published + owed == AllTrades(s)
    && (forall fd :: fd in s.conns ==> ToldConn(s.conns[fd], due, AllNotices(s), s.published))
    && (forall c :: c in s.archive ==> Cut(c, AllNotices(s), s.published))
  }

  lemma ToldCut(c: Conn, due: seq<Notice>, ns: seq<Notice>, published: seq<Trade>)
    requires ToldConn(c, due, ns, published)
    ensures Cut(c, ns, published)
  {
    hide Business, Ticker, Tape, Tuned, For;
  }

  // ------------------------------------------------------------------ publishing one trade

  function NotifyConn(c: Conn, owner: int, m: Msg): Conn {
    if !c.dead && c.role == Trader && c.ownerId == owner then QueueOut(c, m) else c
  }

  /** What publishing a trade does to one connection. */
  function PublishConn(c: Conn, t: Trade): Conn {
    Tell(NotifyConn(NotifyConn(c, t.buyer, BoughtMsg(t)), t.seller, SoldMsg(t)), t)
  }

  /** The owner registry leads to exactly the right connection. */
  lemma NotifyEffect(s: State, owner: int, m: Msg, fd: int)
    requires IdsOk(s) && OwnersOk(s) && fd in s.conns
    ensures Notify(s, owner, m).conns[fd] == NotifyConn(s.conns[fd], owner, m)
    ensures Notify(s, owner, m).reqs == s.reqs && Notify(s, owner, m).published == s.published
  {
    hide QueueOut;
    if owner in s.ownerFd && s.ownerFd[owner] == fd {
      assert LiveTrader(s, fd);
    } else if LiveTrader(s, fd) {
      assert s.ownerFd[s.conns[fd].ownerId] == fd;
    }
  }

  /** Publishing tells the buyer, the seller and every subscriber, each exactly once, and nobody
      else. */
  lemma PublishEffect(s: State, t: Trade, fd: int)
    requires Registry(s) && fd in s.conns
    ensures Publish(s, t).conns[fd] == PublishConn(s.conns[fd], t)
    ensures Publish(s, t).reqs == s.reqs && Publish(s, t).published == s.published + [t]
  {
    hide Registry, Notify, NotifyConn, Tell;
    var s1 := Notify(s, t.buyer, BoughtMsg(t));
    RegistryOwners(s);
    NotifyEffect(s, t.buyer, BoughtMsg(t), fd);
    NotifyKeeps(s, t.buyer, BoughtMsg(t));
    RegistryOwners(s1);
    NotifyEffect(s1, t.seller, SoldMsg(t), fd);
  }

  lemma RegistryOwners(s: State)
    requires Registry(s)
    ensures IdsOk(s) && OwnersOk(s) && TableOk(s) && AllOk(s)
  {
  }

  /** Who the connection is, what it listens to, and its marks. */
  ghost predicate SameEar(c: Conn, d: Conn) {
    SameFace(c, d) && d.closing == c.closing && d.wire.marks == c.wire.marks
  }

  lemma QueueOutSays(c: Conn, m: Msg)
    requires ConnOk(c) && !c.dead
    ensures ConnOk(QueueOut(c, m)) && SameEar(c, QueueOut(c, m))
    ensures var q, q' := c.wire.queued, QueueOut(c, m).wire.queued;
            && Business(q') == Business(q) + (if IsBusiness(m) then [m] else [])
            && Ticker(q') == Ticker(q) + (if IsTicker(m) then [m] else [])
  {
    hide QueueOut, Business, Ticker;
    QueueOutOk(c, m);
    StreamsSnoc(c.wire.queued, m);
  }

  lemma NotifySays(c: Conn, owner: int, m: Msg)
    requires ConnOk(c) && !c.dead && IsBusiness(m)
    ensures var d := NotifyConn(c, owner, m);
            && ConnOk(d) && SameEar(c, d)
            && Business(d.wire.queued) ==
               Business(c.wire.queued) + (if c.role == Trader && c.ownerId == owner then [m] else [])
            && Ticker(d.wire.queued) == Ticker(c.wire.queued)
  {
    hide QueueOut, Business, Ticker;
    QueueOutSays(c, m);
  }

  /** The messages a trade holds for one owner, in the order in which they are queued. */
  function TradeMsgs(t: Trade, owner: int): seq<Msg> {
    (if t.buyer == owner then [BoughtMsg(t)] else []) + if t.seller == owner then [SoldMsg(t)] else []
  }

  lemma PairMsgs(taker: Order, f: Fill, owner: int)
    ensures Msgs(For(owner, FillPair(taker, f))) == TradeMsgs(TradeOf(taker, f), owner)
  {
    hide For;
    var p := FillPair(taker, f);
    assert p == [p[0]] + [p[1]];
    ForConcat(owner, [p[0]], [p[1]]);
    ForOne(owner, p[0]);
    ForOne(owner, p[1]);
  }

  /** What publishing a trade adds to a stream: what the trade holds for its owner and its ear, and
      an initial part of that if the connection dies of it. */
  ghost predicate Heard(c: Conn, d: Conn, t: Trade) {
    var all := Business(c.wire.queued) + (if c.role == Trader then TradeMsgs(t, c.ownerId) else []);
    && SameEar(c, d)
    && Business(d.wire.queued) <= all
    && (!d.dead ==> Business(d.wire.queued) == all)
    && Ticker(d.wire.queued) == Ticker(c.wire.queued) + (if Subscriber(c, t.inst) then [TradeMsg(t)] else [])
  }

  lemma PublishSays(c: Conn, t: Trade)
    requires ConnOk(c) && !c.dead
    ensures Heard(c, PublishConn(c, t), t)
  {
    hide QueueOut, Business, Ticker, ConnOk;
    var d := NotifyConn(c, t.buyer, BoughtMsg(t));
    NotifySays(c, t.buyer, BoughtMsg(t));
    if !d.dead {
      var e := NotifyConn(d, t.seller, SoldMsg(t));
      NotifySays(d, t.seller, SoldMsg(t));
      if !e.dead {
        QueueOutSays(e, TradeMsg(t));
      }
    }
  }

  // ------------------------------------------------------------------ owners without orders

  lemma OnlyTradersTold(s: State, fd: int)
    requires Registry(s) && fd in s.conns && s.conns[fd].role != Trader
    ensures For(s.conns[fd].ownerId, AllNotices(s)) == []
  {
    hide NamesOk, OwnersOk, DeadOk, TableOk, AllOk, Performed, HasOwner, Notices, Keyed, Sourced, Grounded, Numbered;
    var owner := s.conns[fd].ownerId;
    PerformedKeeps(s.reqs);
    var outs := Performed(s.reqs).outs;
    forall k | 0 <= k < |outs| && outs[k].Submitted?
      ensures outs[k].order.owner != owner
    {
      assert KnownTrader(s, s.reqs[k].owner);
    }
    NoNotices(outs, owner);
  }

  // ------------------------------------------------------------------ every step keeps it

  /** The same messages and the same ear; at most the connection has died. */
  ghost predicate SameVoice(c: Conn, d: Conn) {
    && d.ownerId == c.ownerId && d.wire.queued == c.wire.queued && d.wire.marks == c.wire.marks
    && (c.dead ==> d.dead)
    && (!d.dead ==> Current(d) == Current(c))
  }

  lemma VoiceTold(c: Conn, d: Conn, due: seq<Notice>, ns: seq<Notice>, published: seq<Trade>)
    requires ToldConn(c, due, ns, published) && SameVoice(c, d)
    ensures ToldConn(d, due, ns, published)
  {
    hide Business, Ticker, Tape, Tuned, For;
  }

  /** A state with the same exchange, in which every connection was there before with the same
      messages. */
  lemma ToldStays(s: State, r: State)
    requires Told(s, [], []) && r.reqs == s.reqs && r.published == s.published
    requires forall fd :: fd in r.conns ==> fd in s.conns && SameVoice(s.conns[fd], r.conns[fd])
    requires forall c :: c in r.archive ==> c in s.archive || exists fd :: fd in s.conns && s.conns[fd] == c
    ensures Told(r, [], [])
  {
    hide AllNotices, AllTrades, ToldConn, Cut, SameVoice;
    SameNotices(s, r);
    forall fd | fd in r.conns
      ensures ToldConn(r.conns[fd], [], AllNotices(r), r.published)
    {
      VoiceTold(s.conns[fd], r.conns[fd], [], AllNotices(s), s.published);
    }
    forall c | c in r.archive
      ensures Cut(c, AllNotices(r), r.published)
    {
      if fd :| fd in s.conns && s.conns[fd] == c {
        ToldCut(c, [], AllNotices(s), s.published);
      }
    }
  }

  /** A message that is neither business nor ticker changes nothing of this. */
  lemma ConnHears(c: Conn, m: Msg, due: seq<Notice>, ns: seq<Notice>, published: seq<Trade>)
    requires ConnOk(c) && ToldConn(c, due, ns, published) && !IsBusiness(m) && !IsTicker(m)
    ensures ToldConn(QueueOut(c, m), due, ns, published)
  {
    hide QueueOut, Business, Ticker, Tape, Tuned, ConnOk, For, Msgs;
    QueueOutDead(c, m);
    if !c.dead {
      QueueOutSays(c, m);
      assert Business(c.wire.queued) + [] == Business(c.wire.queued);
      assert Ticker(c.wire.queued) + [] == Ticker(c.wire.queued);
    }
  }

  lemma ToldReply(s: State, fd: int, m: Msg)
    requires Registry(s) && Told(s, [], []) && fd in s.conns && !IsBusiness(m) && !IsTicker(m)
    ensures Told(Reply(s, fd, m), [], [])
  {
    hide Registry, AllNotices, AllTrades, QueueOut, Reply, ToldConn, Cut, ConnOk, Advances, Evolves;
    var r := Reply(s, fd, m);
    RegistryOwners(s);
    ReplyKeeps(s, fd, m);
    SameNotices(s, r);
    ConnHears(s.conns[fd], m, [], AllNotices(s), s.published);
  }

  lemma QueueOutDead(c: Conn, m: Msg)
    ensures c.dead ==> QueueOut(c, m) == c
  {
  }

  lemma SameNotices(s: State, r: State)
    requires r.reqs == s.reqs
    ensures AllNotices(r) == AllNotices(s) && AllTrades(r) == AllTrades(s)
  {
  }

  /** A message that pays the first notice due to its owner, and one that is not for it. */
  lemma ConnPaid(c: Conn, n: Notice, due: seq<Notice>, ns: seq<Notice>, published: seq<Trade>)
    requires ConnOk(c) && ToldConn(c, [n] + due, ns, published) && IsBusiness(n.msg)
    ensures n.owner == c.ownerId ==> ToldConn(QueueOut(c, n.msg), due, ns, published)
    ensures n.owner != c.ownerId ==> ToldConn(c, due, ns, published)
  {
    hide QueueOut, Business, Ticker, Tape, Tuned, ConnOk, For;
    ForConcat(c.ownerId, [n], due);
    ForOne(c.ownerId, n);
    MsgsConcat(For(c.ownerId, [n]), For(c.ownerId, due));
    QueueOutDead(c, n.msg);
    if c.dead {
      return;
    }
    if n.owner == c.ownerId {
      QueueOutSays(c, n.msg);
      assert Msgs([n]) == [n.msg];
      Regroup(Business(c.wire.queued), [n.msg], Msgs(For(c.ownerId, due)));
      assert Ticker(c.wire.queued) + [] == Ticker(c.wire.queued);
    } else {
      assert Msgs([]) == [] && [] + Msgs(For(c.ownerId, due)) == Msgs(For(c.ownerId, due));
    }
  }

  /** A reply that pays the first notice due. */
  lemma ToldPay(s: State, fd: int, n: Notice, due: seq<Notice>, owed: seq<Trade>)
    requires Registry(s) && Told(s, [n] + due, owed) && fd in s.conns
    requires n.owner == s.conns[fd].ownerId && IsBusiness(n.msg)
    ensures Told(Reply(s, fd, n.msg), due, owed)
  {
    hide Registry, AllNotices, AllTrades, QueueOut, Reply, ToldConn, Cut, ConnOk, Advances, Evolves, IdsOk;
    var r := Reply(s, fd, n.msg);
    RegistryOwners(s);
    ReplyKeeps(s, fd, n.msg);
    SameNotices(s, r);
    forall f | f in r.conns
      ensures ToldConn(r.conns[f], due, AllNotices(r), r.published)
    {
      if f != fd {
        DifferentOwners(s, fd, f);
      }
      ConnPaid(s.conns[f], n, due, AllNotices(s), s.published);
    }
  }

  lemma DifferentOwners(s: State, fd: int, f: int)
    requires IdsOk(s) && fd in s.conns && f in s.conns && f != fd
    ensures s.conns[f].ownerId != s.conns[fd].ownerId
  {
  }

  /** The messages of a trade are the next ones due. */
  lemma PublishScript(s: State, taker: Order, f: Fill, due: seq<Notice>, fd: int, d: Conn)
    requires Registry(s) && fd in s.conns && Heard(s.conns[fd], d, TradeOf(taker, f))
    requires OnScript(s.conns[fd], FillPair(taker, f) + due, AllNotices(s))
    ensures Business(d.wire.queued) <= Msgs(For(d.ownerId, AllNotices(s)))
    ensures !d.dead ==> OnScript(d, due, AllNotices(s))
  {
    hide Registry, AllNotices, Business, Ticker, For, FillPair, TradeMsgs;
    var c, t, p := s.conns[fd], TradeOf(taker, f), FillPair(taker, f);
    ForConcat(c.ownerId, p, due);
    MsgsConcat(For(c.ownerId, p), For(c.ownerId, due));
    PairMsgs(taker, f, c.ownerId);
    if c.role != Trader {
      OnlyTradersTold(s, fd);
      assert Msgs(For(c.ownerId, p)) == [];
      assert Business(c.wire.queued) + [] == Business(c.wire.queued);
    } else {
      Regroup(Business(c.wire.queued), TradeMsgs(t, c.ownerId), Msgs(For(c.ownerId, due)));
    }
  }

  lemma PublishTape(c: Conn, d: Conn, t: Trade, published: seq<Trade>)
    requires !c.dead && Heard(c, d, t) && OnTape(c, published)
    requires c.subs != {} ==> c.role == MarketData
    ensures OnTape(d, published + [t])
  {
    hide Business, Ticker, Tape, TradeMsgs;
    TapeSnoc(published, t, c.wire.marks);
    TunedLater(c.wire.marks, |published|);
  }

  lemma {:induction false} TunedLater(marks: seq<Mark>, k: nat)
    requires forall i :: 0 <= i < |marks| ==> marks[i].at <= k
    ensures Tuned(marks, k + 1) == Tuned(marks, k)
  {
  }

  /** What was cut short stays an initial part when there is more to tell. */
  lemma CutGrows(c: Conn, ns: seq<Notice>, more: seq<Notice>, published: seq<Trade>)
    requires Cut(c, ns, published)
    ensures Cut(c, ns + more, published)
    ensures forall t :: Cut(c, ns, published + [t])
  {
    hide Business, Ticker, For, Tape;
    ForConcat(c.ownerId, ns, more);
    MsgsConcat(For(c.ownerId, ns), For(c.ownerId, more));
    forall t
      ensures Cut(c, ns, published + [t])
    {
      TapeSnoc(published, t, c.wire.marks);
    }
  }

  lemma ConnPublished(s: State, taker: Order, f: Fill, due: seq<Notice>, fd: int)
    requires Registry(s) && fd in s.conns
    requires ToldConn(s.conns[fd], FillPair(taker, f) + due, AllNotices(s), s.published)
    ensures var t := TradeOf(taker, f); ToldConn(PublishConn(s.conns[fd], t), due, AllNotices(s), s.published + [t])
  {
    hide Registry, AllNotices, PublishConn, FillPair, TradeOf, OnScript, Heard, Business, For;
    hide Ticker, Tape, Tuned;
    var c, t := s.conns[fd], TradeOf(taker, f);
    var d := PublishConn(c, t);
    PublishDead(c, t);
    if c.dead {
      CutGrows(c, AllNotices(s), [], s.published);
    } else {
      RegistryOwners(s);
      PublishSays(c, t);
      PublishScript(s, taker, f, due, fd, d);
      PublishTape(c, d, t, s.published);
    }
  }

  lemma PublishDead(c: Conn, t: Trade)
    ensures c.dead ==> PublishConn(c, t) == c
  {
  }

  lemma ToldPublish(s: State, taker: Order, f: Fill, due: seq<Notice>, owed: seq<Trade>)
    requires Registry(s) && Told(s, FillPair(taker, f) + due, [TradeOf(taker, f)] + owed)
    ensures Told(Publish(s, TradeOf(taker, f)), due, owed)
  {
    hide Registry, AllNotices, AllTrades, Publish, PublishConn, FillPair, TradeOf, ToldConn, Cut, Advances;
    var t := TradeOf(taker, f);
    var r := Publish(s, t);
    PublishExchange(s, t);
    SameNotices(s, r);
    assert s.published + [t] + owed == s.published + ([t] + owed);
    forall fd | fd in r.conns
      ensures ToldConn(r.conns[fd], due, AllNotices(r), r.published)
    {
      PublishEffect(s, t, fd);
      ConnPublished(s, taker, f, due, fd);
    }
    forall c | c in r.archive
      ensures Cut(c, AllNotices(r), r.published)
    {
      CutGrows(c, AllNotices(s), [], s.published);
    }
  }

  lemma PublishExchange(s: State, t: Trade)
    ensures var r := Publish(s, t);
            && r.reqs == s.reqs && r.store == s.store
            && r.published == s.published + [t] && r.archive == s.archive
  {
    hide Notify, Tell;
    NotifyRest(s, t.buyer, BoughtMsg(t));
    NotifyRest(Notify(s, t.buyer, BoughtMsg(t)), t.seller, SoldMsg(t));
  }

  lemma NotifyRest(s: State, owner: int, m: Msg)
    ensures var r := Notify(s, owner, m);
            && r.reqs == s.reqs && r.store == s.store
            && r.published == s.published && r.archive == s.archive
  {
    hide QueueOut;
  }

  lemma {:induction false} ToldPublishAll(s: State, taker: Order, fills: seq<Fill>)
    requires Registry(s) && Told(s, FillNotices(taker, fills), TradesOf(taker, fills))
    ensures Told(PublishAll(s, TradesOf(taker, fills)), [], [])
    decreases |fills|
  {
    hide Registry, Told, Publish, FillPair;
    if fills == [] {
      assert TradesOf(taker, fills) == [];
    } else {
      var t, rest := TradeOf(taker, fills[0]), fills[1..];
      assert TradesOf(taker, fills) == [t] + TradesOf(taker, rest);
      assert TradesOf(taker, fills)[1..] == TradesOf(taker, rest);
      PublishKeeps(s, t);
      ToldPublish(s, taker, fills[0], FillNotices(taker, rest), TradesOf(taker, rest));
      ToldPublishAll(Publish(s, t), taker, rest);
    }
  }

  lemma ToldExecute(s: State, op: Op)
    requires Registry(s) && Told(s, [], [])
    ensures var o := Perform(s.store, op).1; Told(Execute(s, op), OutcomeNotices(o), OutcomeTrades(o))
  {
    hide Performed, Trades, Perform, Notices, Cut, ToldConn, OutcomeNotices, OutcomeTrades;
    hide IdsOk, NamesOk, OwnersOk, DeadOk, TableOk, ArchiveOk, AllOk, KnownTrader;
    var r, o := Execute(s, op), Perform(s.store, op).1;
    PerformedSnoc(s.reqs, op);
    NoticesSnoc(Performed(s.reqs).outs, o);
    TradesSnoc(Performed(s.reqs).outs, o);
    assert s.published + [] == s.published;
    forall fd | fd in r.conns
      ensures ToldConn(r.conns[fd], OutcomeNotices(o), AllNotices(r), r.published)
    {
      ConnOwed(s.conns[fd], AllNotices(s), OutcomeNotices(o), s.published);
    }
    forall c | c in r.archive
      ensures Cut(c, AllNotices(r), r.published)
    {
      CutGrows(c, AllNotices(s), OutcomeNotices(o), s.published);
    }
  }

  lemma TradesSnoc(outs: seq<Outcome>, o: Outcome)
    ensures Trades(outs + [o]) == Trades(outs) + OutcomeTrades(o)
  {
    assert (outs + [o])[..|outs|] == outs;
  }

  /** What is new to tell is due. */
  lemma ConnOwed(c: Conn, ns: seq<Notice>, more: seq<Notice>, published: seq<Trade>)
    requires ToldConn(c, [], ns, published)
    ensures ToldConn(c, more, ns + more, published)
  {
    hide For, Business, OnTape, Ticker, Tape;
    if c.dead {
      CutGrows(c, ns, more, published);
    } else {
      ForConcat(c.ownerId, ns, more);
      MsgsConcat(For(c.ownerId, ns), For(c.ownerId, more));
      ForNone(c.ownerId);
      assert Business(c.wire.queued) + [] == Business(c.wire.queued);
    }
  }

  lemma ForNone(owner: int)
    ensures For(owner, []) == [] && Msgs(For(owner, [])) == []
  {
  }

  lemma ToldPlaceOrder(s: State, fd: int, op: Op)
    requires Registry(s) && Told(s, [], []) && fd in s.conns && s.conns[fd].role == Trader
    requires op.Submit? && op.owner == s.conns[fd].ownerId && InRange(op)
    ensures Told(PlaceOrder(s, fd, op), [], [])
  {
    hide Registry, Told, PublishAll, Reply, Execute, Sweep, WireId;
    var s1, o := Execute(s, op), Perform(s.store, op).1;
    var n := Announcement(o.order);
    ExecuteKeeps(s, op);
    ExecuteSame(s, op);
    ToldExecute(s, op);
    ReplyKeeps(s1, fd, n.msg);
    ToldPay(s1, fd, n, FillNotices(o.order, o.fills), OutcomeTrades(o));
    ToldPublishAll(Reply(s1, fd, n.msg), o.order, o.fills);
  }

  lemma ToldCancelOrder(s: State, fd: int, w: nat)
    requires Registry(s) && Told(s, [], []) && fd in s.conns && w <= MAX_ORDER_ID
    ensures Told(CancelOrder(s, fd, w), [], [])
  {
    hide Registry, Told, Reply, Execute, WireId, Delisted;
    var op := Cancel(w, s.conns[fd].ownerId);
    var o := Perform(s.store, op).1;
    ExecuteKeeps(s, op);
    ExecuteSame(s, op);
    ToldExecute(s, op);
    if o.Cancelled? {
      var n := Notice(o.order.owner, o.order.id, OrderCancelled(WireId(o.order.id)));
      RegistryKeyed(s);
      assert OutcomeNotices(o) == [n] + [];
      ToldPay(Execute(s, op), fd, n, [], []);
    } else {
      ToldReply(Execute(s, op), fd, CancelReply(w, o));
    }
  }

  /** Orders are stored under their own ids. */
  lemma RegistryKeyed(s: State)
    requires Registry(s)
    ensures Keyed(s.store)
  {
    hide IdsOk, NamesOk, OwnersOk, DeadOk, TableOk, ArchiveOk, AllOk, Performed, Keyed;
    PerformedKeeps(s.reqs);
  }

  /** The same messages and one more mark, which says what the connection listens to from now on. */
  ghost predicate Retuned(c: Conn, d: Conn, at: nat) {
    && d.ownerId == c.ownerId && d.wire.queued == c.wire.queued && (c.dead ==> d.dead)
    && exists subs :: d.wire.marks == c.wire.marks + [Mark(at, subs)] && (!d.dead ==> subs == Current(d))
  }

  lemma ConnRetuned(c: Conn, d: Conn, due: seq<Notice>, ns: seq<Notice>, published: seq<Trade>)
    requires ToldConn(c, due, ns, published) && Retuned(c, d, |published|)
    ensures ToldConn(d, due, ns, published)
  {
    hide Ticker, Tape, Business, For;
    var subs :| d.wire.marks == c.wire.marks + [Mark(|published|, subs)] && (!d.dead ==> subs == Current(d));
    TapeMark(published, c.wire.marks, Mark(|published|, subs));
    TunedSnoc(c.wire.marks, Mark(|published|, subs), |published|);
  }

  lemma ToldRetuned(s: State, r: State, fd: int)
    requires Told(s, [], []) && fd in s.conns
    requires r.reqs == s.reqs && r.published == s.published && r.archive == s.archive
    requires r.conns.Keys == s.conns.Keys && (forall f :: f in s.conns && f != fd ==> r.conns[f] == s.conns[f])
    requires Retuned(s.conns[fd], r.conns[fd], |s.published|)
    ensures Told(r, [], [])
  {
    hide AllNotices, AllTrades, ToldConn, Cut, Retuned;
    SameNotices(s, r);
    ConnRetuned(s.conns[fd], r.conns[fd], [], AllNotices(s), s.published);
  }

  lemma ToldSubscribed(s: State, fd: int, inst: Inst, on: bool)
    requires Told(s, [], []) && fd in s.conns
    ensures Told(Subscribe(s, fd, inst, on), [], [])
  {
    hide Told;
    ToldRetuned(s, Subscribe(s, fd, inst, on), fd);
  }

  lemma ToldDrainAndClose(s: State, fd: int)
    requires Registry(s) && Told(s, [], []) && fd in s.conns
    ensures Told(DrainAndClose(s, fd), [], [])
  {
    hide Registry, Told, DrainAndClose, Flush;
    RegistryOwners(s);
    DrainAndCloseIsPut(s, fd);
    ClosingOk(s.conns[fd], |s.published|);
    ToldRetuned(s, DrainAndClose(s, fd), fd);
  }

  lemma ToldErrors(s: State, fd: int)
    requires Registry(s) && Told(s, [], []) && fd in s.conns
    ensures forall reason :: Told(Reply(s, fd, ErrorMsg(reason)), [], [])
  {
    hide Registry, Told, Reply;
    forall reason
      ensures Told(Reply(s, fd, ErrorMsg(reason)), [], [])
    {
      ToldReply(s, fd, ErrorMsg(reason));
    }
  }

  lemma ToldLogin(s: State, fd: int, tk: seq<string>)
    requires Registry(s) && Told(s, [], []) && Live(s, fd) && (|tk| == 2 ==> tk[1] != [])
    ensures Told(CmdLogin(s, fd, tk), [], [])
  {
    hide Registry, Told, Reply;
    var c := s.conns[fd];
    if |tk| == 2 && c.role == Unknown && tk[1] !in s.usernames {
      LogInKeeps(s, fd, tk[1]);
      ToldStays(s, LogIn(s, fd, tk[1]));
      ToldReply(LogIn(s, fd, tk[1]), fd, OkMsg);
    } else {
      ToldErrors(s, fd);
    }
  }

  lemma ToldOrder(s: State, fd: int, tk: seq<string>, side: Side)
    requires Registry(s) && Told(s, [], []) && Live(s, fd)
    ensures Told(CmdOrder(s, fd, tk, side), [], [])
  {
    hide Registry, Told, Reply, PlaceOrder, Parsed;
    var c := s.conns[fd];
    if c.role == Trader && |tk| == 4 && Instrument(tk[1]).Some? && Parsed(tk[2], MIN_VALUE, MAX_VALUE).Some?
       && Parsed(tk[3], MIN_VALUE, MAX_VALUE).Some?
    {
      ParsedRange(tk[2], MIN_VALUE, MAX_VALUE);
      ParsedRange(tk[3], MIN_VALUE, MAX_VALUE);
      ToldPlaceOrder(s, fd, Submit(side, Instrument(tk[1]).value, Parsed(tk[2], MIN_VALUE, MAX_VALUE).value,
                                   Parsed(tk[3], MIN_VALUE, MAX_VALUE).value, c.ownerId));
    } else {
      ToldErrors(s, fd);
    }
  }

  lemma ToldCancel(s: State, fd: int, tk: seq<string>)
    requires Registry(s) && Told(s, [], []) && Live(s, fd)
    ensures Told(CmdCancel(s, fd, tk), [], [])
  {
    hide Registry, Told, Reply, CancelOrder;
    var c := s.conns[fd];
    if c.role == Trader && |tk| == 2 && Parsed(tk[1], 0, MAX_ORDER_ID).Some? {
      ParsedRange(tk[1], 0, MAX_ORDER_ID);
      ToldCancelOrder(s, fd, Parsed(tk[1], 0, MAX_ORDER_ID).value);
    } else {
      ToldErrors(s, fd);
    }
  }

  lemma ToldSubscribe(s: State, fd: int, tk: seq<string>, on: bool)
    requires Registry(s) && Told(s, [], []) && Live(s, fd)
    ensures Told(CmdSubscribe(s, fd, tk, on), [], [])
  {
    hide Registry, Told, Reply, Subscribe;
    var c := s.conns[fd];
    if c.role != Trader && |tk| == 2 && Instrument(tk[1]).Some? {
      var inst := Instrument(tk[1]).value;
      SubscribeKeeps(s, fd, inst, on);
      ToldSubscribed(s, fd, inst, on);
      ToldReply(Subscribe(s, fd, inst, on), fd, OkMsg);
    } else {
      ToldErrors(s, fd);
    }
  }

  /** After every line everybody has been told everything. */
  lemma ToldLine(s: State, fd: int, line: string)
    requires Registry(s) && Told(s, [], []) && Live(s, fd)
    ensures Told(HandleLine(s, fd, line), [], [])
  {
    hide Registry, Told, Reply, CmdLogin, CmdOrder, CmdCancel, CmdSubscribe, DrainAndClose, Tokens;
    var tk := Tokens(line);
    TokensAreWords(line);
    if tk != [] {
      ToldLogin(s, fd, tk);
      ToldOrder(s, fd, tk, Buy);
      ToldOrder(s, fd, tk, Sell);
      ToldCancel(s, fd, tk);
      ToldSubscribe(s, fd, tk, true);
      ToldSubscribe(s, fd, tk, false);
      ToldDrainAndClose(s, fd);
      ToldErrors(s, fd);
    }
  }

  // ------------------------------------------------------------------ what follows from it

  lemma {:induction false} BusinessReports(ms: seq<Msg>, lv: Level)
    ensures Reported(Business(ms), lv) == Reported(ms, lv)
  {
    if ms != [] {
      var n := |ms| - 1;
      BusinessReports(ms[..n], lv);
      if IsBusiness(ms[n]) {
        ReportedConcat(Business(ms[..n]), [ms[n]], lv);
        ReportedOne(ms[n], lv);
      } else {
        assert Business(ms[..n]) + [] == Business(ms[..n]);
      }
    }
  }

  lemma RequestsLegal(s: State)
    requires Registry(s)
    ensures forall i :: 0 <= i < |s.reqs| ==> LegalId(s.reqs[i])
  {
    hide IdsOk, NamesOk, OwnersOk, DeadOk, TableOk, ArchiveOk, AllOk, Performed;
    forall i | 0 <= i < |s.reqs|
      ensures LegalId(s.reqs[i])
    {
      assert InRange(s.reqs[i]);
    }
  }

  /** Fill reporting: for every live trader, at every instrument, side and price, the total of the
      BOUGHT (or SOLD) messages queued to it is what it has traded; and until an id has clashed
      the quantity accepted from it is that total, plus what still rests, plus what it
      cancelled. */
  lemma FillReporting(s: State, fd: int, lv: Level)
    requires Registry(s) && Told(s, [], []) && LiveTrader(s, fd)
    ensures var c, outs := s.conns[fd], Performed(s.reqs).outs;
            Reported(c.wire.queued, lv) == Traded(Trades(outs), lv, Only(c.ownerId))
    ensures ClashFree(Meant(s.reqs)) ==>
              var c, outs := s.conns[fd], Performed(s.reqs).outs;
              var resting := Run(Meant(s.reqs)).book.resting;
              && Indexed(s.store.orders, s.store.books, resting)
              && Accepted(outs, lv, Only(c.ownerId)) ==
                 Reported(c.wire.queued, lv) + Depth(resting, lv, Only(c.ownerId))
                 + Withdrawn(outs, lv, Only(c.ownerId))
  {
    hide Run, Performed, Accepted, Reported, Traded, Depth, Withdrawn, Business, Notices, For;
    hide ClashFree, Meant, LegalId, Indexed, DistinctWire;
    hide IdsOk, NamesOk, OwnersOk, DeadOk, TableOk, ArchiveOk, AllOk, InRange;
    var c := s.conns[fd];
    if ClashFree(Meant(s.reqs)) {
      RequestsLegal(s);
      RunAgrees(s.reqs);
      Conservation(Meant(s.reqs), lv, Only(c.ownerId));
    }
    assert ToldConn(c, [], AllNotices(s), s.published);
    ForNone(c.ownerId);
    assert Business(c.wire.queued) + [] == Business(c.wire.queued);
    BusinessReports(c.wire.queued, lv);
    TranscriptReports(Performed(s.reqs).outs, c.ownerId, lv);
  }
}
