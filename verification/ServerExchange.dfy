/** What one line of input may do to the exchange, and what the reply to it says about that. */
module ServerExchange {
  import opened Wrappers
  import opened Book
  import opened ExchangeStore
  import opened Protocol
  import opened ServerSpec
  import opened ServerConns
  import opened ServerRegistry
  import opened ServerTranscript

  /** The request is one that connection `fd` may make: a logged-in trader, acting for itself, with
      numbers in range. */
  ghost predicate Permitted(s: State, fd: int, op: Op) {
    && fd in s.conns
    && s.conns[fd].role == Trader
    && InRange(op)
    && (if op.Submit? then op.owner else op.canceller) == s.conns[fd].ownerId
  }

  ghost predicate SameExchange(s: State, r: State) {
    r.reqs == s.reqs && r.store == s.store
  }

  ghost predicate Executed(s: State, r: State, op: Op) {
    r.reqs == s.reqs + [op] && r.store == Perform(s.store, op).0
  }

  /** The exchange is as it was, or has carried out one permitted request. */
  ghost predicate OneOp(s: State, fd: int, r: State) {
    SameExchange(s, r) || exists op :: Permitted(s, fd, op) && Executed(s, r, op)
  }

  lemma {:induction false} PublishAllExchange(s: State, trades: seq<Trade>)
    ensures SameExchange(s, PublishAll(s, trades))
    decreases |trades|
  {
    if trades != [] {
      hide Publish;
      PublishExchange(s, trades[0]);
      PublishAllExchange(Publish(s, trades[0]), trades[1..]);
    }
  }

  lemma ReplyExchange(s: State, fd: int, m: Msg)
    requires fd in s.conns
    ensures SameExchange(s, Reply(s, fd, m))
  {
    hide QueueOut;
  }

  lemma RepliesExchange(s: State, fd: int)
    requires fd in s.conns
    ensures forall m :: SameExchange(s, Reply(s, fd, m))
  {
    hide Reply;
    forall m
      ensures SameExchange(s, Reply(s, fd, m))
    {
      ReplyExchange(s, fd, m);
    }
  }

  lemma DrainExchange(s: State, fd: int)
    requires fd in s.conns
    ensures SameExchange(s, DrainAndClose(s, fd))
  {
    hide Flush;
  }

  lemma PlaceOrderExchange(s: State, fd: int, op: Op)
    requires fd in s.conns && op.Submit?
    ensures Executed(s, PlaceOrder(s, fd, op), op)
  {
    hide Reply, PublishAll, Perform;
    var s1, m := Execute(s, op), OrderAccepted(WireId(s.store.count));
    ReplyExchange(s1, fd, m);
    PublishAllExchange(Reply(s1, fd, m), OutcomeTrades(Perform(s.store, op).1));
  }

  lemma CancelOrderExchange(s: State, fd: int, w: nat)
    requires fd in s.conns
    ensures Executed(s, CancelOrder(s, fd, w), Cancel(w, s.conns[fd].ownerId))
  {
    hide Reply, Perform;
    var op := Cancel(w, s.conns[fd].ownerId);
    ReplyExchange(Execute(s, op), fd, CancelReply(w, Perform(s.store, op).1));
  }

  lemma OrderOp(s: State, fd: int, tk: seq<string>, side: Side)
    requires fd in s.conns
    ensures OneOp(s, fd, CmdOrder(s, fd, tk, side))
  {
    hide Reply, PlaceOrder, SameExchange, Executed;
    RepliesExchange(s, fd);
    var c := s.conns[fd];
    if c.role == Trader && |tk| == 4 && Instrument(tk[1]).Some? && Parsed(tk[2], MIN_VALUE, MAX_VALUE).Some?
       && Parsed(tk[3], MIN_VALUE, MAX_VALUE).Some?
    {
      var op := Submit(side, Instrument(tk[1]).value, Parsed(tk[2], MIN_VALUE, MAX_VALUE).value,
                       Parsed(tk[3], MIN_VALUE, MAX_VALUE).value, c.ownerId);
      PlaceOrderExchange(s, fd, op);
      assert Permitted(s, fd, op);
    }
  }

  lemma CancelOp(s: State, fd: int, tk: seq<string>)
    requires fd in s.conns
    ensures OneOp(s, fd, CmdCancel(s, fd, tk))
  {
    hide Reply, CancelOrder, SameExchange, Executed;
    RepliesExchange(s, fd);
    var c := s.conns[fd];
    if c.role == Trader && |tk| == 2 && Parsed(tk[1], 0, MAX_ORDER_ID).Some? {
      var w := Parsed(tk[1], 0, MAX_ORDER_ID).value;
      var op := Cancel(w, c.ownerId);
      CancelOrderExchange(s, fd, w);
      assert Permitted(s, fd, op);
    }
  }

  lemma LoginExchange(s: State, fd: int, tk: seq<string>)
    requires fd in s.conns
    ensures SameExchange(s, CmdLogin(s, fd, tk))
  {
    hide Reply;
    RepliesExchange(s, fd);
    if |tk| == 2 {
      ReplyExchange(LogIn(s, fd, tk[1]), fd, OkMsg);
    }
  }

  lemma SubscribeExchange(s: State, fd: int, tk: seq<string>, on: bool)
    requires fd in s.conns
    ensures SameExchange(s, CmdSubscribe(s, fd, tk, on))
  {
    hide Reply;
    RepliesExchange(s, fd);
    if |tk| == 2 && Instrument(tk[1]).Some? {
      ReplyExchange(Subscribe(s, fd, Instrument(tk[1]).value, on), fd, OkMsg);
    }
  }

  /** Whatever a line says, it touches the exchange at most once, only for a logged-in trader acting
      for itself, and only with numbers in range. */
  lemma LineTouchesExchangeOnce(s: State, fd: int, line: string)
    requires fd in s.conns
    ensures OneOp(s, fd, HandleLine(s, fd, line))
  {
    hide Reply, CmdLogin, CmdOrder, CmdCancel, CmdSubscribe, DrainAndClose, Tokens, SameExchange, Executed, Permitted;
    var tk := Tokens(line);
    if tk == [] {
      assert SameExchange(s, s) by { SameReflexive(s); }
    } else {
      LoginExchange(s, fd, tk);
      OrderOp(s, fd, tk, Buy);
      OrderOp(s, fd, tk, Sell);
      CancelOp(s, fd, tk);
      SubscribeExchange(s, fd, tk, true);
      SubscribeExchange(s, fd, tk, false);
      DrainExchange(s, fd);
      ReplyExchange(s, fd, ErrorMsg(UnknownCommand));
    }
  }

  /** No line of anybody cancels an order whose 32-bit id is above 2147483647. */
  lemma OutOfReach(s: State, fd: int, line: string, w: nat)
    requires fd in s.conns && w > MAX_ORDER_ID
    ensures var r := HandleLine(s, fd, line);
            r.reqs == s.reqs || (exists op :: r.reqs == s.reqs + [op] && (op.Cancel? ==> op.id != w))
  {
    hide HandleLine, Perform;
    LineTouchesExchangeOnce(s, fd, line);
  }

  lemma SameReflexive(s: State)
    ensures SameExchange(s, s)
  {
  }

  // ------------------------------------------------------------------ the reply tells

  /** The first message queued to `fd` between `s` and `r`. */
  ghost function FirstReply(s: State, fd: int, r: State): Option<Msg>
    requires fd in s.conns && fd in r.conns
  {
    var q, q' := s.conns[fd].wire.queued, r.conns[fd].wire.queued;
    if |q'| > |q| then Some(q'[|q|]) else None
  }

  /** ORDER_ACCEPTED carries the id that was given out, ORDER_CANCELLED the id of the one order taken
      out, and with any other answer the exchange is as it was and no id is used up. */
  ghost predicate ReplyTells(s: State, fd: int, r: State)
    requires fd in s.conns && fd in r.conns
  {
    match FirstReply(s, fd, r)
    case Some(OrderAccepted(id)) => id == WireId(s.store.count) && r.store.count == s.store.count + 1
    case Some(OrderCancelled(w)) =>
      && w in s.store.orders
      && s.store.orders[w].owner == s.conns[fd].ownerId
      && r.store.orders == s.store.orders - {w} && r.store.count == s.store.count
    case _ => r.store == s.store
  }

  lemma ReplyFirst(s: State, fd: int, m: Msg)
    requires AllOk(s) && Live(s, fd)
    ensures FirstReply(s, fd, Reply(s, fd, m)) == Some(m)
  {
    hide QueueOut, ConnOk;
    QueueOutOk(s.conns[fd], m);
  }

  lemma PlaceOrderFirst(s: State, fd: int, op: Op)
    requires Registry(s) && Live(s, fd) && op.Submit? && Permitted(s, fd, op)
    ensures FirstReply(s, fd, PlaceOrder(s, fd, op)) == Some(OrderAccepted(WireId(s.store.count)))
  {
    hide Registry, Reply, PublishAll, Execute, WireId, Permitted, InRange, Perform;
    var s1, m := Execute(s, op), OrderAccepted(WireId(s.store.count));
    PermittedKnown(s, fd, op);
    ExecuteKeeps(s, op);
    ExecuteSame(s, op);
    RegistryConns(s1);
    ReplyFirst(s1, fd, m);
    ReplyKeeps(s1, fd, m);
    var s2 := Reply(s1, fd, m);
    PublishAllKeeps(s2, OutcomeTrades(Perform(s.store, op).1));
    assert Evolves(s2.conns[fd], PlaceOrder(s, fd, op).conns[fd]);
  }

  lemma PermittedKnown(s: State, fd: int, op: Op)
    requires op.Submit? && Permitted(s, fd, op)
    ensures KnownTrader(s, op.owner) && InRange(op)
  {
  }

  lemma OrderTells(s: State, fd: int, tk: seq<string>, side: Side)
    requires Registry(s) && Live(s, fd)
    ensures ReplyTells(s, fd, CmdOrder(s, fd, tk, side))
  {
    hide Registry, Reply, PlaceOrder, FirstReply, Sweep, Parsed;
    ErrorsTell(s, fd);
    var c := s.conns[fd];
    if c.role == Trader && |tk| == 4 && Instrument(tk[1]).Some? && Parsed(tk[2], MIN_VALUE, MAX_VALUE).Some?
       && Parsed(tk[3], MIN_VALUE, MAX_VALUE).Some?
    {
      var op := Submit(side, Instrument(tk[1]).value, Parsed(tk[2], MIN_VALUE, MAX_VALUE).value,
                       Parsed(tk[3], MIN_VALUE, MAX_VALUE).value, c.ownerId);
      ParsedRange(tk[2], MIN_VALUE, MAX_VALUE);
      ParsedRange(tk[3], MIN_VALUE, MAX_VALUE);
      PlaceOrderExchange(s, fd, op);
      PlaceOrderFirst(s, fd, op);
    }
  }

  lemma CancelTells(s: State, fd: int, tk: seq<string>)
    requires Registry(s) && Live(s, fd)
    ensures ReplyTells(s, fd, CmdCancel(s, fd, tk))
  {
    hide Registry, Reply, CancelOrder, FirstReply, Parsed;
    ErrorsTell(s, fd);
    var c := s.conns[fd];
    if c.role == Trader && |tk| == 2 && Parsed(tk[1], 0, MAX_ORDER_ID).Some? {
      ParsedRange(tk[1], 0, MAX_ORDER_ID);
      CancelOrderTells(s, fd, Parsed(tk[1], 0, MAX_ORDER_ID).value);
    }
  }

  lemma CancelOrderTells(s: State, fd: int, w: nat)
    requires Registry(s) && Live(s, fd) && w <= MAX_ORDER_ID
    ensures ReplyTells(s, fd, CancelOrder(s, fd, w))
  {
    hide Registry, Reply, FirstReply, Execute, Delisted;
    var op := Cancel(w, s.conns[fd].ownerId);
    var m := CancelReply(w, Perform(s.store, op).1);
    ExecuteKeeps(s, op);
    ExecuteSame(s, op);
    RegistryConns(Execute(s, op));
    ReplyFirst(Execute(s, op), fd, m);
    SameFirst(s, Execute(s, op), fd, CancelOrder(s, fd, w));
    CancelOrderExchange(s, fd, w);
  }

  lemma SameFirst(s: State, s1: State, fd: int, r: State)
    requires fd in s.conns && fd in r.conns && s1.conns == s.conns
    ensures FirstReply(s1, fd, r) == FirstReply(s, fd, r)
  {
  }

  lemma ErrorsTell(s: State, fd: int)
    requires Registry(s) && Live(s, fd)
    ensures forall reason :: ReplyTells(s, fd, Reply(s, fd, ErrorMsg(reason)))
  {
    hide Registry, Reply, FirstReply;
    RegistryConns(s);
    forall reason
      ensures ReplyTells(s, fd, Reply(s, fd, ErrorMsg(reason)))
    {
      ReplyFirst(s, fd, ErrorMsg(reason));
      ReplyExchange(s, fd, ErrorMsg(reason));
    }
  }

  lemma OtherTells(s: State, fd: int, tk: seq<string>)
    requires Registry(s) && Live(s, fd)
    ensures ReplyTells(s, fd, CmdLogin(s, fd, tk))
    ensures forall on :: ReplyTells(s, fd, CmdSubscribe(s, fd, tk, on))
  {
    hide Registry, Reply, FirstReply;
    ErrorsTell(s, fd);
    LoginExchange(s, fd, tk);
    if |tk| == 2 {
      OkTells(s, LogIn(s, fd, tk[1]), fd);
    }
    forall on
      ensures ReplyTells(s, fd, CmdSubscribe(s, fd, tk, on))
    {
      SubscribeExchange(s, fd, tk, on);
      if |tk| == 2 && Instrument(tk[1]).Some? {
        OkTells(s, Subscribe(s, fd, Instrument(tk[1]).value, on), fd);
      }
    }
  }

  lemma OkTells(s: State, s1: State, fd: int)
    requires Registry(s) && Live(s, fd) && Live(s1, fd) && s1.conns[fd].wire.queued == s.conns[fd].wire.queued
    requires s1.conns[fd].out == s.conns[fd].out && s1.conns[fd].closing == s.conns[fd].closing
    ensures FirstReply(s, fd, Reply(s1, fd, OkMsg)) == Some(OkMsg)
  {
    FlushQueued(Enqueue(s1.conns[fd], OkMsg));
  }

  lemma {:induction false} FlushQueued(c: Conn)
    ensures Flush(c).wire.queued == c.wire.queued
    decreases |c.wire.script|
  {
    if !c.dead && c.out.Pending() != [] && c.wire.script != [] {
      var c1 := c.(wire := c.wire.(script := c.wire.script[1..]));
      match c.wire.script[0]
      case Sent(n) =>
        if n > 0 {
          FlushQueued(Take(c1, Accepts(n, |c1.out.Pending()|)));
        }
      case SendInterrupted => FlushQueued(c1);
      case SendBlocked =>
      case SendFailed =>
    }
  }

  lemma QuitTells(s: State, fd: int)
    requires Registry(s) && Live(s, fd)
    ensures ReplyTells(s, fd, DrainAndClose(s, fd))
  {
    hide Registry, DrainAndClose, Flush;
    DrainExchange(s, fd);
    DrainAndCloseIsPut(s, fd);
    RegistryConns(s);
    ClosingOk(s.conns[fd], |s.published|);
  }

  /** What the exchange did with a line can be read off the first message queued in reply. */
  lemma LineReplyTells(s: State, fd: int, line: string)
    requires Registry(s) && Live(s, fd)
    ensures ReplyTells(s, fd, HandleLine(s, fd, line))
  {
    hide Registry, Reply, CmdLogin, CmdOrder, CmdCancel, CmdSubscribe, DrainAndClose, Tokens, ReplyTells;
    var tk := Tokens(line);
    if tk == [] {
      SilenceTells(s, fd);
    } else {
      OtherTells(s, fd, tk);
      OrderTells(s, fd, tk, Buy);
      OrderTells(s, fd, tk, Sell);
      CancelTells(s, fd, tk);
      QuitTells(s, fd);
      ErrorsTell(s, fd);
    }
  }

  lemma SilenceTells(s: State, fd: int)
    requires fd in s.conns
    ensures ReplyTells(s, fd, s)
  {
  }
}
