/** What a client's lines mean.  Everything here is said about the words of a line, the text of the
    reply and what anybody can observe of the server, not about the handlers: which reply a line
    gets, which request it makes, whom it makes of the connection, and what it leaves alone. */
module ServerCommands {
  import opened Wrappers
  import opened Book
  import opened ExchangeStore
  import opened BookNotices
  import opened Protocol
  import opened ServerSpec
  import opened ServerConns
  import opened ServerRegistry
  import opened ServerTranscript
  import opened ServerExchange

  /** What a client may ask for. */
  datatype Ask =
    | AskLogin(name: string)
    | AskOrder(side: Side, inst: Inst, qty: nat, price: nat)
    | AskCancel(id: nat)
    | AskFollow(inst: Inst, on: bool)
    | AskQuit

  /** The words of a line that asks for it. */
  ghost predicate Means(tk: seq<string>, a: Ask) {
    match a
    case AskLogin(name) => tk == ["LOGIN", name]
    case AskOrder(side, inst, qty, price) =>
      && |tk| == 4
      && tk[0] == (if side == Buy then "BUY" else "SELL")
      && tk[1] == (if inst == 0 then "JNST" else "IMCT")
      && Spells(tk[2], qty) && 1 <= qty <= 2147483647
      && Spells(tk[3], price) && 1 <= price <= 2147483647
    case AskCancel(id) => |tk| == 2 && tk[0] == "CANCEL" && Spells(tk[1], id) && id <= 2147483647
    case AskFollow(inst, on) =>
      tk == [if on then "SUBSCRIBE" else "UNSUBSCRIBE", if inst == 0 then "JNST" else "IMCT"]
    case AskQuit => tk != [] && tk[0] == "QUIT"
  }

  /** The line a client writes for it. */
  function Line(a: Ask): string {
    match a
    case AskLogin(name) => Join(["LOGIN", name])
    case AskOrder(side, inst, qty, price) =>
      Join([if side == Buy then "BUY" else "SELL", InstName(inst), Decimal(qty), Decimal(price)])
    case AskCancel(id) => Join(["CANCEL", Decimal(id)])
    case AskFollow(inst, on) => Join([if on then "SUBSCRIBE" else "UNSUBSCRIBE", InstName(inst)])
    case AskQuit => Join(["QUIT"])
  }

  ghost predicate Sensible(a: Ask) {
    match a
    case AskLogin(name) => IsWord(name)
    case AskOrder(_, _, qty, price) => 1 <= qty <= 2147483647 && 1 <= price <= 2147483647
    case AskCancel(id) => id <= 2147483647
    case _ => true
  }

  lemma NumberSpelt(n: nat)
    requires n <= 2147483647
    ensures Spells(Decimal(n), n) && IsWord(Decimal(n))
  {
    ParsePrint(n, 0, 2147483647);
    ParsedSpells(Decimal(n), 0, 2147483647, n);
    DigitsWord(Decimal(n));
  }

  /** What a client writes means what it asks for. */
  lemma LineMeans(a: Ask)
    requires Sensible(a)
    ensures Means(Tokens(Line(a)), a)
  {
    hide Tokens, Decimal, Spells, Join;
    match a
    case AskLogin(name) => SplitJoin(["LOGIN", name]);
    case AskOrder(side, inst, qty, price) =>
      NumberSpelt(qty);
      NumberSpelt(price);
      SplitJoin([if side == Buy then "BUY" else "SELL", InstName(inst), Decimal(qty), Decimal(price)]);
    case AskCancel(id) =>
      NumberSpelt(id);
      SplitJoin(["CANCEL", Decimal(id)]);
    case AskFollow(inst, on) => SplitJoin([if on then "SUBSCRIBE" else "UNSUBSCRIBE", InstName(inst)]);
    case AskQuit => SplitJoin(["QUIT"]);
  }

  // ------------------------------------------------------------------ which handler

  /** The command words are all different. */
  lemma WordsDiffer(w: string)
    ensures w == "LOGIN" ==> w != "BUY" && w != "SELL" && w != "CANCEL" && w != "QUIT"
    ensures w == "LOGIN" ==> w != "SUBSCRIBE" && w != "UNSUBSCRIBE"
    ensures w == "BUY" ==> w != "SELL" && w != "CANCEL" && w != "QUIT" && w != "SUBSCRIBE" && w != "UNSUBSCRIBE"
    ensures w == "SELL" ==> w != "CANCEL" && w != "QUIT" && w != "SUBSCRIBE" && w != "UNSUBSCRIBE"
    ensures w == "CANCEL" ==> w != "QUIT" && w != "SUBSCRIBE" && w != "UNSUBSCRIBE"
    ensures w == "QUIT" ==> w != "SUBSCRIBE" && w != "UNSUBSCRIBE"
    ensures w == "SUBSCRIBE" ==> w != "UNSUBSCRIBE"
  {
    assert "SELL"[0] == 'S' && "QUIT"[0] == 'Q';
  }

  /** The handler of a line, by its first word. */
  lemma Dispatched(s: State, fd: int, line: string)
    requires fd in s.conns
    ensures var tk, r := Tokens(line), HandleLine(s, fd, line);
            && (tk == [] ==> r == s)
            && (tk != [] && tk[0] == "LOGIN" ==> r == CmdLogin(s, fd, tk))
            && (tk != [] && tk[0] == "BUY" ==> r == CmdOrder(s, fd, tk, Buy))
            && (tk != [] && tk[0] == "SELL" ==> r == CmdOrder(s, fd, tk, Sell))
            && (tk != [] && tk[0] == "CANCEL" ==> r == CmdCancel(s, fd, tk))
            && (tk != [] && tk[0] == "SUBSCRIBE" ==> r == CmdSubscribe(s, fd, tk, true))
            && (tk != [] && tk[0] == "UNSUBSCRIBE" ==> r == CmdSubscribe(s, fd, tk, false))
            && (tk != [] && tk[0] == "QUIT" ==> r == DrainAndClose(s, fd))
            && (tk != [] && !CommandWord(tk[0]) ==> r == Reply(s, fd, ErrorMsg(UnknownCommand)))
  {
    hide Tokens, CmdLogin, CmdOrder, CmdCancel, CmdSubscribe, DrainAndClose, Reply;
    if Tokens(line) != [] {
      WordsDiffer(Tokens(line)[0]);
    }
  }

  predicate CommandWord(w: string) {
    || w == "LOGIN" || w == "BUY" || w == "SELL" || w == "CANCEL"
    || w == "SUBSCRIBE" || w == "UNSUBSCRIBE" || w == "QUIT"
  }

  // ------------------------------------------------------------------ the reply

  /** A live trader goes by this name. */
  ghost predicate Taken(s: State, name: string) {
    exists f :: LiveTrader(s, f) && s.conns[f].username == name
  }

  ghost predicate IsNumber(t: string, lo: nat, hi: nat) {
    exists n :: lo <= n <= hi && Spells(t, n)
  }

  predicate IsInstrument(t: string) {
    t == "JNST" || t == "IMCT"
  }

  ghost function LoginReply(s: State, c: Conn, tk: seq<string>): string {
    if |tk| != 2 then "ERROR " + "bad arguments"
    else if c.role == MarketData then "ERROR " + ("not permitted " + "for this client type")
    else if c.role == Trader then "ERROR " + "already logged in"
    else if Taken(s, tk[1]) then "ERROR " + "duplicate username"
    else "OK"
  }

  ghost function OrderReply(s: State, c: Conn, tk: seq<string>): string {
    if c.role == MarketData then "ERROR " + ("not permitted " + "for this client type")
    else if c.role == Unknown then "ERROR " + "not logged in"
    else if |tk| != 4 then "ERROR " + "bad arguments"
    else if !IsInstrument(tk[1]) then "ERROR " + "unknown instrument"
    else if !IsNumber(tk[2], 1, 2147483647) then "ERROR " + "bad quantity"
    else if !IsNumber(tk[3], 1, 2147483647) then "ERROR " + "bad price"
    else "ORDER_ACCEPTED " + Decimal(s.store.count % 0x1_0000_0000)
  }

  /** The verdict on the cancel of order `w` by `c`. */
  function CancelVerdict(s: State, c: Conn, w: nat): string {
    if w !in s.store.orders then "ERROR " + "unknown order"
    else if s.store.orders[w].owner != c.ownerId then "ERROR " + "not your order"
    else "ORDER_CANCELLED " + Decimal(w)
  }

  ghost predicate CancelReplies(s: State, c: Conn, tk: seq<string>, text: string) {
    if c.role == MarketData then text == "ERROR " + ("not permitted " + "for this client type")
    else if c.role == Unknown then text == "ERROR " + "not logged in"
    else if |tk| != 2 then text == "ERROR " + "bad arguments"
    else if !IsNumber(tk[1], 0, 2147483647) then text == "ERROR " + "bad order id"
    else exists w :: w <= 2147483647 && Spells(tk[1], w) && text == CancelVerdict(s, c, w)
  }

  ghost function FollowReply(c: Conn, tk: seq<string>): string {
    if c.role == Trader then "ERROR " + ("not permitted " + "for this client type")
    else if |tk| != 2 then "ERROR " + "bad arguments"
    else if !IsInstrument(tk[1]) then "ERROR " + "unknown instrument"
    else "OK"
  }

  /** The text of the first line that connection `fd` gets in reply to the words `tk`; none for a blank
      line and for QUIT. */
  ghost predicate Owed(s: State, fd: int, tk: seq<string>, text: Option<string>)
    requires fd in s.conns
  {
    var c := s.conns[fd];
    if tk == [] || tk[0] == "QUIT" then text == None
    else
      && text.Some?
      && if tk[0] == "LOGIN" then text.value == LoginReply(s, c, tk)
         else if tk[0] == "BUY" || tk[0] == "SELL" then text.value == OrderReply(s, c, tk)
         else if tk[0] == "CANCEL" then CancelReplies(s, c, tk, text.value)
         else if tk[0] == "SUBSCRIBE" || tk[0] == "UNSUBSCRIBE" then text.value == FollowReply(c, tk)
         else text.value == "ERROR " + "unknown command"
  }

  function TextOf(m: Option<Msg>): Option<string> {
    match m
    case Some(msg) => Some(Body(msg))
    case None => None
  }

  lemma NumberParses(t: string, lo: nat, hi: nat)
    ensures IsNumber(t, lo, hi) <==> Parsed(t, lo, hi).Some?
    ensures Parsed(t, lo, hi).Some? ==> Spells(t, Parsed(t, lo, hi).value) && lo <= Parsed(t, lo, hi).value <= hi
    ensures forall n: nat :: Spells(t, n) && lo <= n <= hi ==> Parsed(t, lo, hi) == Some(n)
  {
    hide Parsed, Spells;
    forall n: nat
      ensures Parsed(t, lo, hi) == Some(n) <==> Spells(t, n) && lo <= n <= hi
    {
      ParsedSpells(t, lo, hi, n);
    }
    if Parsed(t, lo, hi).Some? {
      assert Parsed(t, lo, hi) == Some(Parsed(t, lo, hi).value);
    }
  }

  lemma InstrumentIs(t: string)
    ensures Instrument(t).Some? <==> IsInstrument(t)
    ensures forall i: Inst :: Instrument(t) == Some(i) <==> t == if i == 0 then "JNST" else "IMCT"
  {
  }

  lemma FirstErrors(s: State, fd: int)
    requires Registry(s) && Live(s, fd)
    ensures forall reason :: FirstReply(s, fd, Reply(s, fd, ErrorMsg(reason))) == Some(ErrorMsg(reason))
  {
    hide Registry, Reply, FirstReply;
    RegistryConns(s);
    forall reason
      ensures FirstReply(s, fd, Reply(s, fd, ErrorMsg(reason))) == Some(ErrorMsg(reason))
    {
      ReplyFirst(s, fd, ErrorMsg(reason));
    }
  }

  lemma NameKnown(s: State, name: string)
    requires Registry(s)
    ensures name in s.usernames <==> Taken(s, name)
  {
    hide IdsOk, OwnersOk, DeadOk, TableOk, ArchiveOk, BookOk, AllOk;
  }

  lemma LoginAnswered(s: State, fd: int, tk: seq<string>)
    requires Registry(s) && Live(s, fd) && tk != [] && tk[0] == "LOGIN"
    ensures Owed(s, fd, tk, TextOf(FirstReply(s, fd, CmdLogin(s, fd, tk))))
  {
    hide Registry, Reply, LogIn, FirstReply, Taken;
    WordsDiffer(tk[0]);
    FirstErrors(s, fd);
    if |tk| == 2 {
      NameKnown(s, tk[1]);
      LogInQuiet(s, fd, tk[1]);
      OkTells(s, LogIn(s, fd, tk[1]), fd);
    }
  }

  lemma LogInQuiet(s: State, fd: int, name: string)
    requires Live(s, fd)
    ensures var s1 := LogIn(s, fd, name);
            && Live(s1, fd) && s1.conns[fd].wire.queued == s.conns[fd].wire.queued
            && s1.conns[fd].out == s.conns[fd].out && s1.conns[fd].closing == s.conns[fd].closing
  {
  }

  lemma OrderAnswered(s: State, fd: int, tk: seq<string>, side: Side)
    requires Registry(s) && Live(s, fd) && tk != [] && tk[0] == (if side == Buy then "BUY" else "SELL")
    ensures Owed(s, fd, tk, TextOf(FirstReply(s, fd, CmdOrder(s, fd, tk, side))))
  {
    hide Registry, Reply, PlaceOrder, FirstReply, Parsed, Spells, Decimal;
    WordsDiffer(tk[0]);
    FirstErrors(s, fd);
    var c := s.conns[fd];
    if c.role == Trader && |tk| == 4 {
      InstrumentIs(tk[1]);
      NumberParses(tk[2], 1, 2147483647);
      NumberParses(tk[3], 1, 2147483647);
      if IsInstrument(tk[1]) && IsNumber(tk[2], 1, 2147483647) && IsNumber(tk[3], 1, 2147483647) {
        PlaceOrderFirst(s, fd, Submit(side, Instrument(tk[1]).value, Parsed(tk[2], MIN_VALUE, MAX_VALUE).value,
                                      Parsed(tk[3], MIN_VALUE, MAX_VALUE).value, c.ownerId));
      }
    }
  }

  lemma CancelFirst(s: State, fd: int, w: nat)
    requires Registry(s) && Live(s, fd) && w <= MAX_ORDER_ID
    ensures TextOf(FirstReply(s, fd, CancelOrder(s, fd, w))) == Some(CancelVerdict(s, s.conns[fd], w))
  {
    hide Registry, Reply, FirstReply, Execute, Perform, Body, CancelVerdict, CancelReply;
    var op := Cancel(w, s.conns[fd].ownerId);
    ExecuteKeeps(s, op);
    ExecuteSame(s, op);
    RegistryConns(Execute(s, op));
    ReplyFirst(Execute(s, op), fd, CancelReply(w, Perform(s.store, op).1));
    SameFirst(s, Execute(s, op), fd, CancelOrder(s, fd, w));
    VerdictText(s, s.conns[fd], w);
  }

  lemma VerdictText(s: State, c: Conn, w: nat)
    ensures Body(CancelReply(w, Perform(s.store, Cancel(w, c.ownerId)).1)) == CancelVerdict(s, c, w)
  {
    hide Delisted;
  }

  lemma CancelAnswered(s: State, fd: int, tk: seq<string>)
    requires Registry(s) && Live(s, fd) && tk != [] && tk[0] == "CANCEL"
    ensures Owed(s, fd, tk, TextOf(FirstReply(s, fd, CmdCancel(s, fd, tk))))
  {
    hide Registry, Reply, CancelOrder, FirstReply, Parsed, Spells, CancelVerdict;
    WordsDiffer(tk[0]);
    FirstErrors(s, fd);
    if s.conns[fd].role == Trader && |tk| == 2 {
      NumberParses(tk[1], 0, 2147483647);
      if Parsed(tk[1], 0, MAX_ORDER_ID).Some? {
        CancelFirst(s, fd, Parsed(tk[1], 0, MAX_ORDER_ID).value);
      }
    }
  }

  lemma FollowAnswered(s: State, fd: int, tk: seq<string>, on: bool)
    requires Registry(s) && Live(s, fd) && tk != [] && tk[0] == (if on then "SUBSCRIBE" else "UNSUBSCRIBE")
    ensures Owed(s, fd, tk, TextOf(FirstReply(s, fd, CmdSubscribe(s, fd, tk, on))))
  {
    hide Registry, Reply, FirstReply;
    WordsDiffer(tk[0]);
    FirstErrors(s, fd);
    if |tk| == 2 {
      InstrumentIs(tk[1]);
      if IsInstrument(tk[1]) {
        OkTells(s, Subscribe(s, fd, Instrument(tk[1]).value, on), fd);
      }
    }
  }

  lemma QuitSilent(s: State, fd: int)
    requires Registry(s) && Live(s, fd)
    ensures FirstReply(s, fd, DrainAndClose(s, fd)) == None && FirstReply(s, fd, s) == None
  {
    hide Registry, DrainAndClose, Flush;
    DrainAndCloseIsPut(s, fd);
    RegistryConns(s);
    ClosingOk(s.conns[fd], |s.published|);
  }

  /** Every line of a live connection is answered with the text the protocol owes it. */
  lemma LineAnswered(s: State, fd: int, line: string)
    requires Registry(s) && Live(s, fd)
    ensures Owed(s, fd, Tokens(line), TextOf(FirstReply(s, fd, HandleLine(s, fd, line))))
  {
    hide Registry, Tokens, HandleLine, FirstReply, Reply, DrainAndClose, CmdLogin, CmdOrder, CmdCancel, CmdSubscribe;
    hide LoginReply, OrderReply, CancelReplies, FollowReply;
    var tk := Tokens(line);
    Dispatched(s, fd, line);
    QuitSilent(s, fd);
    if tk != [] {
      WordsDiffer(tk[0]);
      if tk[0] == "LOGIN" {
        LoginAnswered(s, fd, tk);
      } else if tk[0] == "BUY" {
        OrderAnswered(s, fd, tk, Buy);
      } else if tk[0] == "SELL" {
        OrderAnswered(s, fd, tk, Sell);
      } else if tk[0] == "CANCEL" {
        CancelAnswered(s, fd, tk);
      } else if tk[0] == "SUBSCRIBE" {
        FollowAnswered(s, fd, tk, true);
      } else if tk[0] == "UNSUBSCRIBE" {
        FollowAnswered(s, fd, tk, false);
      } else if tk[0] != "QUIT" {
        FirstErrors(s, fd);
      }
    }
  }

  // ------------------------------------------------------------------ the request

  /** The request a line makes of the exchange, if any. */
  ghost predicate Requested(s: State, fd: int, tk: seq<string>, op: Op)
    requires fd in s.conns
  {
    && s.conns[fd].role == Trader
    && match op
       case Submit(side, inst, qty, price, owner) =>
         owner == s.conns[fd].ownerId && Means(tk, AskOrder(side, inst, qty, price))
       case Cancel(id, canceller) => canceller == s.conns[fd].ownerId && Means(tk, AskCancel(id))
  }

  lemma OrderRequests(s: State, fd: int, tk: seq<string>, side: Side, op: Op)
    requires fd in s.conns && tk != [] && tk[0] == (if side == Buy then "BUY" else "SELL")
    ensures CmdOrder(s, fd, tk, side).reqs == s.reqs + [op] <==> Requested(s, fd, tk, op)
    ensures CmdOrder(s, fd, tk, side).reqs == s.reqs || exists o :: Requested(s, fd, tk, o)
  {
    hide Reply, PlaceOrder, Parsed, Spells;
    WordsDiffer(tk[0]);
    RepliesExchange(s, fd);
    assert s.reqs != s.reqs + [op];
    var c := s.conns[fd];
    if c.role == Trader && |tk| == 4 {
      InstrumentIs(tk[1]);
      NumberParses(tk[2], 1, 2147483647);
      NumberParses(tk[3], 1, 2147483647);
      if Instrument(tk[1]).Some? && Parsed(tk[2], MIN_VALUE, MAX_VALUE).Some?
         && Parsed(tk[3], MIN_VALUE, MAX_VALUE).Some?
      {
        var asked := CmdOrderOp(s, fd, tk, side);
        assert Requested(s, fd, tk, asked);
        LastSame(s.reqs, asked, op);
      }
    }
  }

  /** The one request of an order line that passes every gate. */
  lemma CmdOrderOp(s: State, fd: int, tk: seq<string>, side: Side) returns (op: Op)
    requires fd in s.conns && s.conns[fd].role == Trader && |tk| == 4 && Instrument(tk[1]).Some?
    requires Parsed(tk[2], MIN_VALUE, MAX_VALUE).Some? && Parsed(tk[3], MIN_VALUE, MAX_VALUE).Some?
    ensures op == Submit(side, Instrument(tk[1]).value, Parsed(tk[2], 1, 2147483647).value,
                         Parsed(tk[3], 1, 2147483647).value, s.conns[fd].ownerId)
    ensures CmdOrder(s, fd, tk, side).reqs == s.reqs + [op]
  {
    hide PlaceOrder;
    op := Submit(side, Instrument(tk[1]).value, Parsed(tk[2], 1, 2147483647).value,
                 Parsed(tk[3], 1, 2147483647).value, s.conns[fd].ownerId);
    PlaceOrderExchange(s, fd, op);
  }

  lemma LastSame(a: seq<Op>, x: Op, y: Op)
    ensures a + [x] == a + [y] <==> x == y
  {
    assert (a + [x])[|a|] == x && (a + [y])[|a|] == y;
  }

  lemma CancelRequests(s: State, fd: int, tk: seq<string>, op: Op)
    requires fd in s.conns && tk != [] && tk[0] == "CANCEL"
    ensures CmdCancel(s, fd, tk).reqs == s.reqs + [op] <==> Requested(s, fd, tk, op)
    ensures CmdCancel(s, fd, tk).reqs == s.reqs || exists o :: Requested(s, fd, tk, o)
  {
    hide Reply, CancelOrder, Parsed, Spells;
    WordsDiffer(tk[0]);
    RepliesExchange(s, fd);
    assert s.reqs != s.reqs + [op];
    var c := s.conns[fd];
    if c.role == Trader && |tk| == 2 {
      NumberParses(tk[1], 0, 2147483647);
      if Parsed(tk[1], 0, MAX_ORDER_ID).Some? {
        var w := Parsed(tk[1], 0, MAX_ORDER_ID).value;
        CancelOrderExchange(s, fd, w);
        assert Requested(s, fd, tk, Cancel(w, c.ownerId));
        LastSame(s.reqs, Cancel(w, c.ownerId), op);
      }
    }
  }

  lemma OthersRequestNothing(s: State, fd: int, tk: seq<string>)
    requires fd in s.conns && tk != [] && tk[0] != "BUY" && tk[0] != "SELL" && tk[0] != "CANCEL"
    ensures forall op :: !Requested(s, fd, tk, op)
  {
  }

  /** A line makes a request of the exchange if and only if it comes from a logged-in trader and asks
      for just that: side, instrument, quantity and price where they stand in the line. */
  lemma LineRequests(s: State, fd: int, line: string, op: Op)
    requires fd in s.conns
    ensures HandleLine(s, fd, line).reqs == s.reqs + [op] <==> Requested(s, fd, Tokens(line), op)
    ensures HandleLine(s, fd, line).reqs == s.reqs || exists o :: Requested(s, fd, Tokens(line), o)
  {
    hide Tokens, HandleLine, Reply, DrainAndClose, CmdLogin, CmdOrder, CmdCancel, CmdSubscribe, Requested;
    var tk := Tokens(line);
    Dispatched(s, fd, line);
    assert s.reqs != s.reqs + [op];
    if tk == [] {
      assert !Requested(s, fd, tk, op) by { BlankRequestsNothing(s, fd, op); }
    } else {
      WordsDiffer(tk[0]);
      if tk[0] == "BUY" {
        OrderRequests(s, fd, tk, Buy, op);
      } else if tk[0] == "SELL" {
        OrderRequests(s, fd, tk, Sell, op);
      } else if tk[0] == "CANCEL" {
        CancelRequests(s, fd, tk, op);
      } else {
        OthersRequestNothing(s, fd, tk);
        LoginExchange(s, fd, tk);
        SubscribeExchange(s, fd, tk, true);
        SubscribeExchange(s, fd, tk, false);
        DrainExchange(s, fd);
        ReplyExchange(s, fd, ErrorMsg(UnknownCommand));
      }
    }
  }

  lemma BlankRequestsNothing(s: State, fd: int, op: Op)
    requires fd in s.conns
    ensures !Requested(s, fd, [], op)
  {
  }

  // ------------------------------------------------------------------ who everybody is afterwards

  /** The line logs the connection in: it has no role yet, and no live trader has the name. */
  ghost predicate LogsIn(s: State, fd: int, tk: seq<string>)
    requires fd in s.conns
  {
    s.conns[fd].role == Unknown && |tk| == 2 && Means(tk, AskLogin(tk[1])) && !Taken(s, tk[1])
  }

  /** The line turns an instrument on or off: the connection is no trader. */
  ghost predicate MayFollow(s: State, fd: int, tk: seq<string>, inst: Inst, on: bool)
    requires fd in s.conns
  {
    s.conns[fd].role != Trader && Means(tk, AskFollow(inst, on))
  }

  /** Whom the line makes of its connection. */
  ghost predicate Becomes(s: State, fd: int, tk: seq<string>, d: Conn)
    requires fd in s.conns
  {
    var c := s.conns[fd];
    && d.fd == c.fd && d.ownerId == c.ownerId
    && (d.closing <==> c.closing || Means(tk, AskQuit))
    && (if LogsIn(s, fd, tk) then d.role == Trader && d.username == tk[1] && d.subs == c.subs
        else if exists inst, on :: MayFollow(s, fd, tk, inst, on) then
          && d.role == MarketData && d.username == c.username
          && (forall inst, on :: MayFollow(s, fd, tk, inst, on) ==>
                d.subs == if on then c.subs + {inst} else c.subs - {inst})
        else d.role == c.role && d.username == c.username && d.subs == c.subs)
  }

  /** The same person. */
  ghost predicate Unmoved(c: Conn, d: Conn) {
    SameFace(c, d) && d.closing == c.closing
  }

  lemma ReplyUnmoved(s: State, fd: int, m: Msg)
    requires AllOk(s) && fd in s.conns
    ensures forall f :: f in s.conns ==> Unmoved(s.conns[f], Reply(s, fd, m).conns[f])
  {
    hide QueueOut, ConnOk;
    QueueOutOk(s.conns[fd], m);
  }

  lemma NotifyUnmoved(c: Conn, owner: int, m: Msg)
    requires ConnOk(c)
    ensures Unmoved(c, NotifyConn(c, owner, m)) && ConnOk(NotifyConn(c, owner, m))
  {
    hide QueueOut, ConnOk;
    QueueOutOk(c, m);
  }

  lemma PublishUnmoved(s: State, t: Trade)
    requires Registry(s)
    ensures forall f :: f in s.conns ==> Unmoved(s.conns[f], Publish(s, t).conns[f])
  {
    hide Registry, Publish, QueueOut, ConnOk, NotifyConn;
    RegistryConns(s);
    forall f | f in s.conns
      ensures Unmoved(s.conns[f], Publish(s, t).conns[f])
    {
      PublishEffect(s, t, f);
      var c := s.conns[f];
      NotifyUnmoved(c, t.buyer, BoughtMsg(t));
      var d := NotifyConn(c, t.buyer, BoughtMsg(t));
      NotifyUnmoved(d, t.seller, SoldMsg(t));
      QueueOutOk(NotifyConn(d, t.seller, SoldMsg(t)), TradeMsg(t));
    }
  }

  lemma {:induction false} PublishAllUnmoved(s: State, trades: seq<Trade>)
    requires Registry(s)
    ensures forall f :: f in s.conns ==> Unmoved(s.conns[f], PublishAll(s, trades).conns[f])
    decreases |trades|
  {
    if trades != [] {
      hide Registry, Publish;
      PublishKeeps(s, trades[0]);
      PublishUnmoved(s, trades[0]);
      PublishAllUnmoved(Publish(s, trades[0]), trades[1..]);
    }
  }

  lemma OrderUnmoved(s: State, fd: int, tk: seq<string>, side: Side)
    requires Registry(s) && Live(s, fd)
    ensures forall f :: f in s.conns ==> Unmoved(s.conns[f], CmdOrder(s, fd, tk, side).conns[f])
  {
    hide Registry, Reply, PublishAll, Execute, Parsed, Perform, Unmoved;
    RegistryConns(s);
    forall m
      ensures forall f :: f in s.conns ==> Unmoved(s.conns[f], Reply(s, fd, m).conns[f])
    {
      ReplyUnmoved(s, fd, m);
    }
    var c := s.conns[fd];
    if c.role == Trader && |tk| == 4 && Instrument(tk[1]).Some? && Parsed(tk[2], MIN_VALUE, MAX_VALUE).Some?
       && Parsed(tk[3], MIN_VALUE, MAX_VALUE).Some?
    {
      var op := CmdOrderOp(s, fd, tk, side);
      ParsedRange(tk[2], MIN_VALUE, MAX_VALUE);
      ParsedRange(tk[3], MIN_VALUE, MAX_VALUE);
      PlaceUnmoved(s, fd, op);
    }
  }

  lemma PlaceUnmoved(s: State, fd: int, op: Op)
    requires Registry(s) && fd in s.conns && op.Submit? && Permitted(s, fd, op)
    ensures forall f :: f in s.conns ==> Unmoved(s.conns[f], PlaceOrder(s, fd, op).conns[f])
  {
    hide Registry, Reply, PublishAll, Execute, Perform, Permitted;
    var s1, m := Execute(s, op), OrderAccepted(WireId(s.store.count));
    PermittedKnown(s, fd, op);
    ExecuteKeeps(s, op);
    ExecuteSame(s, op);
    RegistryConns(s1);
    ReplyUnmoved(s1, fd, m);
    ReplyKeeps(s1, fd, m);
    PublishAllUnmoved(Reply(s1, fd, m), OutcomeTrades(Perform(s.store, op).1));
  }

  lemma CancelUnmoved(s: State, fd: int, tk: seq<string>)
    requires Registry(s) && Live(s, fd)
    ensures forall f :: f in s.conns ==> Unmoved(s.conns[f], CmdCancel(s, fd, tk).conns[f])
  {
    hide Registry, Reply, Execute, Parsed, Perform, Unmoved;
    RegistryConns(s);
    forall m
      ensures forall f :: f in s.conns ==> Unmoved(s.conns[f], Reply(s, fd, m).conns[f])
    {
      ReplyUnmoved(s, fd, m);
    }
    if s.conns[fd].role == Trader && |tk| == 2 && Parsed(tk[1], 0, MAX_ORDER_ID).Some? {
      var w := Parsed(tk[1], 0, MAX_ORDER_ID).value;
      var op := Cancel(w, s.conns[fd].ownerId);
      ParsedRange(tk[1], 0, MAX_ORDER_ID);
      ExecuteKeeps(s, op);
      ExecuteSame(s, op);
      RegistryConns(Execute(s, op));
      ReplyUnmoved(Execute(s, op), fd, CancelReply(w, Perform(s.store, op).1));
    }
  }

  /** Nobody but `fd` has moved, and `fd` is now `d`. */
  ghost predicate OnlyMoves(s: State, fd: int, r: State) {
    r.conns.Keys == s.conns.Keys && forall f :: f in s.conns && f != fd ==> Unmoved(s.conns[f], r.conns[f])
  }

  lemma ErrorsUnmoved(s: State, fd: int)
    requires Registry(s) && fd in s.conns
    ensures forall m, f :: f in s.conns ==> Unmoved(s.conns[f], Reply(s, fd, m).conns[f])
  {
    hide Registry, Reply, Unmoved;
    RegistryConns(s);
    forall m, f | f in s.conns
      ensures Unmoved(s.conns[f], Reply(s, fd, m).conns[f])
    {
      ReplyUnmoved(s, fd, m);
    }
  }

  /** What a login makes of the table. */
  lemma LogInMoves(s: State, fd: int, name: string)
    requires Registry(s) && LoginReady(s, fd, name)
    ensures var c, r := s.conns[fd], Reply(LogIn(s, fd, name), fd, OkMsg);
            && OnlyMoves(s, fd, r)
            && Unmoved(c.(role := Trader, username := name), r.conns[fd])
  {
    hide Registry, Reply, Unmoved;
    LogInKeeps(s, fd, name);
    var s1 := LogIn(s, fd, name);
    ErrorsUnmoved(s1, fd);
    assert forall f :: f in s.conns && f != fd ==> s1.conns[f] == s.conns[f];
  }

  lemma NotLogin(s: State, fd: int, tk: seq<string>, d: Conn)
    requires fd in s.conns && tk != [] && tk[0] == "LOGIN" && !LogsIn(s, fd, tk) && Unmoved(s.conns[fd], d)
    ensures Becomes(s, fd, tk, d)
  {
    hide Taken;
    WordsDiffer(tk[0]);
  }

  lemma LoginMoves(s: State, fd: int, tk: seq<string>)
    requires Registry(s) && Live(s, fd) && tk != [] && tk[0] == "LOGIN" && (|tk| == 2 ==> tk[1] != [])
    ensures OnlyMoves(s, fd, CmdLogin(s, fd, tk)) && Becomes(s, fd, tk, CmdLogin(s, fd, tk).conns[fd])
  {
    hide Registry, Reply, LogIn, Taken;
    WordsDiffer(tk[0]);
    ErrorsUnmoved(s, fd);
    if |tk| == 2 {
      NameKnown(s, tk[1]);
      assert tk == ["LOGIN", tk[1]];
    }
    if LogsIn(s, fd, tk) {
      LogInMoves(s, fd, tk[1]);
    } else {
      hide Becomes, Unmoved;
      NotLogin(s, fd, tk, CmdLogin(s, fd, tk).conns[fd]);
    }
  }

  lemma SubscribeMoves(s: State, fd: int, inst: Inst, on: bool)
    requires Registry(s) && Live(s, fd) && s.conns[fd].role != Trader
    ensures var c, r := s.conns[fd], Reply(Subscribe(s, fd, inst, on), fd, OkMsg);
            && OnlyMoves(s, fd, r)
            && Unmoved(c.(role := MarketData, subs := if on then c.subs + {inst} else c.subs - {inst}), r.conns[fd])
  {
    hide Registry, Reply;
    SubscribeKeeps(s, fd, inst, on);
    var s1 := Subscribe(s, fd, inst, on);
    ErrorsUnmoved(s1, fd);
    assert forall f :: f in s.conns && f != fd ==> s1.conns[f] == s.conns[f];
  }

  lemma FollowBecomes(s: State, fd: int, tk: seq<string>, inst: Inst, on: bool, d: Conn)
    requires fd in s.conns && MayFollow(s, fd, tk, inst, on)
    requires var c := s.conns[fd];
             Unmoved(c.(role := MarketData, subs := if on then c.subs + {inst} else c.subs - {inst}), d)
    ensures Becomes(s, fd, tk, d)
  {
    hide Taken;
    WordsDiffer(tk[0]);
    forall i: Inst, o | MayFollow(s, fd, tk, i, o)
      ensures i == inst && o == on
    {
      assert Means(tk, AskFollow(i, o)) && Means(tk, AskFollow(inst, on));
      InstrumentIs(tk[1]);
    }
  }

  lemma NotFollow(s: State, fd: int, tk: seq<string>, d: Conn)
    requires fd in s.conns && tk != [] && (tk[0] == "SUBSCRIBE" || tk[0] == "UNSUBSCRIBE") && Unmoved(s.conns[fd], d)
    requires forall inst, on :: !MayFollow(s, fd, tk, inst, on)
    ensures Becomes(s, fd, tk, d)
  {
    hide Taken;
    WordsDiffer(tk[0]);
  }

  lemma FollowMoves(s: State, fd: int, tk: seq<string>, on: bool)
    requires Registry(s) && Live(s, fd) && tk != [] && tk[0] == (if on then "SUBSCRIBE" else "UNSUBSCRIBE")
    ensures OnlyMoves(s, fd, CmdSubscribe(s, fd, tk, on)) && Becomes(s, fd, tk, CmdSubscribe(s, fd, tk, on).conns[fd])
  {
    hide Registry, Reply, Subscribe, Becomes, Unmoved;
    WordsDiffer(tk[0]);
    ErrorsUnmoved(s, fd);
    var r := CmdSubscribe(s, fd, tk, on);
    if |tk| == 2 {
      InstrumentIs(tk[1]);
      assert tk == [tk[0], tk[1]];
    }
    if s.conns[fd].role != Trader && |tk| == 2 && Instrument(tk[1]).Some? {
      var i := Instrument(tk[1]).value;
      assert MayFollow(s, fd, tk, i, on);
      SubscribeMoves(s, fd, i, on);
      FollowBecomes(s, fd, tk, i, on, r.conns[fd]);
    } else {
      NotFollow(s, fd, tk, r.conns[fd]);
    }
  }

  lemma QuitMoves(s: State, fd: int, tk: seq<string>)
    requires Registry(s) && Live(s, fd) && tk != [] && tk[0] == "QUIT"
    ensures OnlyMoves(s, fd, DrainAndClose(s, fd)) && Becomes(s, fd, tk, DrainAndClose(s, fd).conns[fd])
  {
    hide Registry, DrainAndClose, Flush;
    WordsDiffer(tk[0]);
    DrainAndCloseIsPut(s, fd);
    RegistryConns(s);
    ClosingOk(s.conns[fd], |s.published|);
  }

  lemma UnmovedBecomes(s: State, fd: int, tk: seq<string>, d: Conn)
    requires fd in s.conns && Unmoved(s.conns[fd], d)
    requires tk == [] || (tk[0] != "LOGIN" && tk[0] != "SUBSCRIBE" && tk[0] != "UNSUBSCRIBE" && tk[0] != "QUIT")
    ensures Becomes(s, fd, tk, d)
  {
  }

  /** Whom a line makes of whom: a connection logs in, follows, unfollows or quits if and only if its
      line asks for that and it may, and nothing else about anybody changes. */
  lemma LineMoves(s: State, fd: int, line: string)
    requires Registry(s) && Live(s, fd)
    ensures var r := HandleLine(s, fd, line);
            OnlyMoves(s, fd, r) && Becomes(s, fd, Tokens(line), r.conns[fd])
  {
    hide Registry, Tokens, HandleLine, Reply, DrainAndClose, CmdLogin, CmdOrder, CmdCancel, CmdSubscribe, Becomes;
    var tk := Tokens(line);
    TokensAreWords(line);
    Dispatched(s, fd, line);
    if tk == [] {
      UnmovedBecomes(s, fd, tk, s.conns[fd]);
    } else {
      WordsDiffer(tk[0]);
      if tk[0] == "LOGIN" {
        LoginMoves(s, fd, tk);
      } else if tk[0] == "SUBSCRIBE" {
        FollowMoves(s, fd, tk, true);
      } else if tk[0] == "UNSUBSCRIBE" {
        FollowMoves(s, fd, tk, false);
      } else if tk[0] == "QUIT" {
        QuitMoves(s, fd, tk);
      } else {
        if tk[0] == "BUY" {
          OrderUnmoved(s, fd, tk, Buy);
        } else if tk[0] == "SELL" {
          OrderUnmoved(s, fd, tk, Sell);
        } else if tk[0] == "CANCEL" {
          CancelUnmoved(s, fd, tk);
        } else {
          RegistryConns(s);
          ReplyUnmoved(s, fd, ErrorMsg(UnknownCommand));
        }
        UnmovedBecomes(s, fd, tk, HandleLine(s, fd, line).conns[fd]);
      }
    }
  }

  // ------------------------------------------------------------------ and nothing more is said

  /** What was queued stays, and from place `from` on there are executions only. */
  ghost predicate ExecsFrom(q: seq<Msg>, q': seq<Msg>, from: nat) {
    q <= q' && forall j :: from <= j < |q'| ==> q'[j].Exec?
  }

  /** Connection `fd` has got one reply at most, and beyond that everybody executions at most. */
  ghost predicate OneReply(s: State, fd: int, r: State) {
    && r.conns.Keys == s.conns.Keys
    && forall f :: f in s.conns ==>
         var q := s.conns[f].wire.queued;
         ExecsFrom(q, r.conns[f].wire.queued, if f == fd then |q| + 1 else |q|)
  }

  lemma ReplyOnce(s: State, s1: State, fd: int, m: Msg)
    requires AllOk(s1) && fd in s.conns && s1.conns.Keys == s.conns.Keys
    requires forall f :: f in s.conns ==> s1.conns[f].wire.queued == s.conns[f].wire.queued
    ensures OneReply(s, fd, Reply(s1, fd, m))
  {
    hide QueueOut, ConnOk;
    QueueOutOk(s1.conns[fd], m);
    QueueOutDead(s1.conns[fd], m);
  }

  lemma NotifyExecs(c: Conn, owner: int, m: Msg, q: seq<Msg>, from: nat)
    requires ConnOk(c) && m.Exec? && ExecsFrom(q, c.wire.queued, from)
    ensures ConnOk(NotifyConn(c, owner, m)) && ExecsFrom(q, NotifyConn(c, owner, m).wire.queued, from)
  {
    hide QueueOut, ConnOk;
    QueueOutOk(c, m);
  }

  lemma PublishExecs(s: State, fd: int, r: State, t: Trade)
    requires Registry(r) && OneReply(s, fd, r)
    ensures OneReply(s, fd, Publish(r, t))
  {
    hide Registry, Publish, QueueOut, ConnOk, NotifyConn, ExecsFrom;
    RegistryConns(r);
    forall f | f in s.conns
      ensures var q := s.conns[f].wire.queued;
              ExecsFrom(q, Publish(r, t).conns[f].wire.queued, if f == fd then |q| + 1 else |q|)
    {
      var q, c := s.conns[f].wire.queued, r.conns[f];
      var from := if f == fd then |q| + 1 else |q|;
      PublishEffect(r, t, f);
      NotifyExecs(c, t.buyer, BoughtMsg(t), q, from);
      var d := NotifyConn(c, t.buyer, BoughtMsg(t));
      NotifyExecs(d, t.seller, SoldMsg(t), q, from);
      TellExecs(NotifyConn(d, t.seller, SoldMsg(t)), t, q, from);
    }
  }

  lemma TellExecs(c: Conn, t: Trade, q: seq<Msg>, from: nat)
    requires ConnOk(c) && ExecsFrom(q, c.wire.queued, from)
    ensures ExecsFrom(q, Tell(c, t).wire.queued, from)
  {
    hide QueueOut, ConnOk;
    QueueOutOk(c, TradeMsg(t));
  }

  lemma {:induction false} PublishAllExecs(s: State, fd: int, r: State, trades: seq<Trade>)
    requires Registry(r) && OneReply(s, fd, r)
    ensures OneReply(s, fd, PublishAll(r, trades))
    decreases |trades|
  {
    if trades != [] {
      hide Registry, Publish, OneReply;
      PublishKeeps(r, trades[0]);
      PublishExecs(s, fd, r, trades[0]);
      PublishAllExecs(s, fd, Publish(r, trades[0]), trades[1..]);
    }
  }

  lemma PlaceOnce(s: State, fd: int, op: Op)
    requires Registry(s) && fd in s.conns && op.Submit? && Permitted(s, fd, op)
    ensures OneReply(s, fd, PlaceOrder(s, fd, op))
  {
    hide Registry, Reply, PublishAll, Execute, Perform, Permitted, OneReply;
    var s1, m := Execute(s, op), OrderAccepted(WireId(s.store.count));
    PermittedKnown(s, fd, op);
    ExecuteKeeps(s, op);
    ExecuteSame(s, op);
    RegistryConns(s1);
    ReplyOnce(s, s1, fd, m);
    ReplyKeeps(s1, fd, m);
    PublishAllExecs(s, fd, Reply(s1, fd, m), OutcomeTrades(Perform(s.store, op).1));
  }

  lemma OrderOnce(s: State, fd: int, tk: seq<string>, side: Side)
    requires Registry(s) && Live(s, fd)
    ensures OneReply(s, fd, CmdOrder(s, fd, tk, side))
  {
    hide Registry, Reply, PlaceOrder, Parsed, OneReply;
    RepliesOnce(s, fd);
    var c := s.conns[fd];
    if c.role == Trader && |tk| == 4 && Instrument(tk[1]).Some? && Parsed(tk[2], MIN_VALUE, MAX_VALUE).Some?
       && Parsed(tk[3], MIN_VALUE, MAX_VALUE).Some?
    {
      ParsedRange(tk[2], MIN_VALUE, MAX_VALUE);
      ParsedRange(tk[3], MIN_VALUE, MAX_VALUE);
      PlaceOnce(s, fd, Submit(side, Instrument(tk[1]).value, Parsed(tk[2], MIN_VALUE, MAX_VALUE).value,
                              Parsed(tk[3], MIN_VALUE, MAX_VALUE).value, c.ownerId));
    }
  }

  lemma RepliesOnce(s: State, fd: int)
    requires Registry(s) && fd in s.conns
    ensures forall m :: OneReply(s, fd, Reply(s, fd, m))
  {
    hide Registry, Reply, OneReply;
    RegistryConns(s);
    forall m
      ensures OneReply(s, fd, Reply(s, fd, m))
    {
      ReplyOnce(s, s, fd, m);
    }
  }

  lemma CancelOnce(s: State, fd: int, tk: seq<string>)
    requires Registry(s) && Live(s, fd)
    ensures OneReply(s, fd, CmdCancel(s, fd, tk))
  {
    hide Registry, Reply, Execute, Parsed, Perform, OneReply;
    RepliesOnce(s, fd);
    if s.conns[fd].role == Trader && |tk| == 2 && Parsed(tk[1], 0, MAX_ORDER_ID).Some? {
      var w := Parsed(tk[1], 0, MAX_ORDER_ID).value;
      var op := Cancel(w, s.conns[fd].ownerId);
      ParsedRange(tk[1], 0, MAX_ORDER_ID);
      ExecuteKeeps(s, op);
      ExecuteSame(s, op);
      RegistryConns(Execute(s, op));
      ReplyOnce(s, Execute(s, op), fd, CancelReply(w, Perform(s.store, op).1));
    }
  }

  lemma LoginOnce(s: State, fd: int, tk: seq<string>)
    requires Registry(s) && Live(s, fd) && (|tk| == 2 ==> tk[1] != [])
    ensures OneReply(s, fd, CmdLogin(s, fd, tk))
  {
    hide Registry, Reply, OneReply;
    RepliesOnce(s, fd);
    if |tk| == 2 && s.conns[fd].role == Unknown && tk[1] !in s.usernames {
      LogInKeeps(s, fd, tk[1]);
      RegistryConns(LogIn(s, fd, tk[1]));
      ReplyOnce(s, LogIn(s, fd, tk[1]), fd, OkMsg);
    }
  }

  lemma FollowOnce(s: State, fd: int, tk: seq<string>, on: bool)
    requires Registry(s) && Live(s, fd)
    ensures OneReply(s, fd, CmdSubscribe(s, fd, tk, on))
  {
    hide Registry, Reply, OneReply;
    RepliesOnce(s, fd);
    if s.conns[fd].role != Trader && |tk| == 2 && Instrument(tk[1]).Some? {
      var i := Instrument(tk[1]).value;
      SubscribeKeeps(s, fd, i, on);
      RegistryConns(Subscribe(s, fd, i, on));
      ReplyOnce(s, Subscribe(s, fd, i, on), fd, OkMsg);
    }
  }

  lemma QuitOnce(s: State, fd: int)
    requires Registry(s) && Live(s, fd)
    ensures OneReply(s, fd, DrainAndClose(s, fd)) && OneReply(s, fd, s)
  {
    hide Registry, DrainAndClose, Flush;
    DrainAndCloseIsPut(s, fd);
    RegistryConns(s);
    ClosingOk(s.conns[fd], |s.published|);
  }

  /** A line gets one reply at most, and otherwise makes the server say nothing to anybody but the
      executions it causes. */
  lemma LineSaysOnce(s: State, fd: int, line: string)
    requires Registry(s) && Live(s, fd)
    ensures OneReply(s, fd, HandleLine(s, fd, line))
  {
    hide Registry, Tokens, Reply, DrainAndClose, CmdLogin, CmdOrder, CmdCancel, CmdSubscribe, OneReply;
    var tk := Tokens(line);
    TokensAreWords(line);
    QuitOnce(s, fd);
    if tk != [] {
      LoginOnce(s, fd, tk);
      FollowOnce(s, fd, tk, true);
      FollowOnce(s, fd, tk, false);
      OrderOnce(s, fd, tk, Buy);
      OrderOnce(s, fd, tk, Sell);
      CancelOnce(s, fd, tk);
      RepliesOnce(s, fd);
    }
  }

  // ------------------------------------------------------------------ line by line

  lemma LineTexts()
    ensures forall name :: Line(AskLogin(name)) == "LOGIN " + name
    ensures forall id :: Line(AskCancel(id)) == "CANCEL " + Decimal(id)
    ensures forall inst :: Line(AskFollow(inst, true)) == "SUBSCRIBE " + InstName(inst)
    ensures forall inst :: Line(AskFollow(inst, false)) == "UNSUBSCRIBE " + InstName(inst)
    ensures Line(AskQuit) == "QUIT"
  {
    hide Decimal, InstName;
    forall a: string, b: string
      ensures Join([a, b]) == a + " " + b
    {
      JoinTwo(a, b);
    }
    assert "LOGIN " == "LOGIN" + " " && "CANCEL " == "CANCEL" + " ";
    assert "SUBSCRIBE " == "SUBSCRIBE" + " " && "UNSUBSCRIBE " == "UNSUBSCRIBE" + " ";
    assert Join(["QUIT"]) == "QUIT" + [];
  }

  lemma JoinTwo(a: string, b: string)
    ensures Join([a, b]) == a + " " + b
  {
    assert [a, b][1..] == [b] && Join([b]) == b;
  }

  ghost function Reaction(s: State, fd: int, line: string): Option<string>
    requires fd in s.conns
  {
    TextOf(FirstReply(s, fd, HandleLine(s, fd, line)))
  }

  /** BUY and SELL: a live trader's line submits exactly the order it spells, and is answered with the
      id that the order is given. */
  lemma OrderLine(s: State, fd: int, side: Side, inst: Inst, qty: nat, price: nat)
    requires Registry(s) && LiveTrader(s, fd) && 1 <= qty <= 2147483647 && 1 <= price <= 2147483647
    ensures var line := Line(AskOrder(side, inst, qty, price));
            && line == (if side == Buy then "BUY" else "SELL")
                       + " " + InstName(inst) + " " + Decimal(qty) + " " + Decimal(price)
            && HandleLine(s, fd, line).reqs == s.reqs + [Submit(side, inst, qty, price, s.conns[fd].ownerId)]
            && Reaction(s, fd, line) == Some("ORDER_ACCEPTED " + Decimal(s.store.count % 0x1_0000_0000))
  {
    hide Registry, HandleLine, Tokens, FirstReply, Decimal, Spells, Join;
    var a := AskOrder(side, inst, qty, price);
    JoinFour(if side == Buy then "BUY" else "SELL", InstName(inst), Decimal(qty), Decimal(price));
    LineMeans(a);
    LineRequests(s, fd, Line(a), Submit(side, inst, qty, price, s.conns[fd].ownerId));
    LineAnswered(s, fd, Line(a));
    WordsDiffer(Tokens(Line(a))[0]);
  }

  /** LOGIN: a connection without a role becomes the trader of that name, and is told OK, if and only if
      no live trader goes by the name; otherwise it is told so, and nobody changes. */
  lemma LoginLine(s: State, fd: int, name: string)
    requires Registry(s) && Live(s, fd) && s.conns[fd].role == Unknown && IsWord(name)
    ensures var r := HandleLine(s, fd, "LOGIN " + name);
            && (r.conns[fd].role == Trader && r.conns[fd].username == name <==> !Taken(s, name))
            && (!Taken(s, name) ==> Reaction(s, fd, "LOGIN " + name) == Some("OK"))
            && (Taken(s, name) ==>
                  && Reaction(s, fd, "LOGIN " + name) == Some("ERROR " + "duplicate username")
                  && forall f :: f in s.conns ==> Unmoved(s.conns[f], r.conns[f]))
            && OnlyMoves(s, fd, r)
  {
    hide Registry, HandleLine, Tokens, FirstReply, Taken;
    var a := AskLogin(name);
    LineTexts();
    LineMeans(a);
    LineAnswered(s, fd, Line(a));
    LineMoves(s, fd, Line(a));
    WordsDiffer(Tokens(Line(a))[0]);
  }

  /** SUBSCRIBE and UNSUBSCRIBE: a connection that is no trader has the instrument turned on or off, and
      no other; it is told OK; and of the next trade it hears exactly if the trade's instrument
      is on. */
  lemma FollowLine(s: State, fd: int, inst: Inst, on: bool, t: Trade)
    requires Registry(s) && Live(s, fd) && s.conns[fd].role != Trader
    ensures var line := (if on then "SUBSCRIBE " else "UNSUBSCRIBE ") + InstName(inst);
            var c, r := s.conns[fd], HandleLine(s, fd, line);
            var subs := if on then c.subs + {inst} else c.subs - {inst};
            && r.conns[fd].subs == subs && r.conns[fd].role == MarketData
            && Reaction(s, fd, line) == Some("OK") && OnlyMoves(s, fd, r)
            && (Live(r, fd) && !c.closing ==>
                  Publish(r, t).conns[fd].wire.queued ==
                  r.conns[fd].wire.queued + if t.inst in subs then [Exec(TradeVerb, t.inst, t.qty, t.price)] else [])
  {
    hide Registry, HandleLine, Tokens, FirstReply, Taken, Publish;
    var a := AskFollow(inst, on);
    LineTexts();
    LineMeans(a);
    var c, r := s.conns[fd], HandleLine(s, fd, Line(a));
    LineAnswered(s, fd, Line(a));
    LineMoves(s, fd, Line(a));
    WordsDiffer(Tokens(Line(a))[0]);
    InstrumentIs(Tokens(Line(a))[1]);
    assert MayFollow(s, fd, Tokens(Line(a)), inst, on);
    HandleLineKeeps(s, fd, Line(a));
    HearsTrade(r, fd, t);
  }

  /** A market-data connection is told of a trade exactly if it has the instrument on and is neither
      closing nor dead. */
  lemma HearsTrade(s: State, fd: int, t: Trade)
    requires Registry(s) && fd in s.conns && s.conns[fd].role == MarketData
    ensures var c := s.conns[fd];
            Publish(s, t).conns[fd].wire.queued ==
            c.wire.queued
            + if t.inst in c.subs && !c.closing && !c.dead then [Exec(TradeVerb, t.inst, t.qty, t.price)] else []
  {
    hide Registry, Publish, QueueOut;
    RegistryConns(s);
    PublishEffect(s, t, fd);
    assert ConnOk(s.conns[fd]);
    QueueOutOk(s.conns[fd], TradeMsg(t));
  }

  /** CANCEL: a live trader's line is answered by who the order belongs to, and takes it out exactly if
      it is the trader's own. */
  lemma CancelLine(s: State, fd: int, w: nat)
    requires Registry(s) && LiveTrader(s, fd) && w <= 2147483647
    ensures var line := "CANCEL " + Decimal(w);
            var mine := w in s.store.orders && s.store.orders[w].owner == s.conns[fd].ownerId;
            && Reaction(s, fd, line) ==
               Some(if w !in s.store.orders then "ERROR " + "unknown order"
                    else if !mine then "ERROR " + "not your order"
                    else "ORDER_CANCELLED " + Decimal(w))
            && HandleLine(s, fd, line).store.orders == s.store.orders - (if mine then {w} else {})
  {
    hide Registry, HandleLine, Tokens, FirstReply, Decimal, Spells, Join, Delisted;
    var a, owner := AskCancel(w), s.conns[fd].ownerId;
    LineTexts();
    LineMeans(a);
    LineRequests(s, fd, Line(a), Cancel(w, owner));
    LineAnswered(s, fd, Line(a));
    WordsDiffer(Tokens(Line(a))[0]);
    NumberParses(Tokens(Line(a))[1], 0, 2147483647);
    LineTouchesExchangeOnce(s, fd, Line(a));
    var r := HandleLine(s, fd, Line(a));
    assert r.reqs != s.reqs;
    var op :| Permitted(s, fd, op) && Executed(s, r, op);
    LastSame(s.reqs, op, Cancel(w, owner));
  }

  /** QUIT: no reply; the connection is closing, or gone at once if nothing was pending. */
  lemma QuitLine(s: State, fd: int)
    requires Registry(s) && Live(s, fd)
    ensures var r := HandleLine(s, fd, "QUIT");
            && Reaction(s, fd, "QUIT") == None && OnlyMoves(s, fd, r)
            && r.conns[fd].closing && Flushed(Shut(s.conns[fd], |s.published|), s.conns[fd].out.Pending(), r.conns[fd])
  {
    hide Registry, HandleLine, Tokens, FirstReply, Flush, Flushed, DrainAndClose;
    LineTexts();
    LineMeans(AskQuit);
    LineAnswered(s, fd, "QUIT");
    LineMoves(s, fd, "QUIT");
    WordsDiffer(Tokens("QUIT")[0]);
    Dispatched(s, fd, "QUIT");
    DrainAndCloseIsPut(s, fd);
    RegistryConns(s);
    assert ConnOk(s.conns[fd]);
    FlushExactly(Shut(s.conns[fd], |s.published|));
  }

  /** A line that is too long: the connection is told so and is closing, or gone. */
  lemma LongLine(s: State, fd: int)
    requires Registry(s) && Live(s, fd)
    ensures var r := GiveUp(s, fd);
            && TextOf(FirstReply(s, fd, r)) == Some("ERROR " + "line too long")
            && r.conns[fd].closing && r.store == s.store
            && forall f :: f in s.conns && f != fd ==> r.conns[f] == s.conns[f]
  {
    hide Registry, Reply, DrainAndClose, Flush;
    var s1 := Reply(s, fd, ErrorMsg(LineTooLong));
    GiveUpKeeps(s, fd);
    RegistryConns(s);
    ReplyFirst(s, fd, ErrorMsg(LineTooLong));
    ReplyKeeps(s, fd, ErrorMsg(LineTooLong));
    ReplyExchange(s, fd, ErrorMsg(LineTooLong));
    DrainExchange(s1, fd);
    DrainAndCloseIsPut(s1, fd);
    RegistryConns(s1);
    assert ConnOk(s1.conns[fd]);
    ClosingOk(s1.conns[fd], |s1.published|);
  }
}
