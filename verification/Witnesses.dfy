/** Runs that reach the corner cases: an order whose id CANCEL does not take, a connection that is
    closing and still trades, and an id that is given out while it is still taken. */
module Witnesses {
  import opened Book
  import opened BookVolumes
  import opened BookOrders
  import opened ExchangeIndex
  import opened ExchangeStore
  import opened Protocol
  import opened Framing
  import opened ServerSpec
  import opened ServerRegistry
  import opened ServerExchange
  import opened ServerRun
  import opened ServerTheorems

  const FD := 5

  const LOGIN_LINE := "LOGIN a"
  const BUY_LINE := "BUY JNST 1 1"
  const QUIT_LINE := "QUIT"

  /** The connection sends one line. */
  function Says(l: string): Event
    requires |l| < RECV_SIZE
  {
    Readable(FD, false, [Data(l + "\n")])
  }

  // ------------------------------------------------------------------ one line, one batch

  lemma ReapNobody(m: Machine)
    requires m.core.dead == multiset{}
    ensures Reap(m) == m
  {
    var r := Reap(m);
    assert r.core.conns == m.core.conns && r.core.open == m.core.open && r.inbox == m.inbox;
    assert r.core.archive == m.core.archive;
  }

  lemma FirstLine(l: string)
    requires Plain(l)
    ensures NextLine(l + "\n") == (Ok(l), []) && NextLine([]) == (NeedMore, [])
  {
    assert l + "\n" == l + "\n" + [];
    Finished(l, []);
    Unfinished([]);
    assert (l + "\n")[..|l|] == l && (l + "\n")[|l| + 1..] == [];
  }

  lemma ReadOneLine(m: Machine, l: string)
    requires FD in m.core.conns && FD in m.inbox && m.inbox[FD].buf == [] && Plain(l) && |l| < RECV_SIZE
    ensures var r := ReadLoop(m, FD, false, [Data(l + "\n")]);
            r.core == HandleLine(m.core, FD, l) && r.inbox[FD].buf == []
  {
    hide HandleLine, NextLine, GiveUp;
    FirstLine(l);
    var box := m.inbox[FD].Append(l + "\n");
    assert box.buf == l + "\n";
    var m0 := m.(inbox := m.inbox[FD := box]);
    var m1 := Machine(HandleLine(m.core, FD, l), m0.inbox[FD := Inbox([], box.received, box.handed + [l])]);
    assert [Data(l + "\n")][1..] == [];
    assert DrainLines(m1, FD) == (m1, false);
  }

  lemma TurnOneLine(m: Machine, l: string)
    requires Boxed(m) && Live(m.core, FD) && m.inbox[FD].buf == [] && Plain(l) && |l| < RECV_SIZE
    requires HandleLine(m.core, FD, l).dead == multiset{}
    ensures var r := Turn(m, [Says(l)]);
            r.core == HandleLine(m.core, FD, l) && FD in r.inbox && r.inbox[FD].buf == []
  {
    hide HandleLine, ReadLoop, Reap;
    ReadOneLine(m, l);
    var r := ReadLoop(m, FD, false, [Data(l + "\n")]);
    assert [Says(l)][1..] == [];
    assert OnEvents(m, [Says(l)]) == OnEvents(r, []) == r;
    ReapNobody(r);
  }

  // ------------------------------------------------------------------ what the lines do

  lemma LoginTokens()
    ensures Tokens(LOGIN_LINE) == ["LOGIN", "a"] && Plain(LOGIN_LINE)
  {
    hide Tokens;
    var ws := ["LOGIN", "a"];
    assert ws[1..] == ["a"];
    SplitJoin(ws);
    assert Join(["a"]) == "a" && Join(ws) == "LOGIN" + (" " + "a") == LOGIN_LINE;
  }

  lemma BuyTokens()
    ensures Tokens(BUY_LINE) == ["BUY", "JNST", "1", "1"] && Plain(BUY_LINE)
  {
    hide Tokens;
    var ws := ["BUY", "JNST", "1", "1"];
    assert ws[1..] == ["JNST", "1", "1"] && ws[1..][1..] == ["1", "1"] && ws[1..][1..][1..] == ["1"];
    SplitJoin(ws);
    assert Join(["1"]) == "1" && Join(["1", "1"]) == "1" + (" " + "1");
    assert Join(["JNST", "1", "1"]) == "JNST" + (" " + ("1" + (" " + "1")));
    assert Join(ws) == "BUY" + (" " + ("JNST" + (" " + ("1" + (" " + "1"))))) == BUY_LINE;
  }

  lemma QuitTokens()
    ensures Tokens(QUIT_LINE) == ["QUIT"] && Plain(QUIT_LINE)
  {
    hide Tokens;
    SplitJoin(["QUIT"]);
    assert Join(["QUIT"]) == "QUIT";
  }

  lemma LoginDoes(s: State)
    requires FD in s.conns && s.conns[FD].role == Unknown && s.usernames == {}
    ensures HandleLine(s, FD, LOGIN_LINE) == Reply(LogIn(s, FD, "a"), FD, OkMsg)
  {
    hide Tokens, Reply, LogIn;
    LoginTokens();
  }

  /** The order of the BUY line. */
  function Bid(owner: int): Op {
    Submit(Buy, 0, 1, 1, owner)
  }

  lemma BuyDoes(s: State)
    requires FD in s.conns && s.conns[FD].role == Trader
    ensures HandleLine(s, FD, BUY_LINE) == PlaceOrder(s, FD, Bid(s.conns[FD].ownerId))
  {
    hide Tokens, Reply, PlaceOrder;
    BuyTokens();
    var tk := Tokens(BUY_LINE);
    assert "BUY"[0] == 'B' && "LOGIN"[0] == 'L';
    assert HandleLine(s, FD, BUY_LINE) == CmdOrder(s, FD, tk, Buy);
    assert Decimal(1) == "1";
    ParsePrint(1, MIN_VALUE, MAX_VALUE);
  }

  lemma QuitDoes(s: State)
    requires FD in s.conns
    ensures HandleLine(s, FD, QUIT_LINE) == DrainAndClose(s, FD)
  {
    hide Tokens, DrainAndClose;
    QuitTokens();
    assert "QUIT"[0] == 'Q' && "LOGIN"[0] == 'L' && "BUY"[0] == 'B' && "SELL"[0] == 'S' && "CANCEL"[0] == 'C';
    assert "SUBSCRIBE"[0] == 'S' && "UNSUBSCRIBE"[0] == 'U';
  }

  // ------------------------------------------------------------------ an order that cannot be cancelled

  /** A peer that takes in everything, `n` times. */
  function Script(n: nat): seq<SendResult> {
    seq(n, _ => Sent(MAX_OUT))
  }

  /** Nobody is dead, and the connection has nothing pending and `left` sends to come. */
  ghost predicate Idle(s: State, left: nat) {
    && Live(s, FD) && !s.conns[FD].closing && s.dead == multiset{}
    && s.conns[FD].out == OutBuf([], 0)
    && s.conns[FD].wire.script == Script(left)
  }

  lemma QueueOutIdle(c: Conn, m: Msg, left: nat)
    requires !c.dead && !c.closing && c.out == OutBuf([], 0) && c.wire.script == Script(left + 1)
    requires |Render(m)| <= MAX_OUT
    ensures var d := QueueOut(c, m);
            && !d.dead && !d.closing && d.out == OutBuf([], 0) && d.wire.script == Script(left)
            && d.role == c.role && d.ownerId == c.ownerId
  {
    hide Body;
    var c1 := Enqueue(c, m);
    assert c1.out.Pending() == Render(m);
    var c2 := c1.(wire := c1.wire.(script := c1.wire.script[1..]));
    assert c2.wire.script == Script(left);
    var c3 := Take(c2, |Render(m)|);
    assert c3.out == OutBuf([], 0) && c3.out.Pending() == [];
    assert Flush(c1) == Flush(c3);
  }

  lemma ReplyIdle(s: State, m: Msg, left: nat)
    requires Idle(s, left + 1) && |Render(m)| <= MAX_OUT
    ensures var r := Reply(s, FD, m);
            && Idle(r, left) && SameExchange(s, r)
            && r.conns[FD].role == s.conns[FD].role && r.conns[FD].ownerId == s.conns[FD].ownerId
  {
    hide QueueOut;
    QueueOutIdle(s.conns[FD], m, left);
    ReplyExchange(s, FD, m);
  }

  function Bids(k: nat, owner: int): seq<Order> {
    seq(k, i requires 0 <= i < k => Order(i, Buy, 0, 1, 1, owner))
  }

  /** The tables hold the bids with ids 0 to `k` - 1 of one owner. */
  ghost predicate Booked(st: Store, k: nat, owner: int) {
    && st.count == k
    && st.orders == (map i: nat | i < k :: Order(i, Buy, 0, 1, 1, owner))
    && QueueAt(st.books, Level(0, Sell, 1)) == []
  }

  lemma BidRests(st: Store, k: nat, owner: int)
    requires Booked(st, k, owner) && k < ID_SPACE
    ensures Booked(Perform(st, Bid(owner)).0, k + 1, owner)
    ensures OutcomeTrades(Perform(st, Bid(owner)).1) == []
  {
    var sw := Sweep(st.orders, st.books, Level(0, Sell, 1), 1);
    assert sw == Swept(st.orders, st.books, [], 1);
  }

  lemma ShortReply(id: nat)
    ensures |Render(OrderAccepted(WireId(id)))| <= MAX_OUT && |Render(OkMsg)| <= MAX_OUT
  {
    hide Decimal;
    ParsePrint(WireId(id), 0, ID_SPACE - 1);
  }

  /** The trader has `k` orders of its own resting, and can take `left` more replies. */
  ghost predicate Holding(s: State, k: nat, left: nat) {
    Idle(s, left) && s.conns[FD].role == Trader && Booked(s.store, k, s.conns[FD].ownerId)
  }

  lemma BuyHolding(s: State, k: nat, left: nat)
    requires Holding(s, k, left + 1) && k < ID_SPACE
    ensures Holding(HandleLine(s, FD, BUY_LINE), k + 1, left)
  {
    hide HandleLine, Reply, Booked, Perform, WireId;
    BuyDoes(s);
    var owner := s.conns[FD].ownerId;
    var s1, m := Execute(s, Bid(owner)), OrderAccepted(WireId(s.store.count));
    BidRests(s.store, k, owner);
    ShortReply(s.store.count);
    ReplyIdle(s1, m, left);
  }

  /** Accept, log in, and `k` orders, on a socket that takes `n + 1` replies. */
  function Buying(n: nat, k: nat): seq<seq<Event>> {
    [[Acceptable([Connected(FD, Script(n + 1))])], [Says(LOGIN_LINE)]] + seq(k, _ => [Says(BUY_LINE)])
  }

  /** The server with its first connection. */
  function Greeted(script: seq<SendResult>): Machine {
    AddConn(START, FD, script)
  }

  lemma AcceptTurn(script: seq<SendResult>)
    ensures RunServer([[Acceptable([Connected(FD, script)])]]) == Greeted(script)
  {
    hide Reap;
    var results := [Connected(FD, script)];
    assert results[1..] == [];
    assert OnAccept(START, results) == Greeted(script);
    var batch := [Acceptable(results)];
    assert batch[1..] == [];
    assert OnEvents(START, batch) == Greeted(script);
    ReapNobody(Greeted(script));
    assert [batch][..0] == [];
    assert RunServer([batch]) == Turn(START, batch);
  }

  lemma LastTurn(batches: seq<seq<Event>>, batch: seq<Event>)
    ensures RunServer(batches + [batch]) == Turn(RunServer(batches), batch)
  {
    assert (batches + [batch])[..|batches|] == batches;
  }

  lemma FreshHolding(script: seq<SendResult>)
    ensures var m := Greeted(script);
            && FD in m.inbox && Boxed(m) && Live(m.core, FD) && m.inbox[FD].buf == [] && m.core.dead == multiset{}
            && m.core.usernames == {} && m.core.conns[FD].role == Unknown
            && var s := LogIn(m.core, FD, "a");
               && Live(s, FD) && !s.conns[FD].closing && s.dead == multiset{}
               && s.conns[FD].out == OutBuf([], 0) && s.conns[FD].wire.script == script
               && s.conns[FD].role == Trader && Booked(s.store, 0, s.conns[FD].ownerId)
  {
  }

  lemma LoginHolding(n: nat)
    ensures var m := RunServer(Buying(n, 0));
            FD in m.inbox && Holding(m.core, 0, n) && m.inbox[FD].buf == []
  {
    hide HandleLine, Reply, RunServer, Turn, Greeted, LogIn, Booked, Script;
    var m := Greeted(Script(n + 1));
    AcceptTurn(Script(n + 1));
    FreshHolding(Script(n + 1));
    LoginDoes(m.core);
    LoginTokens();
    ShortReply(0);
    ReplyIdle(LogIn(m.core, FD, "a"), OkMsg, n);
    TurnOneLine(m, LOGIN_LINE);
    LastTurn([[Acceptable([Connected(FD, Script(n + 1))])]], [Says(LOGIN_LINE)]);
    assert Buying(n, 0) == [[Acceptable([Connected(FD, Script(n + 1))])]] + [[Says(LOGIN_LINE)]];
  }

  /** Any number of buys at one price, up to 2^32, all rest, with ids 0, 1, 2, ... */
  lemma {:induction false} BuysRest(n: nat, k: nat)
    requires k <= n <= ID_SPACE
    ensures var m := RunServer(Buying(n, k));
            FD in m.inbox && Holding(m.core, k, n - k) && m.inbox[FD].buf == []
  {
    hide HandleLine, RunServer, Turn;
    if k == 0 {
      LoginHolding(n);
    } else {
      BuysRest(n, k - 1);
      var m := RunServer(Buying(n, k - 1));
      BuyHolding(m.core, k - 1, n - k);
      BuyTokens();
      TurnOneLine(m, BUY_LINE);
      LastTurn(Buying(n, k - 1), [Says(BUY_LINE)]);
      assert Buying(n, k) == Buying(n, k - 1) + [[Says(BUY_LINE)]];
    }
  }

  /** After 2147483649 buys a live trader has an order of its own stored that its CANCEL line does
      not take out: it answers `bad order id` and the order stays. */
  lemma UncancellableOrder()
    ensures var s, w := RunServer(Buying(MAX_ORDER_ID + 2, MAX_ORDER_ID + 2)).core, MAX_ORDER_ID + 1;
            && LiveTrader(s, FD) && w in s.store.orders && s.store.orders[w].owner == s.conns[FD].ownerId
            && HandleLine(s, FD, "CANCEL " + Decimal(w)) == Reply(s, FD, ErrorMsg(BadOrderId))
            && HandleLine(s, FD, "CANCEL " + Decimal(w)).store == s.store
  {
    hide RunServer, HandleLine, Reply, Sound, Buying;
    var n := MAX_ORDER_ID + 2;
    BuysRest(n, n);
    RunInvariant(Buying(n, n));
    OwnOrderCancellable(RunServer(Buying(n, n)).core, FD, MAX_ORDER_ID + 1);
  }

  // ------------------------------------------------------------------ trading while closing

  /** Accept a client that reads nothing, log in, and quit. */
  const QUITTING: seq<seq<Event>> := [[Acceptable([Connected(FD, [])])], [Says(LOGIN_LINE)], [Says(QUIT_LINE)]]

  /** Nobody is dead, and the connection cannot be written to. */
  ghost predicate Stuck(s: State) {
    && Live(s, FD) && s.dead == multiset{}
    && s.conns[FD].wire.script == []
    && s.conns[FD].role == Trader
    && s.conns[FD].out.Pending() != []
  }

  lemma ReplyStuck(s: State)
    requires Live(s, FD) && s.dead == multiset{} && s.conns[FD].wire.script == [] && s.conns[FD].role == Trader
    requires s.conns[FD].out == OutBuf([], 0)
    ensures Stuck(Reply(s, FD, OkMsg)) && Reply(s, FD, OkMsg).reqs == s.reqs
  {
    var c1 := Enqueue(s.conns[FD], OkMsg);
    assert c1.out.Pending() == "OK" + "\n";
  }

  lemma LoginStuck()
    ensures var m := RunServer(QUITTING[..2]);
            FD in m.inbox && Stuck(m.core) && m.inbox[FD].buf == [] && m.core.reqs == []
  {
    hide RunServer, Turn, HandleLine, Reply;
    var m := Greeted([]);
    AcceptTurn([]);
    LoginDoes(m.core);
    LoginTokens();
    ReplyStuck(LogIn(m.core, FD, "a"));
    TurnOneLine(m, LOGIN_LINE);
    LastTurn([[Acceptable([Connected(FD, [])])]], [Says(LOGIN_LINE)]);
    assert QUITTING[..2] == [[Acceptable([Connected(FD, [])])]] + [[Says(LOGIN_LINE)]];
  }

  lemma QuitStuck()
    ensures var m := RunServer(QUITTING);
            FD in m.inbox && Stuck(m.core) && m.core.conns[FD].closing && m.inbox[FD].buf == [] && m.core.reqs == []
  {
    hide RunServer, Turn, HandleLine;
    var m := RunServer(QUITTING[..2]);
    LoginStuck();
    QuitDoes(m.core);
    QuitTokens();
    TurnOneLine(m, QUIT_LINE);
    LastTurn(QUITTING[..2], [Says(QUIT_LINE)]);
    assert QUITTING == QUITTING[..2] + [[Says(QUIT_LINE)]];
  }

  /** A client that has sent QUIT and reads nothing is closing, yet its next line is a trade like any
      other: the order is accepted and rests. */
  lemma QuitThenTrade()
    ensures var m := RunServer(QUITTING);
            && Live(m.core, FD) && m.core.conns[FD].closing && m.core.reqs == []
            && var owner, r := m.core.conns[FD].ownerId, OnEvents(m, [Says(BUY_LINE)]).core;
               r.reqs == [Bid(owner)] && r.store.orders == map[0 := Order(0, Buy, 0, 1, 1, owner)]
  {
    hide RunServer, HandleLine, PlaceOrder, ReadLoop, Sound, QUITTING, Perform;
    var m := RunServer(QUITTING);
    QuitStuck();
    RunInvariant(QUITTING);
    assert m.core.store == NO_ORDERS by { SoundStore(m.core); }
    BuyTokens();
    ReadOneLine(m, BUY_LINE);
    BuyDoes(m.core);
    var owner := m.core.conns[FD].ownerId;
    PlaceOrderExchange(m.core, FD, Bid(owner));
    BidRests(NO_ORDERS, 0, owner);
    assert [Says(BUY_LINE)][1..] == [];
    assert OnEvents(m, [Says(BUY_LINE)]) == OnEvent(m, Says(BUY_LINE));
    OneBooked(Perform(NO_ORDERS, Bid(owner)).0, owner);
  }

  lemma OneBooked(st: Store, owner: int)
    requires Booked(st, 1, owner)
    ensures st.orders == map[0 := Order(0, Buy, 0, 1, 1, owner)]
  {
  }

  lemma SoundStore(s: State)
    requires Sound(s) && s.reqs == []
    ensures s.store == NO_ORDERS
  {
  }

  // ------------------------------------------------------------------ a buffer without bound

  function Newlines(n: nat): string {
    seq(n, _ => '\n')
  }

  /** A readable event that brings as many empty lines as one `recv` can. */
  function Flood(): Event {
    Readable(FD, false, [Data(Newlines(RECV_SIZE))])
  }

  function Hoarding(k: nat): seq<seq<Event>> {
    QUITTING + seq(k, _ => [Flood()])
  }

  lemma FirstNewline(n: nat)
    requires n > 0
    ensures NextLine(Newlines(n)) == (Ok([]), Newlines(n - 1))
  {
    BreakIs(Newlines(n), 0);
    assert Newlines(n)[1..] == Newlines(n - 1) && Newlines(n)[..0] == [];
  }

  /** One of the lines is handled, and does nothing; the others stay in the buffer. */
  lemma FloodTurn(m: Machine, n: nat)
    requires Boxed(m) && Stuck(m.core) && m.core.conns[FD].closing && m.inbox[FD].buf == Newlines(n)
    ensures var r := Turn(m, [Flood()]);
            r.core == m.core && FD in r.inbox && r.inbox[FD].buf == Newlines(n + RECV_SIZE - 1)
  {
    hide HandleLine, NextLine, Reap, GiveUp;
    var box := m.inbox[FD].Append(Newlines(RECV_SIZE));
    assert box.buf == Newlines(n + RECV_SIZE);
    FirstNewline(n + RECV_SIZE);
    BlankLine(m.core);
    var m0 := m.(inbox := m.inbox[FD := box]);
    var m1 := Machine(m.core, m0.inbox[FD := Inbox(Newlines(n + RECV_SIZE - 1), box.received, box.handed + [[]])]);
    assert DrainLines(m0, FD) == (m1, true);
    assert ReadLoop(m, FD, false, [Data(Newlines(RECV_SIZE))]) == m1;
    assert [Flood()][1..] == [];
    assert OnEvents(m, [Flood()]) == OnEvents(m1, []) == m1;
    ReapNobody(m1);
  }

  lemma BlankLine(s: State)
    requires FD in s.conns
    ensures HandleLine(s, FD, []) == s
  {
    TokensEmpty();
  }

  lemma {:induction false} Hoards(k: nat)
    ensures var m := RunServer(Hoarding(k));
            && FD in m.inbox && Stuck(m.core) && m.core.conns[FD].closing
            && m.inbox[FD].buf == Newlines(k * (RECV_SIZE - 1))
  {
    hide RunServer, Turn, Stuck;
    if k == 0 {
      QuitStuck();
      assert Hoarding(0) == QUITTING;
    } else {
      Hoards(k - 1);
      FloodTurn(RunServer(Hoarding(k - 1)), (k - 1) * (RECV_SIZE - 1));
      LastTurn(Hoarding(k - 1), [Flood()]);
      assert Hoarding(k) == Hoarding(k - 1) + [[Flood()]];
    }
  }

  /** The bound on input buffers ends with QUIT: for every `n` there is a run after which a closing
      connection has more than `n` bytes buffered. */
  lemma ClosingBufferUnbounded(n: nat)
    ensures var m := RunServer(Hoarding(n + 1));
            FD in m.inbox && Live(m.core, FD) && m.core.conns[FD].closing && |m.inbox[FD].buf| > n
  {
    hide RunServer;
    Hoards(n + 1);
  }

  // ------------------------------------------------------------------ an id given out twice

  /** Two orders that stay, and `j` pairs of orders that trade with each other. */
  function WrapOps(j: nat): (ops: seq<Op>)
    ensures forall i :: 0 <= i < |ops| ==> ops[i].Submit?
  {
    if j == 0 then [Bid(1), Bid(1)]
    else WrapOps(j - 1) + [Submit(Buy, 0, 1, 2, 1)] + [Submit(Sell, 0, 1, 2, 1)]
  }

  lemma {:induction false} MatchNothing(resting: seq<Order>, lv: Level, qty: nat)
    requires Clear(resting, lv)
    ensures Match(resting, lv, qty) == Matched(resting, [], qty)
  {
    if qty != 0 && resting != [] {
      MatchNothing(resting[1..], lv, qty);
      assert resting == [resting[0]] + resting[1..];
    }
  }

  lemma PairTrades(id: nat)
    ensures var b := Book(Bids(2, 1), id);
            var b1 := Step(b, Submit(Buy, 0, 1, 2, 1)).0;
            Step(b1, Submit(Sell, 0, 1, 2, 1)).0 == Book(Bids(2, 1), id + 2)
  {
    var a, x := Bids(2, 1), Order(id, Buy, 0, 2, 1, 1);
    MatchNothing(a, Level(0, Sell, 2), 1);
    assert (a + [x])[1..] == a[1..] + [x] && (a[1..] + [x])[1..] == [x] && [x][1..] == [];
    assert Match([x], Level(0, Buy, 2), 1).rest == [];
    assert Match(a[1..] + [x], Level(0, Buy, 2), 1).rest == a[1..];
    assert Match(a + [x], Level(0, Buy, 2), 1).rest == a;
  }

  lemma StartBook()
    ensures Run(WrapOps(0)).book == Book(Bids(2, 1), 2)
  {
    MatchNothing([], Level(0, Sell, 1), 1);
    MatchNothing(Bids(1, 1), Level(0, Sell, 1), 1);
    assert Step(Book([], 0), Bid(1)).0 == Book(Bids(1, 1), 1);
    assert Step(Book(Bids(1, 1), 1), Bid(1)).0 == Book(Bids(2, 1), 2);
    RunSnoc([], Bid(1));
    RunSnoc([Bid(1)], Bid(1));
    assert [] + [Bid(1)] == [Bid(1)] && [Bid(1)] + [Bid(1)] == WrapOps(0);
  }

  lemma {:induction false} WrapBook(j: nat)
    ensures Run(WrapOps(j)).book == Book(Bids(2, 1), 2 + 2 * j)
  {
    hide Step, Run, Bids, Trades;
    if j == 0 {
      StartBook();
    } else {
      WrapBook(j - 1);
      var ops := WrapOps(j - 1);
      RunSnoc(ops, Submit(Buy, 0, 1, 2, 1));
      RunSnoc(ops + [Submit(Buy, 0, 1, 2, 1)], Submit(Sell, 0, 1, 2, 1));
      PairTrades(2 * j);
    }
  }

  /** 2^32 accepted orders, of which the first two still rest, and never a clash; the next one is
      given the id of the first, and clashes: its remainder is stored nowhere. */
  lemma WrapHappens(op: Op)
    requires op.Submit? && op.side == Buy && op.qty > 0
    ensures var reqs := WrapOps(0x7FFF_FFFF);
            var st, b := Performed(reqs).store, Run(reqs).book;
            && ClashFree(reqs) && Agrees(st, b) && b.nextId == ID_SPACE
            && Clashes(b, op) && Step(b, op).1.left == op.qty
            && LosesRemainder(Perform(st, op).0, b, op)
  {
    hide WrapOps, Run, Performed, Bids, ClashFree, Agrees, DistinctWire, LosesRemainder, Meant, Submits;
    var reqs := WrapOps(0x7FFF_FFFF);
    WrapBook(0x7FFF_FFFF);
    IdsCount(reqs);
    EarlyRuns(reqs);
    RunAgrees(reqs);
    RunGood(reqs);
    var st, b := Performed(reqs).store, Run(reqs).book;
    BidsOneSided(op);
    ClashExactly(b, op);
    SubmitAgrees(st, b, op);
  }

  lemma BidsOneSided(op: Op)
    requires op.Submit? && op.side == Buy && op.qty > 0
    ensures Clashes(Book(Bids(2, 1), ID_SPACE), op)
    ensures Step(Book(Bids(2, 1), ID_SPACE), op).1.left == op.qty
  {
    var opp := Level(op.inst, op.side, op.price).Opposite();
    MatchNothing(Bids(2, 1), opp, op.qty);
    DepthClear(Bids(2, 1), opp, Anyone);
    var p := Bids(2, 1)[0];
    assert p in Bids(2, 1) && p.At() != opp && WireId(p.id) == WireId(ID_SPACE);
  }
}
