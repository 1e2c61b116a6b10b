/** What the server of src/server.cpp computes, as functions on its state.

    The kernel is an oracle.  Every connection carries the results that `send` will give on it; a
    readable event carries the results of the `recv` calls it leads to; an accept event carries
    the results of `accept`.  Results are arbitrary, except for what the kernel itself
    guarantees.  A used-up list of results means that the call would block.

    The class `Server` in Server.dfy runs the same handlers as loops over mutable fields and is
    proved to compute these functions.
 */
module ServerSpec {
  import opened Book
  import opened ExchangeStore
  import opened Protocol
  import opened Framing

  /** The most a connection may have pending: 8 MiB. */
  const MAX_OUT := 8 * 1024 * 1024

  datatype Role = Unknown | Trader | MarketData

  /** `n` bytes taken (0 is an error to the server), EINTR, EAGAIN, or an error. */
  datatype SendResult = Sent(n: nat) | SendInterrupted | SendBlocked | SendFailed

  /** From the `at`-th published trade on, the connection listens to the instruments `subs`. */
  datatype Mark = Mark(at: nat, subs: set<Inst>)

  /** The socket behind a connection: the coming results of `send`, the bytes the kernel has taken,
      and as history the messages queued to it, whether it was closed with nothing pending, and
      when it started and stopped listening to which instruments. */
  datatype Wire = Wire(script: seq<SendResult>, sent: string, queued: seq<Msg>, drained: bool, marks: seq<Mark>)

  datatype Conn = Conn(fd: int, ownerId: int, role: Role, username: string, subs: set<Inst>, out: OutBuf,
                       writeEnabled: bool, closing: bool, dead: bool, wire: Wire)

  function NewConn(fd: int, ownerId: int, script: seq<SendResult>): Conn {
    Conn(fd, ownerId, Unknown, [], {}, OutBuf([], 0), false, false, false, Wire(script, [], [], false, []))
  }

  // ------------------------------------------------------------------ one connection

  /** How much of `len` pending bytes a `send` that reports `n` has taken. */
  function Accepts(n: nat, len: nat): nat {
    if n < len then n else len
  }

  /** The kernel took `n` bytes. */
  function Take(c: Conn, n: nat): Conn
    requires n <= |c.out.Pending()|
  {
    c.(out := c.out.Consume(n), wire := c.wire.(sent := c.wire.sent + c.out.Pending()[..n]))
  }

  /** `try_flush`. */
  function Flush(c: Conn): Conn
    decreases |c.wire.script|
  {
    if c.dead then c
    else if c.out.Pending() == [] then
      c.(writeEnabled := false, dead := c.closing, wire := c.wire.(drained := c.closing))
    else if c.wire.script == [] then c.(writeEnabled := true)
    else
      var c1 := c.(wire := c.wire.(script := c.wire.script[1..]));
      match c.wire.script[0]
      case Sent(n) => if n > 0 then Flush(Take(c1, Accepts(n, |c1.out.Pending()|))) else c1.(dead := true)
      case SendInterrupted => Flush(c1)
      case SendBlocked => c1.(writeEnabled := true)
      case SendFailed => c1.(dead := true)
  }

  /** The message enters the queue. */
  function Enqueue(c: Conn, m: Msg): Conn {
    c.(out := c.out.Push(Render(m)), wire := c.wire.(queued := c.wire.queued + [m]))
  }

  /** `queue_out`. */
  function QueueOut(c: Conn, m: Msg): Conn {
    if c.dead then c
    else
      var c1 := Enqueue(c, m);
      if |c1.out.Pending()| > MAX_OUT then c1.(out := OutBuf([], 0), dead := true) else Flush(c1)
  }

  // ------------------------------------------------------------------ the server state

  /** `dead` is the list of descriptors waiting to be closed, without its order.  `open` is the
      kernel's table of connected descriptors.  History: the requests made to the exchange, the
      trades published, and the connections that have been closed. */
  datatype State = State(conns: map<int, Conn>, ownerFd: map<int, int>, usernames: set<string>, dead: multiset<int>,
                         nextOwner: int, open: set<int>, store: Store, reqs: seq<Op>, published: seq<Trade>,
                         archive: set<Conn>)

  const EMPTY := State(map[], map[], {}, multiset{}, 1, {}, NO_ORDERS, [], [], {})

  predicate Live(s: State, fd: int) {
    fd in s.conns && !s.conns[fd].dead
  }

  /** Stores connection `c`; if it has just died, releases its names as `close_conn` does. */
  function Put(s: State, fd: int, c: Conn): (r: State)
    requires fd in s.conns
    ensures r.conns == s.conns[fd := c] && r.conns.Keys == s.conns.Keys
  {
    var s1 := s.(conns := s.conns[fd := c]);
    if c.dead && !s.conns[fd].dead then
      s1.(usernames := if c.username != [] then s.usernames - {c.username} else s.usernames,
          ownerFd := s.ownerFd - {c.ownerId},
          dead := s.dead + multiset{fd})
    else s1
  }

  function Reply(s: State, fd: int, m: Msg): (r: State)
    requires fd in s.conns
    ensures r.conns.Keys == s.conns.Keys
  {
    Put(s, fd, QueueOut(s.conns[fd], m))
  }

  function Close(s: State, fd: int): (r: State)
    requires fd in s.conns
    ensures r.conns.Keys == s.conns.Keys
  {
    if s.conns[fd].dead then s else Put(s, fd, s.conns[fd].(dead := true))
  }

  function FlushAt(s: State, fd: int): (r: State)
    requires fd in s.conns
    ensures r.conns.Keys == s.conns.Keys
  {
    Put(s, fd, Flush(s.conns[fd]))
  }

  // ------------------------------------------------------------------ publishing

  /** BOUGHT or SOLD to a trader, if it is still connected. */
  function Notify(s: State, owner: int, m: Msg): (r: State)
    ensures r.conns.Keys == s.conns.Keys
  {
    if owner in s.ownerFd && Live(s, s.ownerFd[owner]) then Reply(s, s.ownerFd[owner], m) else s
  }

  predicate Subscriber(c: Conn, inst: Inst) {
    c.role == MarketData && inst in c.subs && !c.closing && !c.dead
  }

  /** What the publish loop does to one connection. */
  function Tell(c: Conn, t: Trade): Conn {
    if Subscriber(c, t.inst) then QueueOut(c, Exec(TradeVerb, t.inst, t.qty, t.price)) else c
  }

  /** The connections of `fds` that die on being told. */
  function Fallen(s: State, t: Trade, fds: set<int>): set<int> {
    set fd | fd in s.conns && fd in fds && !s.conns[fd].dead && Tell(s.conns[fd], t).dead
  }

  /** The publish loop after it has visited `fds`, in whatever order. */
  function Broadcast(s: State, t: Trade, fds: set<int>): (r: State)
    ensures r.conns.Keys == s.conns.Keys
  {
    var fallen := Fallen(s, t, fds);
    s.(conns := (map fd | fd in s.conns :: if fd in fds then Tell(s.conns[fd], t) else s.conns[fd]),
       usernames := s.usernames
                    - (set fd | fd in fallen && Tell(s.conns[fd], t).username != [] :: Tell(s.conns[fd], t).username),
       ownerFd := s.ownerFd - (set fd | fd in fallen :: Tell(s.conns[fd], t).ownerId),
       dead := s.dead + multiset(fallen))
  }

  function Publish(s: State, t: Trade): (r: State)
    ensures r.conns.Keys == s.conns.Keys
  {
    var s1 := Notify(s, t.buyer, Exec(Bought, t.inst, t.qty, t.price));
    var s2 := Notify(s1, t.seller, Exec(Sold, t.inst, t.qty, t.price));
    Broadcast(s2, t, s2.conns.Keys).(published := s.published + [t])
  }

  function PublishAll(s: State, trades: seq<Trade>): (r: State)
    ensures r.conns.Keys == s.conns.Keys
    decreases |trades|
  {
    if trades == [] then s else PublishAll(Publish(s, trades[0]), trades[1..])
  }

  // ------------------------------------------------------------------ commands

  function CmdLogin(s: State, fd: int, tk: seq<string>): (r: State)
    requires fd in s.conns
    ensures r.conns.Keys == s.conns.Keys
  {
    var c := s.conns[fd];
    if |tk| != 2 then Reply(s, fd, ErrorMsg(BadArguments))
    else if c.role == MarketData then Reply(s, fd, ErrorMsg(NotPermitted))
    else if c.role == Trader then Reply(s, fd, ErrorMsg(AlreadyLoggedIn))
    else if tk[1] in s.usernames then Reply(s, fd, ErrorMsg(DuplicateUsername))
    else Reply(LogIn(s, fd, tk[1]), fd, OkMsg)
  }

  function LogIn(s: State, fd: int, name: string): (r: State)
    requires fd in s.conns
    ensures r.conns.Keys == s.conns.Keys
  {
    var c := s.conns[fd];
    s.(conns := s.conns[fd := c.(role := Trader, username := name)],
       usernames := s.usernames + {name},
       ownerFd := s.ownerFd[c.ownerId := c.fd])
  }

  function CmdOrder(s: State, fd: int, tk: seq<string>, side: Side): (r: State)
    requires fd in s.conns
    ensures r.conns.Keys == s.conns.Keys
  {
    var c := s.conns[fd];
    if c.role == MarketData then Reply(s, fd, ErrorMsg(NotPermitted))
    else if c.role == Unknown then Reply(s, fd, ErrorMsg(NotLoggedIn))
    else if |tk| != 4 then Reply(s, fd, ErrorMsg(BadArguments))
    else if Instrument(tk[1]).None? then Reply(s, fd, ErrorMsg(UnknownInstrument))
    else if Parsed(tk[2], MIN_VALUE, MAX_VALUE).None? then Reply(s, fd, ErrorMsg(BadQuantity))
    else if Parsed(tk[3], MIN_VALUE, MAX_VALUE).None? then Reply(s, fd, ErrorMsg(BadPrice))
    else
      PlaceOrder(s, fd, Submit(side, Instrument(tk[1]).value, Parsed(tk[2], MIN_VALUE, MAX_VALUE).value,
                               Parsed(tk[3], MIN_VALUE, MAX_VALUE).value, c.ownerId))
  }

  /** The exchange carries out `op`. */
  function Execute(s: State, op: Op): State {
    s.(store := Perform(s.store, op).0, reqs := s.reqs + [op])
  }

  /** ORDER_ACCEPTED first, then the trades. */
  function PlaceOrder(s: State, fd: int, op: Op): (r: State)
    requires fd in s.conns && op.Submit?
    ensures r.conns.Keys == s.conns.Keys
  {
    PublishAll(Reply(Execute(s, op), fd, OrderAccepted(WireId(s.store.count))), OutcomeTrades(Perform(s.store, op).1))
  }

  function CmdCancel(s: State, fd: int, tk: seq<string>): (r: State)
    requires fd in s.conns
    ensures r.conns.Keys == s.conns.Keys
  {
    var c := s.conns[fd];
    if c.role == MarketData then Reply(s, fd, ErrorMsg(NotPermitted))
    else if c.role == Unknown then Reply(s, fd, ErrorMsg(NotLoggedIn))
    else if |tk| != 2 then Reply(s, fd, ErrorMsg(BadArguments))
    else if Parsed(tk[1], 0, MAX_ORDER_ID).None? then Reply(s, fd, ErrorMsg(BadOrderId))
    else CancelOrder(s, fd, Parsed(tk[1], 0, MAX_ORDER_ID).value)
  }

  function CancelReply(id: nat, outcome: Outcome): Msg {
    match outcome
    case Refused(UnknownOrder) => ErrorMsg(NoSuchOrder)
    case Refused(NotYourOrder) => ErrorMsg(ForeignOrder)
    case _ => OrderCancelled(id)
  }

  /** The connection's owner cancels the order with 32-bit id `w`. */
  function CancelOrder(s: State, fd: int, w: nat): (r: State)
    requires fd in s.conns
    ensures r.conns.Keys == s.conns.Keys
  {
    var op := Cancel(w, s.conns[fd].ownerId);
    Reply(Execute(s, op), fd, CancelReply(w, Perform(s.store, op).1))
  }

  function CmdSubscribe(s: State, fd: int, tk: seq<string>, on: bool): (r: State)
    requires fd in s.conns
    ensures r.conns.Keys == s.conns.Keys
  {
    var c := s.conns[fd];
    if c.role == Trader then Reply(s, fd, ErrorMsg(NotPermitted))
    else if |tk| != 2 then Reply(s, fd, ErrorMsg(BadArguments))
    else if Instrument(tk[1]).None? then Reply(s, fd, ErrorMsg(UnknownInstrument))
    else Reply(Subscribe(s, fd, Instrument(tk[1]).value, on), fd, OkMsg)
  }

  function Subscribe(s: State, fd: int, inst: Inst, on: bool): (r: State)
    requires fd in s.conns
    ensures r.conns.Keys == s.conns.Keys
  {
    s.(conns := s.conns[fd := Listen(s.conns[fd], inst, on, |s.published|)])
  }

  function Listen(c: Conn, inst: Inst, on: bool, at: nat): Conn {
    var subs := if on then c.subs + {inst} else c.subs - {inst};
    c.(role := MarketData, subs := subs,
       wire := c.wire.(marks := c.wire.marks + [Mark(at, if c.closing then {} else subs)]))
  }

  /** Marks the connection as closing and flushes: it goes as soon as nothing is pending. */
  function DrainAndClose(s: State, fd: int): (r: State)
    requires fd in s.conns
    ensures r.conns.Keys == s.conns.Keys
  {
    FlushAt(s.(conns := s.conns[fd := Shut(s.conns[fd], |s.published|)]), fd)
  }

  /** A closing connection is not told about trades any more. */
  function Shut(c: Conn, at: nat): Conn {
    c.(closing := true, wire := c.wire.(marks := c.wire.marks + [Mark(at, {})]))
  }

  /** The reply to a line that is too long, and the close that follows it. */
  function GiveUp(s: State, fd: int): (r: State)
    requires fd in s.conns
    ensures r.conns.Keys == s.conns.Keys
  {
    DrainAndClose(Reply(s, fd, ErrorMsg(LineTooLong)), fd)
  }

  /** `handle_line`. */
  function HandleLine(s: State, fd: int, line: string): (r: State)
    requires fd in s.conns
    ensures r.conns.Keys == s.conns.Keys
  {
    var tk := Tokens(line);
    if tk == [] then s
    else if tk[0] == "LOGIN" then CmdLogin(s, fd, tk)
    else if tk[0] == "BUY" then CmdOrder(s, fd, tk, Buy)
    else if tk[0] == "SELL" then CmdOrder(s, fd, tk, Sell)
    else if tk[0] == "CANCEL" then CmdCancel(s, fd, tk)
    else if tk[0] == "SUBSCRIBE" then CmdSubscribe(s, fd, tk, true)
    else if tk[0] == "UNSUBSCRIBE" then CmdSubscribe(s, fd, tk, false)
    else if tk[0] == "QUIT" then DrainAndClose(s, fd)
    else Reply(s, fd, ErrorMsg(UnknownCommand))
  }

  // ------------------------------------------------------------------ events

  /** What one `recv` may deliver. */
  type Chunk = s: string | 1 <= |s| <= RECV_SIZE witness "x"

  datatype RecvResult = Data(bytes: Chunk) | Eof | RecvInterrupted | RecvBlocked | RecvFailed

  /** A new descriptor with the script of its socket, a call to repeat, or the end of the backlog. */
  datatype AcceptResult = Connected(fd: int, script: seq<SendResult>) | AcceptRetry | AcceptStop

  datatype Event =
    | Acceptable(results: seq<AcceptResult>)
    | Readable(fd: int, eof: bool, recvs: seq<RecvResult>)
    | Writable(fd: int)

  /** The input side of a connection: the buffer, and as history all bytes received and all lines
      handed to `handle_line`. */
  datatype Inbox = Inbox(buf: string, received: string, handed: seq<string>) {
    function Append(bytes: string): Inbox {
      Inbox(buf + bytes, received + bytes, handed)
    }
  }

  /** The server with the input side of every connection, which only the read loop touches. */
  datatype Machine = Machine(core: State, inbox: map<int, Inbox>)

  ghost predicate Boxed(m: Machine) {
    m.inbox.Keys == m.core.conns.Keys
  }

  /** The line loop of `on_readable`: the machine, and whether the read loop must stop. */
  function DrainLines(m: Machine, fd: int): (r: (Machine, bool))
    requires fd in m.core.conns && fd in m.inbox
    ensures r.0.core.conns.Keys == m.core.conns.Keys && r.0.inbox.Keys == m.inbox.Keys
    decreases |m.inbox[fd].buf|
  {
    var box := m.inbox[fd];
    var (st, rest) := NextLine(box.buf);
    match st
    case NeedMore => (m, false)
    case TooLong => (m.(core := GiveUp(m.core, fd)), true)
    case Ok(line) =>
      var m1 := Machine(HandleLine(m.core, fd, line), m.inbox[fd := Inbox(rest, box.received, box.handed + [line])]);
      var c := m1.core.conns[fd];
      if c.dead || c.closing then (m1, true) else DrainLines(m1, fd)
  }

  function ReadLoop(m: Machine, fd: int, eof: bool, recvs: seq<RecvResult>): (r: Machine)
    requires fd in m.core.conns && fd in m.inbox
    ensures r.core.conns.Keys == m.core.conns.Keys && r.inbox.Keys == m.inbox.Keys
    decreases |recvs|
  {
    if recvs == [] then
      if eof then m.(core := Close(m.core, fd)) else m
    else
      match recvs[0]
      case Data(bytes) =>
        var (m1, stop) := DrainLines(m.(inbox := m.inbox[fd := m.inbox[fd].Append(bytes)]), fd);
        if stop then m1 else ReadLoop(m1, fd, eof, recvs[1..])
      case RecvInterrupted => ReadLoop(m, fd, eof, recvs[1..])
      case RecvBlocked => if eof then m.(core := Close(m.core, fd)) else m
      case _ => m.(core := Close(m.core, fd))
  }

  function OnReadable(m: Machine, fd: int, eof: bool, recvs: seq<RecvResult>): (r: Machine)
    requires Boxed(m)
    ensures r.core.conns.Keys == m.core.conns.Keys && r.inbox.Keys == m.inbox.Keys
  {
    if Live(m.core, fd) then ReadLoop(m, fd, eof, recvs) else m
  }

  function OnWritable(m: Machine, fd: int): (r: Machine)
    ensures r.core.conns.Keys == m.core.conns.Keys && r.inbox == m.inbox
  {
    if Live(m.core, fd) then m.(core := FlushAt(m.core, fd)) else m
  }

  /** A connection for a new descriptor; `emplace` leaves an entry that is already there alone. */
  function AddConn(m: Machine, fd: int, script: seq<SendResult>): Machine {
    var s := m.core;
    var isNew := fd !in s.conns;
    Machine(s.(conns := if isNew then s.conns[fd := NewConn(fd, s.nextOwner, script)] else s.conns,
               nextOwner := s.nextOwner + 1,
               open := s.open + {fd}),
            if isNew then m.inbox[fd := Inbox([], [], [])] else m.inbox)
  }

  function OnAccept(m: Machine, results: seq<AcceptResult>): (r: Machine)
    ensures Boxed(m) ==> Boxed(r)
    decreases |results|
  {
    if results == [] then m
    else
      match results[0]
      case AcceptStop => m
      case AcceptRetry => OnAccept(m, results[1..])
      case Connected(fd, script) =>
        // the kernel does not hand out a descriptor that is still open
        if fd in m.core.open then m else OnAccept(AddConn(m, fd, script), results[1..])
  }

  function OnEvent(m: Machine, ev: Event): (r: Machine)
    requires Boxed(m)
    ensures Boxed(r)
  {
    match ev
    case Acceptable(results) => OnAccept(m, results)
    case Readable(fd, eof, recvs) => OnReadable(m, fd, eof, recvs)
    case Writable(fd) => OnWritable(m, fd)
  }

  function OnEvents(m: Machine, evs: seq<Event>): (r: Machine)
    requires Boxed(m)
    ensures Boxed(r)
    decreases |evs|
  {
    if evs == [] then m else OnEvents(OnEvent(m, evs[0]), evs[1..])
  }

  /** Closes and forgets the connections whose descriptors are in `dead`. */
  function Reap(m: Machine): (r: Machine)
    ensures Boxed(m) ==> Boxed(r)
  {
    var s := m.core;
    Machine(s.(conns := (map fd | fd in s.conns && fd !in s.dead :: s.conns[fd]),
               open := (set fd | fd in s.open && fd !in s.dead),
               archive := s.archive + (set fd | fd in s.conns && fd in s.dead :: s.conns[fd]),
               dead := multiset{}),
            map fd | fd in m.inbox && fd !in s.dead :: m.inbox[fd])
  }

  /** One turn of the event loop: a batch of events, then `reap`. */
  function Turn(m: Machine, batch: seq<Event>): (r: Machine)
    requires Boxed(m)
    ensures Boxed(r)
  {
    Reap(OnEvents(m, batch))
  }

  const START := Machine(EMPTY, map[])

  /** A whole run of the server. */
  function RunServer(batches: seq<seq<Event>>): (m: Machine)
    ensures Boxed(m)
  {
    if batches == [] then START
    else Turn(RunServer(batches[..|batches| - 1]), batches[|batches| - 1])
  }
}
