/** The server of src/server.cpp as a class: mutable tables, in-place updates and loops, each method
    proved to compute the corresponding function of ServerSpec.dfy. */
module ServerClass {
  import opened Wrappers
  import opened Book
  import opened ExchangeStore
  import opened Protocol
  import opened Framing
  import opened ServerSpec
  import opened ServerRegistry
  import opened ServerRun
  import opened ExchangeClass

  /** The instrument table of the protocol, scanned in order. */
  method InstrumentIndex(s: string) returns (r: Option<Inst>)
    ensures r == Instrument(s)
  {
    for i := 0 to 2
      invariant forall j: Inst :: j < i ==> s != InstName(j)
    {
      if s == InstName(i) {
        return Some(i);
      }
    }
    return None;
  }

  class Server {
    var conns: map<int, Conn>
    var ownerFd: map<int, int>
    var usernames: set<string>
    var dead: seq<int>
    var nextOwner: int
    var inbox: map<int, Inbox>
    const exch: Exchange

    /** The kernel's table of connected descriptors. */
    var open: set<int>

    /** The history of trades. */
    var published: seq<Trade>

    ghost var reqs: seq<Op>
    ghost var archive: set<Conn>

    ghost function Core(): State
      reads this, exch
    {
      State(conns, ownerFd, usernames, multiset(dead), nextOwner, open, exch.store, reqs, published, archive)
    }

    ghost function Whole(): Machine
      reads this, exch
    {
      Machine(Core(), inbox)
    }

    constructor ()
      ensures exch.Valid() && Whole() == START && fresh(exch)
    {
      conns, ownerFd, usernames, dead, nextOwner, inbox := map[], map[], {}, [], 1, map[];
      open, published, reqs, archive := {}, [], [], {};
      exch := new Exchange();
    }

    // ---------------------------------------------------------------- writing

    /** Marks the connection dead and releases its names now; the descriptor is closed in `Reap`. */
    method CloseConn(fd: int)
      requires fd in conns
      modifies this
      ensures Core() == Close(old(Core()), fd) && inbox == old(inbox)
    {
      var c := conns[fd];
      if c.dead {
        return;
      }
      conns := conns[fd := c.(dead := true)];
      if c.username != [] {
        usernames := usernames - {c.username};
      }
      ownerFd := ownerFd - {c.ownerId};
      dead := dead + [fd];
    }

    /** One `send`: says whether the flush loop goes on. */
    method SendOnce(fd: int) returns (more: bool)
      requires fd in conns && !conns[fd].dead && conns[fd].out.Pending() != []
      modifies this
      ensures inbox == old(inbox) && fd in conns
      ensures more ==> Core() == With(old(Core()), fd, conns[fd]) && !conns[fd].dead
      ensures more ==> Flush(conns[fd]) == Flush(old(conns[fd]))
      ensures more ==> |conns[fd].wire.script| < |old(conns[fd]).wire.script|
      ensures !more ==> Core() == FlushAt(old(Core()), fd)
    {
      hide Flush, Take, Put, Close, OutBuf.Pending, OutBuf.Consume, OutBuf.Push;
      ghost var s0 := Core();
      var c := conns[fd];
      Unfold(c);
      if c.wire.script == [] {
        if !c.writeEnabled {
          conns := conns[fd := c.(writeEnabled := true)];
        }
        PutLive(s0, fd, c.(writeEnabled := true));
        assert conns == s0.conns[fd := c.(writeEnabled := true)];
        return false;
      }
      var result := c.wire.script[0];
      c := c.(wire := c.wire.(script := c.wire.script[1..]));
      match result {
        case Sent(n) =>
          if n > 0 {
            TakeLive(c, Accepts(n, |c.out.Pending()|));
            conns := conns[fd := Take(c, Accepts(n, |c.out.Pending()|))];
            return true;
          }
        case SendInterrupted =>
          conns := conns[fd := c];
          return true;
        case SendBlocked =>
          conns := conns[fd := c.(writeEnabled := true)];
          PutLive(s0, fd, conns[fd]);
          return false;
        case SendFailed =>
      }
      conns := conns[fd := c];
      CloseIsPut(s0, fd, c);
      CloseConn(fd);
      return false;
    }

    /** Nothing is pending any more. */
    method Drained(fd: int)
      requires fd in conns && !conns[fd].dead && conns[fd].out.Pending() == []
      modifies this
      ensures Core() == FlushAt(old(Core()), fd) && inbox == old(inbox)
    {
      hide Flush, Put, Close, OutBuf.Pending, OutBuf.Consume, OutBuf.Push;
      ghost var s0 := Core();
      var c := conns[fd];
      Unfold(c);
      if c.writeEnabled {
        c := c.(writeEnabled := false);
      }
      c := c.(wire := c.wire.(drained := c.closing));
      conns := conns[fd := c];
      PutLive(s0, fd, c);
      CloseIsPut(s0, fd, c);
      if c.closing {
        CloseConn(fd);
      }
    }

    method TryFlush(fd: int)
      requires fd in conns
      modifies this
      ensures Core() == FlushAt(old(Core()), fd) && inbox == old(inbox)
    {
      hide Flush, Put, OutBuf.Pending, OutBuf.Consume, OutBuf.Push;
      ghost var s0 := Core();
      PutSame(s0, fd);
      Unfold(conns[fd]);
      if conns[fd].dead {
        return;
      }
      assert conns == conns[fd := conns[fd]];
      while conns[fd].out.Pending() != []
        invariant fd in conns && !conns[fd].dead
        invariant Core() == With(s0, fd, conns[fd]) && inbox == old(inbox)
        invariant Flush(conns[fd]) == Flush(s0.conns[fd])
        decreases |conns[fd].wire.script|
      {
        PutOver(s0, fd, conns[fd], Flush(conns[fd]));
        ghost var before := conns[fd];
        var more := SendOnce(fd);
        if !more {
          return;
        }
        assert s0.conns[fd := before][fd := conns[fd]] == s0.conns[fd := conns[fd]];
      }
      PutOver(s0, fd, conns[fd], Flush(conns[fd]));
      Drained(fd);
    }

    /** Every byte to a client goes through here. */
    method Queue(fd: int, m: Msg)
      requires fd in conns
      modifies this
      ensures Core() == Reply(old(Core()), fd, m) && inbox == old(inbox)
    {
      hide Flush, Enqueue, Put, Close, OutBuf.Pending, OutBuf.Consume, OutBuf.Push;
      ghost var s0 := Core();
      PutSame(s0, fd);
      if conns[fd].dead {
        return;
      }
      EnqueueLive(conns[fd], m);
      ghost var c1 := Enqueue(conns[fd], m);
      conns := conns[fd := Enqueue(conns[fd], m)];
      if |conns[fd].out.Pending()| > MAX_OUT {
        conns := conns[fd := conns[fd].(out := OutBuf([], 0))];
        CloseIsPut(s0, fd, conns[fd]);
        assert conns == s0.conns[fd := conns[fd]];
        CloseConn(fd);
        return;
      }
      PutOver(s0, fd, c1, Flush(c1));
      TryFlush(fd);
    }

    // ---------------------------------------------------------------- publishing

    method NotifyOwner(owner: int, m: Msg)
      modifies this
      ensures Core() == Notify(old(Core()), owner, m) && inbox == old(inbox)
    {
      hide QueueOut;
      if owner in ownerFd {
        var fd := ownerFd[owner];
        if fd in conns && !conns[fd].dead {
          Queue(fd, m);
        }
      }
    }

    /** Tells the buyer and the seller, then every subscriber, in whatever order the table gives. */
    method PublishTrade(t: Trade)
      modifies this
      ensures Core() == Publish(old(Core()), t) && inbox == old(inbox)
    {
      hide Notify, Broadcast, Put;
      NotifyOwner(t.buyer, Exec(Bought, t.inst, t.qty, t.price));
      NotifyOwner(t.seller, Exec(Sold, t.inst, t.qty, t.price));
      ghost var s2 := Core();
      BroadcastNone(s2, t);
      var todo := conns.Keys;
      assert s2.conns.Keys - todo == {};
      while todo != {}
        invariant todo <= conns.Keys == s2.conns.Keys
        invariant Core() == Broadcast(s2, t, s2.conns.Keys - todo) && inbox == old(inbox)
        decreases todo
      {
        var fd, rest := Pick(todo);
        ghost var visited := s2.conns.Keys - todo;
        Unvisited(s2, t, visited, fd);
        BroadcastStep(s2, t, visited, fd);
        PutSame(Core(), fd);
        var c := conns[fd];
        if c.role == MarketData && t.inst in c.subs && !c.closing && !c.dead {
          Queue(fd, Exec(TradeVerb, t.inst, t.qty, t.price));
        }
        todo := rest;
        assert s2.conns.Keys - todo == visited + {fd};
      }
      assert s2.conns.Keys - todo == s2.conns.Keys;
      PublishedBefore(old(Core()), t);
      published := published + [t];
    }

    // ---------------------------------------------------------------- commands

    method Login(fd: int, tk: seq<string>)
      requires fd in conns
      modifies this
      ensures Core() == CmdLogin(old(Core()), fd, tk) && inbox == old(inbox)
    {
      hide Reply;
      if |tk| != 2 {
        Queue(fd, ErrorMsg(BadArguments));
      } else if conns[fd].role == MarketData {
        Queue(fd, ErrorMsg(NotPermitted));
      } else if conns[fd].role == Trader {
        Queue(fd, ErrorMsg(AlreadyLoggedIn));
      } else if tk[1] in usernames {
        Queue(fd, ErrorMsg(DuplicateUsername));
      } else {
        var c := conns[fd];
        conns := conns[fd := c.(role := Trader, username := tk[1])];
        usernames := usernames + {tk[1]};
        ownerFd := ownerFd[c.ownerId := c.fd];
        Queue(fd, OkMsg);
      }
    }

    method NewOrder(fd: int, tk: seq<string>, side: Side)
      requires fd in conns && exch.Valid()
      modifies this, exch
      ensures Core() == CmdOrder(old(Core()), fd, tk, side) && inbox == old(inbox) && exch.Valid()
    {
      hide Reply, PlaceOrder, Parsed, Exchange.Valid;
      if conns[fd].role == MarketData {
        Queue(fd, ErrorMsg(NotPermitted));
        return;
      }
      if conns[fd].role == Unknown {
        Queue(fd, ErrorMsg(NotLoggedIn));
        return;
      }
      if |tk| != 4 {
        Queue(fd, ErrorMsg(BadArguments));
        return;
      }
      var inst := InstrumentIndex(tk[1]);
      if inst.None? {
        Queue(fd, ErrorMsg(UnknownInstrument));
        return;
      }
      var qty := ParseU32(tk[2], MIN_VALUE, MAX_VALUE);
      if qty.None? {
        Queue(fd, ErrorMsg(BadQuantity));
        return;
      }
      var price := ParseU32(tk[3], MIN_VALUE, MAX_VALUE);
      if price.None? {
        Queue(fd, ErrorMsg(BadPrice));
        return;
      }
      Place(fd, side, inst.value, qty.value, price.value);
    }

    /** Past every gate: submit, announce, publish. */
    method Place(fd: int, side: Side, inst: Inst, qty: nat, price: nat)
      requires fd in conns && exch.Valid()
      modifies this, exch
      ensures Core() == PlaceOrder(old(Core()), fd, Submit(side, inst, qty, price, old(conns)[fd].ownerId))
      ensures inbox == old(inbox) && exch.Valid()
    {
      hide Reply, PublishAll, Perform, Exchange.Valid, WireId;
      reqs := reqs + [Submit(side, inst, qty, price, conns[fd].ownerId)];
      var id, trades := exch.Submit(side, inst, qty, price, conns[fd].ownerId);
      Queue(fd, OrderAccepted(id));
      PublishEach(trades);
    }

    method PublishEach(trades: seq<Trade>)
      modifies this
      ensures Core() == PublishAll(old(Core()), trades) && inbox == old(inbox)
    {
      hide Publish;
      assert trades[0..] == trades;
      for i := 0 to |trades|
        invariant PublishAll(Core(), trades[i..]) == PublishAll(old(Core()), trades) && inbox == old(inbox)
      {
        assert trades[i..][1..] == trades[i + 1..];
        PublishTrade(trades[i]);
      }
    }

    method CancelCmd(fd: int, tk: seq<string>)
      requires fd in conns && exch.Valid()
      modifies this, exch
      ensures Core() == CmdCancel(old(Core()), fd, tk) && inbox == old(inbox) && exch.Valid()
    {
      hide Reply, Parsed, Exchange.Valid, Delisted;
      if conns[fd].role == MarketData {
        Queue(fd, ErrorMsg(NotPermitted));
        return;
      }
      if conns[fd].role == Unknown {
        Queue(fd, ErrorMsg(NotLoggedIn));
        return;
      }
      if |tk| != 2 {
        Queue(fd, ErrorMsg(BadArguments));
        return;
      }
      var id := ParseU32(tk[1], 0, MAX_ORDER_ID);
      if id.None? {
        Queue(fd, ErrorMsg(BadOrderId));
        return;
      }
      reqs := reqs + [Cancel(id.value, conns[fd].ownerId)];
      var refusal := exch.Cancel(id.value, conns[fd].ownerId);
      var reply :=
        match refusal
        case None => OrderCancelled(id.value)
        case Some(UnknownOrder) => ErrorMsg(NoSuchOrder)
        case Some(NotYourOrder) => ErrorMsg(ForeignOrder);
      Queue(fd, reply);
    }

    method SubscribeCmd(fd: int, tk: seq<string>, on: bool)
      requires fd in conns
      modifies this
      ensures Core() == CmdSubscribe(old(Core()), fd, tk, on) && inbox == old(inbox)
    {
      hide Reply;
      if conns[fd].role == Trader {
        Queue(fd, ErrorMsg(NotPermitted));
        return;
      }
      if |tk| != 2 {
        Queue(fd, ErrorMsg(BadArguments));
        return;
      }
      var inst := InstrumentIndex(tk[1]);
      if inst.None? {
        Queue(fd, ErrorMsg(UnknownInstrument));
        return;
      }
      var c := conns[fd];
      var subs := if on then c.subs + {inst.value} else c.subs - {inst.value};
      var mark := Mark(|published|, if c.closing then {} else subs);
      conns := conns[fd := c.(role := MarketData, subs := subs, wire := c.wire.(marks := c.wire.marks + [mark]))];
      Queue(fd, OkMsg);
    }

    method Quit(fd: int)
      requires fd in conns
      modifies this
      ensures Core() == DrainAndClose(old(Core()), fd) && inbox == old(inbox)
    {
      hide FlushAt;
      var c := conns[fd];
      conns := conns[fd := c.(closing := true, wire := c.wire.(marks := c.wire.marks + [Mark(|published|, {})]))];
      TryFlush(fd);
    }

    method Dispatch(fd: int, line: string)
      requires fd in conns && exch.Valid()
      modifies this, exch
      ensures Core() == HandleLine(old(Core()), fd, line) && inbox == old(inbox) && exch.Valid()
    {
      hide Reply, CmdLogin, CmdOrder, CmdCancel, CmdSubscribe, DrainAndClose, Tokens, Exchange.Valid;
      var tk := SplitWs(line);
      if tk == [] {
        return;
      }
      var v := tk[0];
      if v == "LOGIN" {
        Login(fd, tk);
      } else if v == "BUY" {
        NewOrder(fd, tk, Buy);
      } else if v == "SELL" {
        NewOrder(fd, tk, Sell);
      } else if v == "CANCEL" {
        CancelCmd(fd, tk);
      } else if v == "SUBSCRIBE" {
        SubscribeCmd(fd, tk, true);
      } else if v == "UNSUBSCRIBE" {
        SubscribeCmd(fd, tk, false);
      } else if v == "QUIT" {
        Quit(fd);
      } else {
        Queue(fd, ErrorMsg(UnknownCommand));
      }
    }

    // ---------------------------------------------------------------- reading

    /** `next_line` on the input buffer of a connection. */
    method TakeLine(fd: int) returns (st: LineStatus)
      requires fd in inbox
      modifies this`inbox
      ensures st == NextLine(old(inbox)[fd].buf).0
      ensures inbox == if st.Ok? then old(inbox)[fd := Handed(old(inbox)[fd])] else old(inbox)
    {
      var box := inbox[fd];
      var rest;
      st, rest := SplitLine(box.buf);
      if st.Ok? {
        inbox := inbox[fd := Inbox(rest, box.received, box.handed + [st.line])];
      }
    }

    /** The inner loop: lines for as long as there are any. */
    method HandleLines(fd: int) returns (stop: bool)
      requires fd in conns && fd in inbox && exch.Valid()
      modifies this, exch
      ensures (Whole(), stop) == DrainLines(old(Whole()), fd) && exch.Valid()
    {
      hide HandleLine, Reply, DrainAndClose, NextLine, Exchange.Valid;
      ghost var result := DrainLines(Whole(), fd);
      while true
        invariant fd in conns && fd in inbox && exch.Valid()
        invariant DrainLines(Whole(), fd) == result
        decreases |inbox[fd].buf|
      {
        NextLineShrinks(inbox[fd].buf);
        var st := TakeLine(fd);
        match st {
          case NeedMore =>
            return false;
          case TooLong =>
            Queue(fd, ErrorMsg(LineTooLong));
            Quit(fd);
            return true;
          case Ok(line) =>
            Dispatch(fd, line);
            if conns[fd].dead || conns[fd].closing {
              return true;
            }
        }
      }
    }

    method OnReadEvent(fd: int, eof: bool, recvs: seq<RecvResult>)
      requires Boxed(Whole()) && exch.Valid()
      modifies this, exch
      ensures Whole() == OnReadable(old(Whole()), fd, eof, recvs) && exch.Valid()
    {
      hide ReadLoop, Exchange.Valid;
      if fd in conns && !conns[fd].dead {
        ReadAll(fd, eof, recvs);
      }
    }

    /** `recv` until it would block, the peer is gone, or the connection is on its way out. */
    method ReadAll(fd: int, eof: bool, recvs: seq<RecvResult>)
      requires fd in conns && fd in inbox && exch.Valid()
      modifies this, exch
      ensures Whole() == ReadLoop(old(Whole()), fd, eof, recvs) && exch.Valid()
    {
      hide DrainLines, Close, ReadLoop, Exchange.Valid;
      ghost var result := ReadLoop(Whole(), fd, eof, recvs);
      var i := 0;
      assert recvs[0..] == recvs;
      while i < |recvs|
        invariant i <= |recvs|
        invariant fd in conns && fd in inbox && exch.Valid()
        invariant ReadLoop(Whole(), fd, eof, recvs[i..]) == result
      {
        assert recvs[i..][0] == recvs[i] && recvs[i..][1..] == recvs[i + 1..];
        ReadUnfold(Whole(), fd, eof, recvs[i..]);
        match recvs[i] {
          case Data(bytes) =>
            inbox := inbox[fd := inbox[fd].Append(bytes)];
            var stop := HandleLines(fd);
            if stop {
              return;
            }
          case RecvInterrupted =>
          case RecvBlocked => break;
          case Eof | RecvFailed =>
            CloseConn(fd);
            return;
        }
        i := i + 1;
      }
      ReadUnfold(Whole(), fd, eof, recvs[i..]);
      if eof {
        CloseConn(fd);
      }
    }

    method OnWriteEvent(fd: int)
      modifies this
      ensures Whole() == OnWritable(old(Whole()), fd)
    {
      hide FlushAt;
      if fd in conns && !conns[fd].dead {
        TryFlush(fd);
      }
    }

    // ---------------------------------------------------------------- accepting and reaping

    method OnAcceptEvent(results: seq<AcceptResult>)
      modifies this
      ensures Whole() == OnAccept(old(Whole()), results)
    {
      assert results[0..] == results;
      ghost var result := OnAccept(Whole(), results);
      for i := 0 to |results|
        invariant OnAccept(Whole(), results[i..]) == result
      {
        assert results[i..][0] == results[i] && results[i..][1..] == results[i + 1..];
        match results[i] {
          case AcceptStop => return;
          case AcceptRetry =>
          case Connected(fd, script) =>
            if fd in open {
              return;
            }
            open := open + {fd};
            if fd !in conns {
              conns := conns[fd := NewConn(fd, nextOwner, script)];
              inbox := inbox[fd := Inbox([], [], [])];
            }
            nextOwner := nextOwner + 1;
        }
      }
    }

    /** Closes the descriptors in `dead` and erases their connections. */
    method ReapDead()
      modifies this
      ensures Whole() == Reap(old(Whole()))
    {
      hide ReapSome, Reap;
      ghost var m := Whole();
      var n := |dead|;
      ReapNone(m, dead[..0]);
      for i := 0 to n
        invariant dead == old(dead)
        invariant Whole() == ReapSome(m, dead[..i])
      {
        ReapNext(m, dead, i);
        var fd := dead[i];
        if fd in conns {
          archive := archive + {conns[fd]};
        }
        open := open - {fd};
        conns := conns - {fd};
        inbox := inbox - {fd};
      }
      assert dead[..n] == dead;
      ReapAll(m, dead);
      dead := [];
    }

    // ---------------------------------------------------------------- the event loop

    method OnBatch(evs: seq<Event>)
      requires Boxed(Whole()) && exch.Valid()
      modifies this, exch
      ensures Whole() == OnEvents(old(Whole()), evs) && exch.Valid()
    {
      hide OnAccept, OnReadable, OnWritable, Exchange.Valid, Boxed;
      ghost var result := OnEvents(Whole(), evs);
      assert evs[0..] == evs;
      for i := 0 to |evs|
        invariant Boxed(Whole()) && exch.Valid()
        invariant OnEvents(Whole(), evs[i..]) == result
      {
        assert evs[i..][0] == evs[i] && evs[i..][1..] == evs[i + 1..];
        match evs[i] {
          case Acceptable(results) => OnAcceptEvent(results);
          case Readable(fd, eof, recvs) => OnReadEvent(fd, eof, recvs);
          case Writable(fd) => OnWriteEvent(fd);
        }
      }
    }

    /** `run`: any number of batches of events, each followed by `reap`.  Started on a new server it
        goes through exactly the states of the specification, and so keeps its invariant. */
    method Serve(batches: seq<seq<Event>>)
      requires Whole() == START && exch.Valid()
      modifies this, exch
      ensures Whole() == RunServer(batches) && exch.Valid() && Invariant(Whole())
    {
      hide OnEvents, Reap, Exchange.Valid, Invariant, Boxed;
      for i := 0 to |batches|
        invariant Whole() == RunServer(batches[..i]) && exch.Valid()
      {
        assert batches[..i + 1][..i] == batches[..i];
        OnBatch(batches[i]);
        ReapDead();
      }
      assert batches[..|batches|] == batches;
      Reachable(batches, []);
      NoEvents(RunServer(batches));
    }
  }

  /** The state with connection `fd` replaced and nothing else changed. */
  ghost function With(s: State, fd: int, c: Conn): (r: State)
    requires fd in s.conns
    ensures r.conns == s.conns[fd := c]
  {
    s.(conns := s.conns[fd := c])
  }

  lemma PutLive(s: State, fd: int, c: Conn)
    requires fd in s.conns && !c.dead
    ensures Put(s, fd, c) == With(s, fd, c)
  {
  }

  /** Replacing a live connection and then closing it is one replacement. */
  lemma CloseIsPut(s: State, fd: int, c: Conn)
    requires fd in s.conns && !s.conns[fd].dead && !c.dead
    ensures Close(With(s, fd, c), fd) == Put(s, fd, c.(dead := true))
  {
    assert s.conns[fd := c][fd := c.(dead := true)] == s.conns[fd := c.(dead := true)];
  }

  lemma PutOver(s: State, fd: int, c: Conn, d: Conn)
    requires fd in s.conns && !s.conns[fd].dead && !c.dead
    ensures Put(With(s, fd, c), fd, d) == Put(s, fd, d)
  {
    assert s.conns[fd := c][fd := d] == s.conns[fd := d];
  }

  lemma TakeLive(c: Conn, n: nat)
    requires n <= |c.out.Pending()|
    ensures Take(c, n).dead == c.dead && Take(c, n).wire.script == c.wire.script
  {
  }

  lemma EnqueueLive(c: Conn, m: Msg)
    ensures Enqueue(c, m).dead == c.dead
  {
  }

  /** One turn of the flush loop. */
  lemma Unfold(c: Conn)
    ensures Flush(c) ==
            if c.dead then c
            else if c.out.Pending() == [] then
              c.(writeEnabled := false, dead := c.closing, wire := c.wire.(drained := c.closing))
            else if c.wire.script == [] then c.(writeEnabled := true)
            else
              var c1 := c.(wire := c.wire.(script := c.wire.script[1..]));
              match c.wire.script[0]
              case Sent(n) => if n > 0 then Flush(Take(c1, Accepts(n, |c1.out.Pending()|))) else c1.(dead := true)
              case SendInterrupted => Flush(c1)
              case SendBlocked => c1.(writeEnabled := true)
              case SendFailed => c1.(dead := true)
  {
  }

  lemma Unvisited(s: State, t: Trade, fds: set<int>, fd: int)
    requires fd in s.conns && fd !in fds
    ensures Broadcast(s, t, fds).conns[fd] == s.conns[fd]
  {
    hide Tell;
  }

  lemma PutSame(s: State, fd: int)
    requires fd in s.conns
    ensures Put(s, fd, s.conns[fd]) == s
  {
    assert s.conns[fd := s.conns[fd]] == s.conns;
  }

  lemma PublishedBefore(s: State, t: Trade)
    ensures var s1 := Notify(s, t.buyer, Exec(Bought, t.inst, t.qty, t.price));
            var s2 := Notify(s1, t.seller, Exec(Sold, t.inst, t.qty, t.price));
            Broadcast(s2, t, s2.conns.Keys).published == s.published
  {
    hide QueueOut, Tell;
  }

  /** The input side after one complete line has been taken out of the buffer. */
  ghost function Handed(box: Inbox): Inbox
    requires NextLine(box.buf).0.Ok?
  {
    Inbox(NextLine(box.buf).1, box.received, box.handed + [NextLine(box.buf).0.line])
  }

  lemma NextLineShrinks(buf: string)
    ensures NextLine(buf).0.Ok? ==> |NextLine(buf).1| < |buf|
  {
  }

  /** One `recv` of the read loop. */
  lemma ReadUnfold(m: Machine, fd: int, eof: bool, recvs: seq<RecvResult>)
    requires fd in m.core.conns && fd in m.inbox
    ensures ReadLoop(m, fd, eof, recvs) ==
            if recvs == [] || recvs[0].RecvBlocked? then
              if eof then m.(core := Close(m.core, fd)) else m
            else if recvs[0].Data? then
              var (m1, stop) := DrainLines(m.(inbox := m.inbox[fd := m.inbox[fd].Append(recvs[0].bytes)]), fd);
              if stop then m1 else ReadLoop(m1, fd, eof, recvs[1..])
            else if recvs[0].RecvInterrupted? then ReadLoop(m, fd, eof, recvs[1..])
            else m.(core := Close(m.core, fd))
  {
    hide DrainLines, Close;
  }

  // ------------------------------------------------------------------ reaping step by step

  /** The machine after `reap` has dealt with the descriptors `fds`. */
  ghost function ReapSome(m: Machine, fds: seq<int>): Machine {
    var s := m.core;
    Machine(s.(conns := (map fd | fd in s.conns && fd !in fds :: s.conns[fd]),
               open := (set fd | fd in s.open && fd !in fds),
               archive := s.archive + (set fd | fd in s.conns && fd in fds :: s.conns[fd])),
            map fd | fd in m.inbox && fd !in fds :: m.inbox[fd])
  }

  lemma ReapNone(m: Machine, fds: seq<int>)
    requires fds == []
    ensures ReapSome(m, fds) == m
  {
    var r := ReapSome(m, fds);
    assert r.core.conns == m.core.conns && r.core.open == m.core.open && r.inbox == m.inbox;
  }

  lemma ReapAll(m: Machine, fds: seq<int>)
    requires m.core.dead == multiset(fds)
    ensures var r := ReapSome(m, fds); Reap(m) == r.(core := r.core.(dead := multiset{}))
  {
    assert forall fd :: fd in m.core.dead <==> fd in fds;
    var r := ReapSome(m, fds);
    assert Reap(m).core.conns == r.core.conns && Reap(m).core.open == r.core.open && Reap(m).inbox == r.inbox;
    assert Reap(m).core.archive == r.core.archive;
  }

  lemma ReapNext(m: Machine, fds: seq<int>, i: nat)
    requires i < |fds|
    ensures var r, fd := ReapSome(m, fds[..i]), fds[i];
            ReapSome(m, fds[..i + 1]) ==
            Machine(r.core.(conns := r.core.conns - {fd}, open := r.core.open - {fd},
                            archive := r.core.archive + if fd in r.core.conns then {r.core.conns[fd]} else {}),
                    r.inbox - {fd})
  {
    assert forall fd :: fd in fds[..i + 1] <==> fd in fds[..i] || fd == fds[i];
    var r, n, fd := ReapSome(m, fds[..i]), ReapSome(m, fds[..i + 1]), fds[i];
    assert n.core.conns == r.core.conns - {fd} && n.core.open == r.core.open - {fd} && n.inbox == r.inbox - {fd};
    assert n.core.archive == r.core.archive + if fd in r.core.conns then {r.core.conns[fd]} else {};
  }

  lemma NoEvents(m: Machine)
    requires Boxed(m)
    ensures OnEvents(m, []) == m
  {
  }
}
