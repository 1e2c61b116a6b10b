/** What every connection keeps, whatever the kernel answers: the output stream, write interest and
    drain-then-close, and how a connection may change at all. */
module ServerConns {
  import opened Wrappers
  import opened Protocol
  import opened Framing
  import opened ServerSpec

  /** The bytes of a list of messages. */
  function Stream(ms: seq<Msg>): string {
    if ms == [] then [] else Stream(ms[..|ms| - 1]) + Render(ms[|ms| - 1])
  }

  lemma StreamSnoc(ms: seq<Msg>, m: Msg)
    ensures Stream(ms + [m]) == Stream(ms) + Render(m)
  {
    assert (ms + [m])[..|ms|] == ms;
  }

  /** Output stream integrity: bytes sent followed by bytes pending are all that was queued, while
      the connection lives; what was sent is an initial part of it ever after; and a
      connection closed by draining has sent everything. */
  ghost predicate StreamOk(c: Conn) {
    && c.out.Valid()
    && c.wire.sent <= Stream(c.wire.queued)
    && (!c.dead ==> c.wire.sent + c.out.Pending() == Stream(c.wire.queued))
    && (c.wire.drained ==> c.dead && c.wire.sent == Stream(c.wire.queued))
  }

  /** No lost wake-up: write interest exactly while output is pending, a closing connection always
      has some, and never more than the cap. */
  ghost predicate Settled(c: Conn) {
    !c.dead ==>
      && (c.writeEnabled <==> c.out.Pending() != [])
      && (c.closing ==> c.out.Pending() != [])
      && |c.out.Pending()| <= MAX_OUT
  }

  ghost predicate ConnOk(c: Conn) {
    StreamOk(c) && Settled(c)
  }

  /** Who the connection is and what it may do. */
  ghost predicate SameFace(c: Conn, d: Conn) {
    && d.fd == c.fd && d.ownerId == c.ownerId
    && d.role == c.role && d.username == c.username && d.subs == c.subs
  }

  /** The connection was told that its line is too long. */
  ghost predicate Complained(c: Conn) {
    ErrorMsg(LineTooLong) in c.wire.queued
  }

  /** How a connection may change over time: it keeps its descriptor and owner, a role once taken and
      the name that goes with it stay, closing is for good, queued messages, sent bytes and
      marks only grow, and nothing about a dead connection changes. */
  ghost predicate Evolves(c: Conn, d: Conn) {
    && d.fd == c.fd && d.ownerId == c.ownerId
    && (c.role != Unknown ==> d.role == c.role && d.username == c.username)
    && (c.closing ==> d.closing)
    && c.wire.queued <= d.wire.queued
    && c.wire.sent <= d.wire.sent
    && c.wire.marks <= d.wire.marks
    && (c.dead ==> d == c)
  }

  /** Marks made since `c` are for trades from the `at`-th on. */
  ghost predicate Later(c: Conn, d: Conn, at: nat) {
    forall i :: |c.wire.marks| <= i < |d.wire.marks| ==> d.wire.marks[i].at >= at
  }

  lemma LaterTransitive(c: Conn, d: Conn, e: Conn, at: nat, at': nat)
    requires Evolves(d, e) && Later(c, d, at) && Later(d, e, at') && at <= at'
    ensures Later(c, e, at)
  {
  }

  lemma EvolvesTransitive(c: Conn, d: Conn, e: Conn)
    requires Evolves(c, d) && Evolves(d, e)
    ensures Evolves(c, e)
  {
  }

  /** The same without a complaint about a long line, which only the read loop makes. */
  ghost predicate Answers(c: Conn, d: Conn) {
    Evolves(c, d) && (Complained(d) ==> Complained(c))
  }

  lemma TakeOk(c: Conn, n: nat)
    requires StreamOk(c) && !c.dead && n <= |c.out.Pending()|
    ensures StreamOk(Take(c, n)) && |Take(c, n).out.Pending()| == |c.out.Pending()| - n
    ensures c.wire.sent <= Take(c, n).wire.sent
  {
    hide Stream, OutBuf.Pending, OutBuf.Consume, OutBuf.Valid;
    ConsumePending(c.out, n);
    Regroup(c.wire.sent, c.out.Pending()[..n], c.out.Pending()[n..]);
    assert c.out.Pending()[..n] + c.out.Pending()[n..] == c.out.Pending();
  }

  /** Flushing keeps the stream and settles the connection, under every sequence of results. */
  lemma {:induction false} FlushOk(c: Conn)
    requires StreamOk(c) && (!c.dead ==> |c.out.Pending()| <= MAX_OUT)
    ensures ConnOk(Flush(c))
    ensures SameFace(c, Flush(c)) && Answers(c, Flush(c))
    ensures Flush(c).wire.queued == c.wire.queued && Flush(c).wire.marks == c.wire.marks
    ensures Flush(c).closing == c.closing
    decreases |c.wire.script|
  {
    if !c.dead && c.out.Pending() != [] && c.wire.script != [] {
      var c1 := c.(wire := c.wire.(script := c.wire.script[1..]));
      assert StreamOk(c1);
      match c.wire.script[0]
      case Sent(n) =>
        if n > 0 {
          var k := Accepts(n, |c1.out.Pending()|);
          TakeOk(c1, k);
          FlushOk(Take(c1, k));
        }
      case SendInterrupted => FlushOk(c1);
      case SendBlocked =>
      case SendFailed =>
    } else if !c.dead && c.out.Pending() == [] {
      assert c.wire.sent + [] == c.wire.sent;
    }
  }

  // ------------------------------------------------------------------ what `send` reports

  /** How a flush ends: nothing left, out of room, or a failed `send`. */
  datatype Fate = Emptied | Full | Broken

  /** How many bytes the results of `send` take in all, how that ends, and the results not used. */
  datatype Flow = Flow(bytes: nat, fate: Fate, unused: seq<SendResult>)

  /** Read off the results alone, with `len` bytes to send: every `send` takes what it reports, or all
      there is if it reports more; EINTR tries again, EAGAIN waits, anything else is an error. */
  function Outflow(script: seq<SendResult>, len: nat): Flow {
    if len == 0 then Flow(0, Emptied, script)
    else if script == [] then Flow(0, Full, [])
    else if script[0].SendInterrupted? then Outflow(script[1..], len)
    else if script[0].SendBlocked? then Flow(0, Full, script[1..])
    else if script[0].SendFailed? || script[0].n == 0 then Flow(0, Broken, script[1..])
    else if script[0].n >= len then Flow(len, Emptied, script[1..])
    else
      var f := Outflow(script[1..], len - script[0].n);
      f.(bytes := script[0].n + f.bytes)
  }

  /** The connection after its pending bytes `p` have met the results of `send`: exactly the bytes
      reported are sent and the others stay pending; write interest is on exactly if the socket
      was full; an error kills it, and so does a closing connection's last byte. */
  ghost predicate Flushed(c: Conn, p: string, d: Conn) {
    var f := Outflow(c.wire.script, |p|);
    && f.bytes <= |p|
    && d.wire.sent == c.wire.sent + p[..f.bytes]
    && d.wire.script == f.unused
    && (d.dead <==> f.fate == Broken || (f.fate == Emptied && c.closing))
    && (!d.dead ==> d.out.Pending() == p[f.bytes..] && (d.writeEnabled <==> f.fate == Full))
    && (f.fate == Emptied ==> (d.wire.drained <==> c.closing))
  }

  /** One `send` that takes `k` bytes, and the rest of the flush. */
  lemma FlushedOn(c: Conn, p: string, k: nat, c1: Conn, d: Conn)
    requires c.wire.script != [] && p != [] && c1.closing == c.closing && c1.wire.script == c.wire.script[1..]
    requires match c.wire.script[0]
             case Sent(n) => n > 0 && k == if n < |p| then n else |p|
             case SendInterrupted => k == 0
             case _ => false
    requires c1.wire.sent == c.wire.sent + p[..k] && Flushed(c1, p[k..], d)
    ensures Flushed(c, p, d)
  {
    SentSoFar(c.wire.sent, p, k, Outflow(c1.wire.script, |p| - k).bytes);
  }

  /** `try_flush` does what the results of `send` say, byte for byte. */
  lemma {:induction false} FlushExactly(c: Conn)
    requires c.out.Valid() && !c.dead
    ensures Flushed(c, c.out.Pending(), Flush(c))
    decreases |c.wire.script|
  {
    hide OutBuf.Pending, OutBuf.Valid, OutBuf.Consume;
    var p, script := c.out.Pending(), c.wire.script;
    assert c.wire.sent + [] == c.wire.sent;
    if p != [] && script != [] && (script[0].SendInterrupted? || (script[0].Sent? && script[0].n > 0)) {
      hide Flushed;
      var c1 := c.(wire := c.wire.(script := script[1..]));
      if script[0].Sent? {
        var k := if script[0].n < |p| then script[0].n else |p|;
        ConsumePending(c.out, k);
        FlushExactly(Take(c1, k));
        FlushedOn(c, p, k, Take(c1, k), Flush(c));
      } else {
        FlushExactly(c1);
        assert p[0..] == p;
        FlushedOn(c, p, 0, c1, Flush(c));
      }
    }
  }

  lemma SentSoFar(sent: string, p: string, k: nat, more: nat)
    requires k <= |p| && k + more <= |p|
    ensures sent + p[..k] + p[k..][..more] == sent + p[..k + more]
    ensures p[k..][more..] == p[k + more..]
  {
    assert p[..k] + p[k..][..more] == p[..k + more];
  }

  lemma EnqueueOk(c: Conn, m: Msg)
    requires StreamOk(c) && !c.dead
    ensures StreamOk(Enqueue(c, m)) && Evolves(c, Enqueue(c, m))
  {
    hide Stream, Render, OutBuf.Pending, OutBuf.Push, OutBuf.Valid;
    PushPending(c.out, Render(m));
    StreamSnoc(c.wire.queued, m);
    Regroup(c.wire.sent, c.out.Pending(), Render(m));
  }

  /** Queueing a message keeps all of it, and adds the message to the history of a live
      connection. */
  lemma QueueOutOk(c: Conn, m: Msg)
    requires ConnOk(c)
    ensures ConnOk(QueueOut(c, m))
    ensures SameFace(c, QueueOut(c, m)) && Evolves(c, QueueOut(c, m))
    ensures m != ErrorMsg(LineTooLong) ==> Answers(c, QueueOut(c, m))
    ensures !c.dead ==> QueueOut(c, m).wire.queued == c.wire.queued + [m]
    ensures QueueOut(c, m).wire.marks == c.wire.marks && QueueOut(c, m).closing == c.closing
  {
    if !c.dead {
      hide Flush, StreamOk;
      EnqueueOk(c, m);
      var c1 := Enqueue(c, m);
      if |c1.out.Pending()| > MAX_OUT {
        DropOk(c1);
      } else {
        FlushOk(c1);
        EvolvesTransitive(c, c1, Flush(c1));
      }
    }
  }

  /** `queue_out`, byte for byte: the connection is dropped exactly if more than 8 MiB would be pending,
      and otherwise everything pending, with the new line at the end, meets the results of
      `send`. */
  lemma QueueOutExactly(c: Conn, m: Msg)
    requires ConnOk(c) && !c.dead
    ensures var p, d := c.out.Pending() + Body(m) + "\n", QueueOut(c, m);
            && d.wire.queued == c.wire.queued + [m]
            && (if |p| > 8 * 1024 * 1024 then d.dead && d.wire.sent == c.wire.sent else Flushed(c, p, d))
  {
    hide Flush, Flushed, Body, OutBuf.Pending, OutBuf.Valid, OutBuf.Push, Stream;
    QueueOutOk(c, m);
    var c1 := Enqueue(c, m);
    PushPending(c.out, Render(m));
    assert c1.out.Pending() == c.out.Pending() + Body(m) + "\n";
    if |c1.out.Pending()| <= MAX_OUT {
      FlushExactly(c1);
      SameFlush(c, c1, c1.out.Pending(), Flush(c1));
    }
  }

  lemma SameFlush(c: Conn, c1: Conn, p: string, d: Conn)
    requires c1 == c.(out := c1.out, wire := c.wire.(queued := c1.wire.queued)) && Flushed(c1, p, d)
    ensures Flushed(c, p, d)
  {
  }

  lemma DropOk(c: Conn)
    requires StreamOk(c) && !c.dead
    ensures StreamOk(c.(out := OutBuf([], 0), dead := true))
    ensures Evolves(c, c.(out := OutBuf([], 0), dead := true))
    ensures StreamOk(c.(dead := true)) && Answers(c, c.(dead := true))
  {
  }

  /** Asking a connection to close: it is gone at once if nothing is pending, and otherwise waits,
      with write interest on. */
  lemma ClosingOk(c: Conn, at: nat)
    requires ConnOk(c)
    ensures ConnOk(Flush(Shut(c, at)))
    ensures SameFace(c, Flush(Shut(c, at))) && Flush(Shut(c, at)).closing
    ensures !c.dead ==> Answers(c, Flush(Shut(c, at)))
    ensures Flush(Shut(c, at)).wire.queued == c.wire.queued
    ensures Flush(Shut(c, at)).wire.marks == c.wire.marks + [Mark(at, {})]
    ensures c.dead ==> Flush(Shut(c, at)) == Shut(c, at)
  {
    var d := Shut(c, at);
    assert StreamOk(d);
    FlushOk(d);
    if !c.dead {
      EvolvesTransitive(c, d, Flush(d));
    }
  }

  lemma NewConnOk(fd: int, owner: int, script: seq<SendResult>)
    ensures ConnOk(NewConn(fd, owner, script))
  {
  }
}
