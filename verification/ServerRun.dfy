/** Whole runs of the server: the invariant in every reachable state, deferred teardown, and the
    input side under any chunking. */
module ServerRun {
  import opened Wrappers
  import opened Book
  import opened ExchangeStore
  import opened BookNotices
  import opened Protocol
  import opened Framing
  import opened ServerSpec
  import opened ServerConns
  import opened ServerRegistry
  import opened ServerTranscript

  /** The invariant of the server state: registries and connections, and everybody told everything. */
  ghost predicate Sound(s: State) {
    Registry(s) && Told(s, [], [])
  }

  lemma LineSound(s: State, fd: int, line: string)
    requires Sound(s) && Live(s, fd)
    ensures Sound(HandleLine(s, fd, line)) && Advances(s, HandleLine(s, fd, line))
  {
    hide Registry, Told, HandleLine;
    HandleLineKeeps(s, fd, line);
    ToldLine(s, fd, line);
  }

  lemma CloseSound(s: State, fd: int)
    requires Sound(s) && fd in s.conns
    ensures Sound(Close(s, fd)) && Advances(s, Close(s, fd))
  {
    hide Registry, Told;
    CloseKeeps(s, fd);
    ToldStays(s, Close(s, fd));
  }

  lemma FlushSound(s: State, fd: int)
    requires Sound(s) && fd in s.conns
    ensures Sound(FlushAt(s, fd)) && Advances(s, FlushAt(s, fd))
  {
    hide Registry, Told, Flush;
    RegistryConns(s);
    FlushKeeps(s, fd);
    FlushOk(s.conns[fd]);
    ToldStays(s, FlushAt(s, fd));
  }

  lemma GiveUpSound(s: State, fd: int)
    requires Sound(s) && Live(s, fd)
    ensures Sound(GiveUp(s, fd)) && Ages(s, GiveUp(s, fd))
    ensures forall f :: f in s.conns && f != fd ==> GiveUp(s, fd).conns[f] == s.conns[f]
    ensures GiveUp(s, fd).conns[fd].closing
  {
    hide Registry, Told, Reply, DrainAndClose;
    GiveUpKeeps(s, fd);
    ReplyKeeps(s, fd, ErrorMsg(LineTooLong));
    ToldReply(s, fd, ErrorMsg(LineTooLong));
    ToldDrainAndClose(Reply(s, fd, ErrorMsg(LineTooLong)), fd);
  }

  // ------------------------------------------------------------------ the input side

  /** The lines handed over and those still buffered are the lines of what was received, and a
      connection is told of a long line only if one was received. */
  ghost predicate Recorded(c: Conn, box: Inbox) {
    && Lines(box.received) == box.handed + Lines(box.buf)
    && Rest(box.received) == Rest(box.buf)
    && (Complained(c) ==> !Fits(box.received))
  }

  /** The buffer holds no more than one unfinished line of legal length. */
  ghost predicate Partial(box: Inbox) {
    '\n' !in box.buf && |box.buf| <= MAX_LINE
  }

  /** A connection that is neither dead nor closing has at most one unfinished line buffered. */
  ghost predicate BoxOk(c: Conn, box: Inbox) {
    Recorded(c, box) && (!c.dead && !c.closing ==> Partial(box))
  }

  /** The input sides of everybody but `fd` are in order. */
  ghost predicate OthersOk(m: Machine, fd: int) {
    Boxed(m) && forall f :: f in m.core.conns && f != fd ==> BoxOk(m.core.conns[f], m.inbox[f])
  }

  ghost predicate InboxOk(m: Machine) {
    Boxed(m) && forall f :: f in m.core.conns ==> BoxOk(m.core.conns[f], m.inbox[f])
  }

  /** The invariant of the whole server. */
  ghost predicate Invariant(m: Machine) {
    Sound(m.core) && InboxOk(m)
  }

  lemma BoxStays(c: Conn, d: Conn, box: Inbox)
    requires BoxOk(c, box) && Answers(c, d)
    ensures BoxOk(d, box)
  {
  }

  /** Nobody but perhaps `fd` was told of a long line. */
  ghost predicate OthersQuiet(s: State, r: State, fd: int) {
    && Ages(s, r)
    && (forall f :: f in s.conns && f in r.conns && f != fd && Complained(r.conns[f]) ==> Complained(s.conns[f]))
  }

  lemma OthersStay(m: Machine, r: Machine, fd: int)
    requires OthersOk(m, fd) && OthersQuiet(m.core, r.core, fd) && r.core.conns.Keys == m.core.conns.Keys
    requires fd in m.inbox && fd in r.inbox && r.inbox == m.inbox[fd := r.inbox[fd]]
    ensures OthersOk(r, fd)
  {
    hide BoxOk, Evolves, Complained;
    forall f | f in r.core.conns && f != fd
      ensures BoxOk(r.core.conns[f], r.inbox[f])
    {
      BoxStays(m.core.conns[f], r.core.conns[f], m.inbox[f]);
    }
  }

  lemma AdvancesQuiet(s: State, r: State, fd: int)
    requires Advances(s, r)
    ensures OthersQuiet(s, r, fd)
  {
    hide Ages, Complained;
  }

  lemma InboxTogether(m: Machine, fd: int)
    requires OthersOk(m, fd) && fd in m.core.conns && BoxOk(m.core.conns[fd], m.inbox[fd])
    ensures InboxOk(m)
  {
    hide BoxOk;
  }

  /** More bytes arrive. */
  lemma AppendRecorded(c: Conn, box: Inbox, bytes: string)
    requires Recorded(c, box)
    ensures Recorded(c, box.Append(bytes))
  {
    hide Lines, Rest, Fits;
    SplitConcat(box.received, bytes);
    SplitConcat(box.buf, bytes);
    if Fits(box.received + bytes) {
      FitsPrefix(box.received, bytes);
    }
  }

  /** A line moves from the buffer to the lines handed over. */
  lemma HandRecorded(c: Conn, d: Conn, box: Inbox)
    requires Recorded(c, box) && NextLine(box.buf).0.Ok? && (Complained(d) ==> Complained(c))
    ensures Recorded(d, Inbox(NextLine(box.buf).1, box.received, box.handed + [NextLine(box.buf).0.line]))
  {
    hide Lines, Rest, Fits, NextLine, Complained;
    NextSplits(box.buf);
    var (st, rest) := NextLine(box.buf);
    assert box.handed + ([st.line] + Lines(rest)) == box.handed + [st.line] + Lines(rest);
  }

  /** The buffer is too long and still has no newline. */
  lemma LongRecorded(c: Conn, d: Conn, box: Inbox)
    requires Recorded(c, box) && NextLine(box.buf).0 == TooLong
    ensures Recorded(d, box)
  {
    hide Lines, Fits, Break;
    NextSplits(box.buf);
    if Fits(box.received) {
      FitsRest(box.received);
    }
  }

  /** The line loop leaves an unfinished line of legal length, or a connection on its way out. */
  lemma {:induction false} DrainLinesKeeps(m: Machine, fd: int)
    requires Sound(m.core) && OthersOk(m, fd) && Live(m.core, fd) && Recorded(m.core.conns[fd], m.inbox[fd])
    ensures var (r, stop) := DrainLines(m, fd);
            && Sound(r.core) && Ages(m.core, r.core) && OthersOk(r, fd) && InboxOk(r)
            && (stop ==> r.core.conns[fd].dead || r.core.conns[fd].closing)
            && (!stop ==> Live(r.core, fd) && Partial(r.inbox[fd]))
    decreases |m.inbox[fd].buf|
  {
    hide Sound, HandleLine, GiveUp, Ages, Advances, OthersOk, InboxOk, OthersQuiet, Recorded, Complained;
    assert Boxed(m) by { OthersBoxed(m, fd); }
    var box := m.inbox[fd];
    var (st, rest) := NextLine(box.buf);
    match st
    case NeedMore =>
      AgesReflexive(m.core);
      assert box.buf[..|box.buf|] == box.buf;
      InboxTogether(m, fd);
    case TooLong =>
      var r := m.(core := GiveUp(m.core, fd));
      GiveUpSound(m.core, fd);
      QuietBy(m.core, r.core, fd);
      OthersStay(m, r, fd);
      LongRecorded(m.core.conns[fd], r.core.conns[fd], box);
      InboxTogether(r, fd);
    case Ok(line) =>
      var m1 := Machine(HandleLine(m.core, fd, line), m.inbox[fd := Inbox(rest, box.received, box.handed + [line])]);
      LineSound(m.core, fd, line);
      AdvancesQuiet(m.core, m1.core, fd);
      AdvancesAges(m.core, m1.core);
      OthersStay(m, m1, fd);
      AdvancesComplaint(m.core, m1.core, fd);
      HandRecorded(m.core.conns[fd], m1.core.conns[fd], box);
      var c := m1.core.conns[fd];
      if c.dead || c.closing {
        InboxTogether(m1, fd);
      } else {
        DrainLinesKeeps(m1, fd);
        AgesTransitive(m.core, m1.core, DrainLines(m, fd).0.core);
      }
  }

  lemma AgesReflexive(s: State)
    ensures Ages(s, s)
  {
  }

  lemma AdvancesAges(s: State, r: State)
    requires Advances(s, r)
    ensures Ages(s, r)
  {
  }

  lemma AdvancesComplaint(s: State, r: State, fd: int)
    requires Advances(s, r) && fd in s.conns
    ensures fd in r.conns && (Complained(r.conns[fd]) ==> Complained(s.conns[fd]))
  {
    hide Complained, Evolves;
  }

  lemma QuietBy(s: State, r: State, fd: int)
    requires Ages(s, r) && forall f :: f in s.conns && f != fd ==> f in r.conns && r.conns[f] == s.conns[f]
    ensures OthersQuiet(s, r, fd)
  {
    hide Complained, Ages;
  }

  lemma OthersBoxed(m: Machine, fd: int)
    requires OthersOk(m, fd)
    ensures Boxed(m)
  {
  }

  // ------------------------------------------------------------------ reading

  lemma {:induction false} ReadLoopKeeps(m: Machine, fd: int, eof: bool, recvs: seq<RecvResult>)
    requires Sound(m.core) && InboxOk(m) && Live(m.core, fd)
    ensures var r := ReadLoop(m, fd, eof, recvs);
            Sound(r.core) && Ages(m.core, r.core) && InboxOk(r)
    decreases |recvs|
  {
    hide Sound, Ages, Advances, DrainLines, Close, InboxOk, OthersOk, Recorded, OthersQuiet;
    AgesReflexive(m.core);
    ClosedBox(m, fd);
    InboxBoxed(m);
    if recvs != [] {
      match recvs[0]
      case Data(bytes) =>
        var m0 := m.(inbox := m.inbox[fd := m.inbox[fd].Append(bytes)]);
        AppendKeeps(m, fd, bytes);
        DrainLinesKeeps(m0, fd);
        var (m1, stop) := DrainLines(m0, fd);
        if !stop {
          ReadLoopKeeps(m1, fd, eof, recvs[1..]);
          AgesTransitive(m.core, m1.core, ReadLoop(m, fd, eof, recvs).core);
        }
      case RecvInterrupted => ReadLoopKeeps(m, fd, eof, recvs[1..]);
      case RecvBlocked =>
      case Eof =>
      case RecvFailed =>
    }
  }

  lemma InboxBoxed(m: Machine)
    requires InboxOk(m)
    ensures Boxed(m)
  {
  }

  lemma AppendKeeps(m: Machine, fd: int, bytes: string)
    requires InboxOk(m) && fd in m.core.conns
    ensures fd in m.inbox
    ensures var m0 := m.(inbox := m.inbox[fd := m.inbox[fd].Append(bytes)]);
            OthersOk(m0, fd) && Recorded(m.core.conns[fd], m0.inbox[fd])
  {
    hide Recorded;
    assert BoxOk(m.core.conns[fd], m.inbox[fd]);
    AppendRecorded(m.core.conns[fd], m.inbox[fd], bytes);
  }

  lemma ClosedBox(m: Machine, fd: int)
    requires Sound(m.core) && InboxOk(m) && fd in m.core.conns
    ensures var r := m.(core := Close(m.core, fd)); Sound(r.core) && Ages(m.core, r.core) && InboxOk(r)
  {
    hide Sound, Close, Ages;
    CloseSound(m.core, fd);
    InboxStays(m, m.(core := Close(m.core, fd)));
  }

  lemma InboxStays(m: Machine, r: Machine)
    requires InboxOk(m) && Advances(m.core, r.core) && r.core.conns.Keys == m.core.conns.Keys && r.inbox == m.inbox
    ensures InboxOk(r)
  {
    hide BoxOk, Evolves, Complained;
    forall f | f in r.core.conns
      ensures BoxOk(r.core.conns[f], r.inbox[f])
    {
      BoxStays(m.core.conns[f], r.core.conns[f], m.inbox[f]);
    }
  }

  function Larger(a: nat, b: nat): nat { if a > b then a else b }

  /** The largest input buffer the read loop ever holds for the connection. */
  function Peak(m: Machine, fd: int, recvs: seq<RecvResult>): nat
    requires fd in m.core.conns && fd in m.inbox
    decreases |recvs|
  {
    if recvs == [] then |m.inbox[fd].buf|
    else
      match recvs[0]
      case Data(bytes) =>
        var m0 := m.(inbox := m.inbox[fd := m.inbox[fd].Append(bytes)]);
        var (m1, stop) := DrainLines(m0, fd);
        Larger(|m0.inbox[fd].buf|, if stop then 0 else Peak(m1, fd, recvs[1..]))
      case RecvInterrupted => Peak(m, fd, recvs[1..])
      case _ => |m.inbox[fd].buf|
  }

  /** For all input, a connection that is not closing never buffers more than one line of legal
      length and one chunk. */
  lemma {:induction false} InputBound(m: Machine, fd: int, recvs: seq<RecvResult>)
    requires Sound(m.core) && InboxOk(m) && Live(m.core, fd) && Partial(m.inbox[fd])
    ensures Peak(m, fd, recvs) <= 65536 + 4096
    decreases |recvs|
  {
    hide Sound, DrainLines, InboxOk, OthersOk, Recorded, Ages;
    InboxBoxed(m);
    if recvs != [] {
      match recvs[0]
      case Data(bytes) =>
        var m0 := m.(inbox := m.inbox[fd := m.inbox[fd].Append(bytes)]);
        AppendKeeps(m, fd, bytes);
        DrainLinesKeeps(m0, fd);
        var (m1, stop) := DrainLines(m0, fd);
        if !stop {
          InputBound(m1, fd, recvs[1..]);
        }
      case RecvInterrupted => InputBound(m, fd, recvs[1..]);
      case RecvBlocked =>
      case Eof =>
      case RecvFailed =>
    }
  }

  // ------------------------------------------------------------------ chunk independence

  /** Handing lines to `handle_line` one after the other, until the connection is dead or closing. */
  function HandleAll(s: State, fd: int, lines: seq<string>): (r: State)
    requires fd in s.conns
    ensures r.conns.Keys == s.conns.Keys
    decreases |lines|
  {
    if lines == [] || s.conns[fd].dead || s.conns[fd].closing then s
    else HandleAll(HandleLine(s, fd, lines[0]), fd, lines[1..])
  }

  lemma {:induction false} HandleAllConcat(s: State, fd: int, a: seq<string>, b: seq<string>)
    requires fd in s.conns
    ensures HandleAll(s, fd, a + b) == HandleAll(HandleAll(s, fd, a), fd, b)
    decreases |a|
  {
    if a == [] {
      assert a + b == b;
    } else if !s.conns[fd].dead && !s.conns[fd].closing {
      assert (a + b)[1..] == a[1..] + b;
      HandleAllConcat(HandleLine(s, fd, a[0]), fd, a[1..], b);
    }
  }

  /** The connection is neither dead nor closing. */
  ghost predicate Attentive(s: State, fd: int) {
    Live(s, fd) && !s.conns[fd].closing
  }

  /** The line loop hands over the lines of the buffer, all of them as long as the connection lasts,
      and keeps the rest. */
  lemma {:induction false} DrainIsHandleAll(m: Machine, fd: int)
    requires fd in m.inbox && Attentive(m.core, fd)
    ensures var (r, stop) := DrainLines(m, fd);
            var box, s := m.inbox[fd], HandleAll(m.core, fd, Lines(m.inbox[fd].buf));
            && r.inbox[fd].received == box.received
            && box.handed <= r.inbox[fd].handed <= box.handed + Lines(box.buf)
            && (Attentive(s, fd) ==>
                  && r.inbox == m.inbox[fd := Inbox(Rest(box.buf), box.received, box.handed + Lines(box.buf))]
                  && stop == (|Rest(box.buf)| > MAX_LINE)
                  && r.core == if stop then GiveUp(s, fd) else s)
            && (!Attentive(s, fd) ==> stop && r.core == s)
    decreases |m.inbox[fd].buf|
  {
    hide HandleLine, GiveUp, NextLine, Lines, Rest;
    var box := m.inbox[fd];
    NextSplits(box.buf);
    var (st, rest) := NextLine(box.buf);
    if st.Ok? {
      var box1 := Inbox(rest, box.received, box.handed + [st.line]);
      var m1 := Machine(HandleLine(m.core, fd, st.line), m.inbox[fd := box1]);
      assert Lines(box.buf)[0] == st.line && Lines(box.buf)[1..] == Lines(rest);
      assert box.handed + ([st.line] + Lines(rest)) == box.handed + [st.line] + Lines(rest);
      if Attentive(m1.core, fd) {
        DrainIsHandleAll(m1, fd);
      } else {
        HandleStopped(m1.core, fd, Lines(rest));
      }
    } else {
      assert box.handed + [] == box.handed;
      assert m.inbox == m.inbox[fd := box];
      UnfinishedNext(box.buf);
    }
  }

  lemma UnfinishedNext(buf: string)
    ensures !NextLine(buf).0.Ok? ==> (NextLine(buf).0 == TooLong <==> |buf| > MAX_LINE)
  {
  }

  lemma HandleStopped(s: State, fd: int, lines: seq<string>)
    requires fd in s.conns && (s.conns[fd].dead || s.conns[fd].closing)
    ensures HandleAll(s, fd, lines) == s
  {
  }

  /** The chunks that the read loop would take in, up to the first result that ends it. */
  function Chunks(recvs: seq<RecvResult>): seq<string> {
    if recvs == [] then []
    else
      match recvs[0]
      case Data(bytes) => [bytes] + Chunks(recvs[1..])
      case RecvInterrupted => Chunks(recvs[1..])
      case _ => []
  }

  /** Whether the result that ends the read loop closes the connection. */
  predicate Closes(eof: bool, recvs: seq<RecvResult>) {
    if recvs == [] then eof
    else
      match recvs[0]
      case Data(_) => Closes(eof, recvs[1..])
      case RecvInterrupted => Closes(eof, recvs[1..])
      case RecvBlocked => eof
      case _ => true
  }

  /** Chunk independence of one readable event: if every line fits, whatever chunks and interruptions
      the bytes come in, the whole server ends in the state that handling the lines one by one
      leaves, up to the point where the connection is closing or dead, and is closed then if
      the peer is gone. */
  lemma {:induction false} ChunkIndependence(m: Machine, fd: int, eof: bool, recvs: seq<RecvResult>)
    requires fd in m.inbox && Attentive(m.core, fd) && '\n' !in m.inbox[fd].buf
    requires Fits(m.inbox[fd].buf + Concat(Chunks(recvs)))
    ensures var all := m.inbox[fd].buf + Concat(Chunks(recvs));
            var s, r := HandleAll(m.core, fd, Lines(all)), ReadLoop(m, fd, eof, recvs);
            && r.core == (if Attentive(s, fd) && Closes(eof, recvs) then Close(s, fd) else s)
            && (Attentive(s, fd) ==>
                  r.inbox[fd].buf == Rest(all) && r.inbox[fd].handed == m.inbox[fd].handed + Lines(all))
    decreases |recvs|
  {
    hide DrainLines, HandleAll, Fits, Lines, Rest, Close;
    var box := m.inbox[fd];
    if recvs == [] || !(recvs[0].Data? || recvs[0].RecvInterrupted?) {
      assert box.buf + Concat(Chunks(recvs)) == box.buf;
      Unfinished(box.buf);
      HandleNone(m.core, fd);
      assert box.handed + [] == box.handed;
    } else if recvs[0].RecvInterrupted? {
      ChunkIndependence(m, fd, eof, recvs[1..]);
    } else {
      var b, more := box.buf + recvs[0].bytes, Concat(Chunks(recvs[1..]));
      assert Chunks(recvs)[1..] == Chunks(recvs[1..]);
      ConcatCons(box.buf, Chunks(recvs));
      FitsConcat(b, more);
      SplitConcat(b, more);
      RestClean(b);
      var m0 := m.(inbox := m.inbox[fd := box.Append(recvs[0].bytes)]);
      DrainIsHandleAll(m0, fd);
      var (m1, stop) := DrainLines(m0, fd);
      HandleAllConcat(m.core, fd, Lines(b), Lines(Rest(b) + more));
      if stop {
        HandleStopped(m1.core, fd, Lines(Rest(b) + more));
      } else {
        ChunkIndependence(m1, fd, eof, recvs[1..]);
        assert box.handed + Lines(b) + Lines(Rest(b) + more) == box.handed + (Lines(b) + Lines(Rest(b) + more));
      }
    }
  }

  /** A readable event on a connection that is alive and not closing, for all input: the lines that
      `Feed` gives are handled one by one; if the connection outlasts them it is refused where
      `Feed` refuses, and otherwise closed if the peer is gone. */
  lemma {:induction false} ReadableExactly(m: Machine, fd: int, eof: bool, recvs: seq<RecvResult>)
    requires fd in m.inbox && Attentive(m.core, fd) && '\n' !in m.inbox[fd].buf
    ensures var f := Feed(m.inbox[fd].buf, Chunks(recvs));
            var s := HandleAll(m.core, fd, f.lines);
            ReadLoop(m, fd, eof, recvs).core ==
            if !Attentive(s, fd) then s
            else if f.refused then GiveUp(s, fd)
            else if Closes(eof, recvs) then Close(s, fd)
            else s
    decreases |recvs|
  {
    hide DrainLines, HandleAll, Lines, Rest, Close, GiveUp, Feed;
    var box := m.inbox[fd];
    if recvs == [] || !(recvs[0].Data? || recvs[0].RecvInterrupted?) {
      FeedNone(box.buf);
      HandleNone(m.core, fd);
    } else if recvs[0].RecvInterrupted? {
      ReadableExactly(m, fd, eof, recvs[1..]);
    } else {
      var b := box.buf + recvs[0].bytes;
      var m0 := m.(inbox := m.inbox[fd := box.Append(recvs[0].bytes)]);
      RestClean(b);
      DrainIsHandleAll(m0, fd);
      var (m1, stop) := DrainLines(m0, fd);
      assert Chunks(recvs) == [recvs[0].bytes] + Chunks(recvs[1..]);
      FeedCons(box.buf, recvs[0].bytes, Chunks(recvs[1..]));
      var more := Feed(Rest(b), Chunks(recvs[1..])).lines;
      HandleAllConcat(m.core, fd, Lines(b), more);
      if !stop {
        ReadableExactly(m1, fd, eof, recvs[1..]);
      } else if !Attentive(HandleAll(m.core, fd, Lines(b)), fd) {
        HandleStopped(HandleAll(m.core, fd, Lines(b)), fd, more);
      }
    }
  }

  /** The same of the event itself, in every reachable state. */
  lemma ReadableEvent(m: Machine, fd: int, eof: bool, recvs: seq<RecvResult>)
    requires Invariant(m) && Attentive(m.core, fd)
    ensures Boxed(m)
    ensures var f := Feed(m.inbox[fd].buf, Chunks(recvs));
            var s := HandleAll(m.core, fd, f.lines);
            OnEvent(m, Readable(fd, eof, recvs)).core ==
            if !Attentive(s, fd) then s
            else if f.refused then GiveUp(s, fd)
            else if Closes(eof, recvs) then Close(s, fd)
            else s
  {
    hide Sound, HandleAll, Close, GiveUp, Feed, ReadLoop, Recorded;
    assert BoxOk(m.core.conns[fd], m.inbox[fd]);
    ReadableExactly(m, fd, eof, recvs);
  }

  lemma HandleNone(s: State, fd: int)
    requires fd in s.conns
    ensures HandleAll(s, fd, []) == s
  {
  }

  /** `Feed` is what the read loop gets out of its buffer: it hands over an initial part of those
      lines, and if the connection comes out of it alive and not closing it was not refused,
      has had all of them handled and keeps the rest. */
  lemma {:induction false} ReadLoopFeeds(m: Machine, fd: int, eof: bool, recvs: seq<RecvResult>)
    requires Sound(m.core) && fd in m.inbox && Attentive(m.core, fd) && Partial(m.inbox[fd])
    ensures var r, f := ReadLoop(m, fd, eof, recvs), Feed(m.inbox[fd].buf, Chunks(recvs));
            && r.inbox[fd].handed <= m.inbox[fd].handed + f.lines
            && r.inbox[fd].received <= m.inbox[fd].received + Concat(Chunks(recvs))
            && (Attentive(r.core, fd) ==>
                  && !f.refused
                  && r.inbox[fd] ==
                     Inbox(f.rest, m.inbox[fd].received + Concat(Chunks(recvs)), m.inbox[fd].handed + f.lines))
    decreases |recvs|
  {
    hide DrainLines, HandleAll, Lines, Rest, Sound, Close, GiveUp, Feed, Concat;
    var box := m.inbox[fd];
    if recvs == [] || !(recvs[0].Data? || recvs[0].RecvInterrupted?) {
      FeedNone(box.buf);
      assert box.handed + [] == box.handed && box.received + [] == box.received;
      ClosedDead(m.core, fd);
    } else if recvs[0].RecvInterrupted? {
      ReadLoopFeeds(m, fd, eof, recvs[1..]);
    } else {
      var b := box.buf + recvs[0].bytes;
      var m0 := m.(inbox := m.inbox[fd := box.Append(recvs[0].bytes)]);
      RestClean(b);
      DrainIsHandleAll(m0, fd);
      var (m1, stop) := DrainLines(m0, fd);
      var s := HandleAll(m.core, fd, Lines(b));
      HandleAllSound(m.core, fd, Lines(b));
      assert Chunks(recvs) == [recvs[0].bytes] + Chunks(recvs[1..]);
      FeedCons(box.buf, recvs[0].bytes, Chunks(recvs[1..]));
      ConcatOne(recvs[0].bytes, Chunks(recvs[1..]));
      Regroup(box.received, recvs[0].bytes, Concat(Chunks(recvs[1..])));
      if !stop {
        ReadLoopFeeds(m1, fd, eof, recvs[1..]);
        var f := Feed(Rest(b), Chunks(recvs[1..]));
        assert box.handed + Lines(b) + f.lines == box.handed + (Lines(b) + f.lines);
      } else {
        if Attentive(s, fd) {
          GiveUpSound(s, fd);
        }
        PrefixPlus(m1.inbox[fd].handed, box.handed, Lines(b), Feed(box.buf, Chunks(recvs)).lines);
      }
    }
  }

  lemma FeedNone(buf: string)
    ensures Feed(buf, []) == Fed([], buf, false) && Concat([]) == []
  {
  }

  lemma PrefixPlus(p: seq<string>, a: seq<string>, b: seq<string>, c: seq<string>)
    requires p <= a + b && b <= c
    ensures p <= a + c
  {
    assert a + b <= a + c;
  }

  lemma {:induction false} HandleAllSound(s: State, fd: int, lines: seq<string>)
    requires Sound(s) && fd in s.conns
    ensures Sound(HandleAll(s, fd, lines))
    decreases |lines|
  {
    hide Sound, HandleLine;
    if lines != [] && !s.conns[fd].dead && !s.conns[fd].closing {
      LineSound(s, fd, lines[0]);
      HandleAllSound(HandleLine(s, fd, lines[0]), fd, lines[1..]);
    }
  }

  lemma ClosedDead(s: State, fd: int)
    requires fd in s.conns
    ensures Close(s, fd).conns[fd].dead
  {
  }

  lemma {:induction false} DrainReceives(m: Machine, fd: int)
    requires fd in m.core.conns && fd in m.inbox
    ensures DrainLines(m, fd).0.inbox[fd].received == m.inbox[fd].received
    decreases |m.inbox[fd].buf|
  {
    hide HandleLine, GiveUp;
    var box := m.inbox[fd];
    var (st, rest) := NextLine(box.buf);
    if st.Ok? {
      var box1 := Inbox(rest, box.received, box.handed + [st.line]);
      var m1 := Machine(HandleLine(m.core, fd, st.line), m.inbox[fd := box1]);
      var c := m1.core.conns[fd];
      if !c.dead && !c.closing {
        DrainReceives(m1, fd);
      }
    }
  }

  /** How many chunks a readable event takes in: all of them unless a line ends the loop. */
  ghost predicate TakesIn(m: Machine, fd: int, chunks: seq<string>, n: nat, r: Machine)
    requires fd in m.inbox && fd in r.inbox
  {
    n <= |chunks| && (chunks != [] ==> n > 0) && r.inbox[fd].received == m.inbox[fd].received + Concat(chunks[..n])
  }

  /** No byte is lost or invented on the input side: after a readable event the bytes received are
      those before it and then the first so many chunks of the event. */
  lemma {:induction false} ReadLoopReceives(m: Machine, fd: int, eof: bool, recvs: seq<RecvResult>)
    requires fd in m.core.conns && fd in m.inbox
    ensures exists n :: TakesIn(m, fd, Chunks(recvs), n, ReadLoop(m, fd, eof, recvs))
    decreases |recvs|
  {
    hide DrainLines, Close;
    var r, box, chunks := ReadLoop(m, fd, eof, recvs), m.inbox[fd], Chunks(recvs);
    if recvs == [] || !(recvs[0].Data? || recvs[0].RecvInterrupted?) {
      assert box.received + [] == box.received;
      assert TakesIn(m, fd, chunks, 0, r);
    } else if recvs[0].RecvInterrupted? {
      ReadLoopReceives(m, fd, eof, recvs[1..]);
    } else {
      var bytes := recvs[0].bytes;
      var m0 := m.(inbox := m.inbox[fd := box.Append(bytes)]);
      DrainReceives(m0, fd);
      var (m1, stop) := DrainLines(m0, fd);
      assert chunks == [bytes] + Chunks(recvs[1..]);
      if stop {
        assert chunks[..1] == [bytes] + [] && bytes + [] == bytes;
        ConcatOne(bytes, []);
        assert TakesIn(m, fd, chunks, 1, r);
      } else {
        ReadLoopReceives(m1, fd, eof, recvs[1..]);
        var n: nat :| TakesIn(m1, fd, Chunks(recvs[1..]), n, r);
        assert chunks[..n + 1] == [bytes] + Chunks(recvs[1..])[..n];
        ConcatOne(bytes, Chunks(recvs[1..])[..n]);
        Regroup(box.received, bytes, Concat(Chunks(recvs[1..])[..n]));
        assert TakesIn(m, fd, chunks, n + 1, r);
      }
    }
  }

  // ------------------------------------------------------------------ closing connections

  /** The line loop on a closing connection handles one line at most. */
  lemma ClosingDrain(m: Machine, fd: int)
    requires Sound(m.core) && fd in m.inbox && Live(m.core, fd) && m.core.conns[fd].closing
    ensures var box, lines, rest := m.inbox[fd], Lines(m.inbox[fd].buf), Rest(m.inbox[fd].buf);
            var (r, stop) := DrainLines(m, fd);
            && stop == (lines != [] || |rest| > MAX_LINE)
            && r.inbox[fd].handed == box.handed + (if lines == [] then [] else [lines[0]])
            && r.core == (if lines != [] then HandleLine(m.core, fd, lines[0])
                          else if |rest| > MAX_LINE then GiveUp(m.core, fd)
                          else m.core)
            && (!stop ==> r == m)
  {
    hide Sound, HandleLine, GiveUp, NextLine, Lines, Rest;
    var box := m.inbox[fd];
    NextSplits(box.buf);
    UnfinishedNext(box.buf);
    var (st, rest) := NextLine(box.buf);
    if st.Ok? {
      LineSound(m.core, fd, st.line);
      assert Proceeds(m.core.conns[fd], HandleLine(m.core, fd, st.line).conns[fd], |m.core.published|);
    } else {
      assert box.handed + [] == box.handed;
    }
  }

  /** QUIT does not make a connection deaf.  Whatever a readable event brings to a closing connection
      that still has output pending, in whatever chunks and with whatever interruptions: the
      first line it completes is handled and nothing after it; with no complete line, too long
      a rest is refused, and the end of the stream closes. */
  lemma {:induction false} ClosingHandlesOneLine(m: Machine, fd: int, eof: bool, recvs: seq<RecvResult>)
    requires Sound(m.core) && fd in m.inbox && Live(m.core, fd) && m.core.conns[fd].closing
    ensures var f, r := Feed(m.inbox[fd].buf, Chunks(recvs)), ReadLoop(m, fd, eof, recvs);
            && r.inbox[fd].handed == m.inbox[fd].handed + (if f.lines == [] then [] else [f.lines[0]])
            && r.core == (if f.lines != [] then HandleLine(m.core, fd, f.lines[0])
                          else if f.refused then GiveUp(m.core, fd)
                          else if Closes(eof, recvs) then Close(m.core, fd)
                          else m.core)
    decreases |recvs|
  {
    hide Sound, DrainLines, HandleLine, GiveUp, Close, Lines, Rest, Feed;
    var box := m.inbox[fd];
    if recvs == [] || !(recvs[0].Data? || recvs[0].RecvInterrupted?) {
      FeedNone(box.buf);
      assert box.handed + [] == box.handed;
    } else if recvs[0].RecvInterrupted? {
      ClosingHandlesOneLine(m, fd, eof, recvs[1..]);
    } else {
      var b := box.buf + recvs[0].bytes;
      var m0 := m.(inbox := m.inbox[fd := box.Append(recvs[0].bytes)]);
      ClosingDrain(m0, fd);
      assert Chunks(recvs) == [recvs[0].bytes] + Chunks(recvs[1..]);
      FeedCons(box.buf, recvs[0].bytes, Chunks(recvs[1..]));
      if Lines(b) == [] && |Rest(b)| <= MAX_LINE {
        NoLines(b);
        ClosingHandlesOneLine(m0, fd, eof, recvs[1..]);
        var f := Feed(b, Chunks(recvs[1..]));
        assert [] + f.lines == f.lines;
      }
    }
  }

  lemma NoLines(b: string)
    requires Lines(b) == []
    ensures Rest(b) == b
  {
  }

  /** Readable events of other connections, writable events and accepts leave an input side alone. */
  lemma EventInbox(m: Machine, ev: Event, fd: int)
    requires Boxed(m) && fd in m.inbox && (ev.Readable? ==> ev.fd != fd || m.core.conns[fd].dead)
    ensures fd in OnEvent(m, ev).inbox && OnEvent(m, ev).inbox[fd] == m.inbox[fd]
  {
    hide HandleLine, GiveUp, Close, FlushAt, DrainLines;
    match ev
    case Acceptable(results) => AcceptInbox(m, results, fd);
    case Readable(f, eof, recvs) =>
      if Live(m.core, f) {
        ReadInbox(m, f, eof, recvs, fd);
      }
    case Writable(f) =>
  }

  lemma {:induction false} AcceptInbox(m: Machine, results: seq<AcceptResult>, fd: int)
    requires Boxed(m) && fd in m.inbox
    ensures fd in OnAccept(m, results).inbox && OnAccept(m, results).inbox[fd] == m.inbox[fd]
    decreases |results|
  {
    if results != [] {
      match results[0]
      case AcceptStop =>
      case AcceptRetry => AcceptInbox(m, results[1..], fd);
      case Connected(f, script) =>
        if f !in m.core.open {
          AcceptInbox(AddConn(m, f, script), results[1..], fd);
        }
    }
  }

  lemma {:induction false} DrainInbox(m: Machine, f: int, fd: int)
    requires f in m.core.conns && f in m.inbox && fd in m.inbox && fd != f
    ensures DrainLines(m, f).0.inbox[fd] == m.inbox[fd]
    decreases |m.inbox[f].buf|
  {
    hide HandleLine, GiveUp;
    var box := m.inbox[f];
    var (st, rest) := NextLine(box.buf);
    if st.Ok? {
      var m1 := Machine(HandleLine(m.core, f, st.line),
                        m.inbox[f := Inbox(rest, box.received, box.handed + [st.line])]);
      var c := m1.core.conns[f];
      if !c.dead && !c.closing {
        DrainInbox(m1, f, fd);
      }
    }
  }

  lemma {:induction false} ReadInbox(m: Machine, f: int, eof: bool, recvs: seq<RecvResult>, fd: int)
    requires f in m.core.conns && f in m.inbox && fd in m.inbox && fd != f
    ensures ReadLoop(m, f, eof, recvs).inbox[fd] == m.inbox[fd]
    decreases |recvs|
  {
    hide DrainLines, Close;
    if recvs != [] {
      match recvs[0]
      case Data(bytes) =>
        var m0 := m.(inbox := m.inbox[f := m.inbox[f].Append(bytes)]);
        DrainInbox(m0, f, fd);
        var (m1, stop) := DrainLines(m0, f);
        if !stop {
          ReadInbox(m1, f, eof, recvs[1..], fd);
        }
      case RecvInterrupted => ReadInbox(m, f, eof, recvs[1..], fd);
      case RecvBlocked =>
      case Eof =>
      case RecvFailed =>
    }
  }

  /** No events hand over another line of connection `fd`. */
  ghost predicate Deaf(m: Machine, fd: int)
    requires Boxed(m) && fd in m.inbox
  {
    forall evs :: fd in OnEvents(m, evs).inbox && OnEvents(m, evs).inbox[fd].handed == m.inbox[fd].handed
  }

  /** The exact condition: a closing connection is past having lines handled if and only if it is
      dead. */
  lemma DeafOnlyWhenDead(m: Machine, fd: int)
    requires Invariant(m) && fd in m.core.conns && m.core.conns[fd].closing
    ensures Boxed(m) && (Deaf(m, fd) <==> m.core.conns[fd].dead)
  {
    hide Sound, InboxOk, OnEvents;
    InboxBoxed(m);
    if m.core.conns[fd].dead {
      forall evs
        ensures fd in OnEvents(m, evs).inbox && OnEvents(m, evs).inbox[fd].handed == m.inbox[fd].handed
      {
        DeadStaysDeaf(m, evs, fd);
      }
    } else {
      var recvs := [Data("\n")];
      var buf := m.inbox[fd].buf;
      ClosingHandlesOneLine(m, fd, false, recvs);
      assert recvs[1..] == [] && Chunks(recvs) == ["\n"] + [];
      FeedCons(buf, "\n", []);
      NewlineCompletes(buf);
      OneEvent(m, Readable(fd, false, recvs));
      assert OnEvents(m, [Readable(fd, false, recvs)]).inbox[fd].handed != m.inbox[fd].handed;
    }
  }

  lemma NewlineCompletes(buf: string)
    ensures Lines(buf + "\n") != []
  {
    hide Lines, Rest;
    SplitConcat(buf, "\n");
    RestClean(buf);
    assert Rest(buf) + "\n" == Rest(buf) + "\n" + [];
    Finished(Rest(buf), []);
  }

  /** Events are handled one after the other, in order: any batch can be cut in two anywhere. */
  lemma {:induction false} EventsInOrder(m: Machine, a: seq<Event>, b: seq<Event>)
    requires Boxed(m)
    ensures OnEvents(m, a + b) == OnEvents(OnEvents(m, a), b)
    decreases |a|
  {
    hide OnEvent;
    if a == [] {
      assert a + b == b;
    } else {
      assert (a + b)[1..] == a[1..] + b;
      EventsInOrder(OnEvent(m, a[0]), a[1..], b);
    }
  }

  lemma OneEvent(m: Machine, ev: Event)
    requires Boxed(m)
    ensures OnEvents(m, [ev]) == OnEvent(m, ev)
  {
    hide OnEvent;
    assert [ev][1..] == [];
  }

  lemma {:induction false} DeadStaysDeaf(m: Machine, evs: seq<Event>, fd: int)
    requires Invariant(m) && Boxed(m) && fd in m.core.conns && m.core.conns[fd].dead
    ensures fd in OnEvents(m, evs).inbox && OnEvents(m, evs).inbox[fd] == m.inbox[fd]
    decreases |evs|
  {
    hide Invariant, OnEvent;
    if evs != [] {
      EventInbox(m, evs[0], fd);
      OnEventKeeps(m, evs[0]);
      assert Proceeds(m.core.conns[fd], OnEvent(m, evs[0]).core.conns[fd], |m.core.published|);
      DeadStaysDeaf(OnEvent(m, evs[0]), evs[1..], fd);
    }
  }

  // ------------------------------------------------------------------ accepting and reaping

  lemma AddConnTraders(s: State, r: State, fd: int, c: Conn)
    requires fd !in s.conns && c.role == Unknown && r.conns == s.conns[fd := c]
    ensures forall f :: LiveTrader(r, f) <==> LiveTrader(s, f)
    ensures forall f :: LiveTrader(s, f) ==> r.conns[f] == s.conns[f]
  {
  }

  lemma AddConnNames(s: State, r: State, fd: int, c: Conn)
    requires NamesOk(s) && fd !in s.conns && c.role == Unknown && c.username == []
    requires r.conns == s.conns[fd := c] && r.usernames == s.usernames
    ensures NamesOk(r)
  {
    AddConnTraders(s, r, fd, c);
    hide LiveTrader;
    forall u | u in r.usernames
      ensures exists f :: LiveTrader(r, f) && r.conns[f].username == u
    {
      var f :| LiveTrader(s, f) && s.conns[f].username == u;
      assert LiveTrader(r, f);
    }
  }

  lemma AddConnOwners(s: State, r: State, fd: int, c: Conn)
    requires OwnersOk(s) && fd !in s.conns && c.role == Unknown
    requires r.conns == s.conns[fd := c] && r.ownerFd == s.ownerFd
    ensures OwnersOk(r)
  {
    AddConnTraders(s, r, fd, c);
  }

  lemma AddConnIds(m: Machine, fd: int, script: seq<SendResult>)
    requires IdsOk(m.core) && fd !in m.core.conns
    ensures IdsOk(AddConn(m, fd, script).core)
  {
  }

  lemma AddConnHistory(m: Machine, fd: int, script: seq<SendResult>)
    requires IdsOk(m.core) && ArchiveOk(m.core) && BookOk(m.core) && fd !in m.core.conns
    ensures ArchiveOk(AddConn(m, fd, script).core) && BookOk(AddConn(m, fd, script).core)
  {
    hide StreamOk, KnownTrader, HasOwner, InRange, Performed;
    var s, r := m.core, AddConn(m, fd, script).core;
    forall f | f in s.conns
      ensures f in r.conns && KeepsRole(s.conns[f], r.conns[f])
    {
    }
    KeepsKnown(s, r);
    OwnerOf(r, fd);
  }

  lemma OwnerOf(s: State, fd: int)
    requires fd in s.conns
    ensures HasOwner(s, s.conns[fd].ownerId)
  {
  }

  lemma AddConnTable(m: Machine, fd: int, script: seq<SendResult>)
    requires DeadOk(m.core) && TableOk(m.core) && AllOk(m.core) && InboxOk(m) && fd !in m.core.conns
    ensures var r := AddConn(m, fd, script);
            DeadOk(r.core) && TableOk(r.core) && AllOk(r.core) && InboxOk(r) && Ages(m.core, r.core)
  {
    hide ConnOk, BoxOk;
    NewConnOk(fd, m.core.nextOwner, script);
    NewBox(fd, m.core.nextOwner, script);
    EvolvesReflexive();
  }

  lemma NewBox(fd: int, owner: int, script: seq<SendResult>)
    ensures BoxOk(NewConn(fd, owner, script), Inbox([], [], []))
  {
  }

  lemma EvolvesReflexive()
    ensures forall c :: Evolves(c, c)
  {
  }

  lemma {:induction false} NothingTaped(published: seq<Trade>)
    ensures Tape(published, []) == []
  {
    if published != [] {
      NothingTaped(published[..|published| - 1]);
    }
  }

  /** A new owner has submitted nothing and listens to nothing, so there is nothing to tell. */
  lemma NewTold(s: State, c: Conn)
    requires IdsOk(s) && ArchiveOk(s) && BookOk(s) && c.ownerId == s.nextOwner
    requires c.wire.queued == [] && c.wire.marks == [] && c.subs == {}
    ensures ToldConn(c, [], AllNotices(s), s.published)
  {
    hide Performed, Notices, StreamOk, HasOwner, InRange, Keyed, Sourced, Grounded, Numbered;
    PerformedKeeps(s.reqs);
    var outs := Performed(s.reqs).outs;
    forall k | 0 <= k < |outs| && outs[k].Submitted?
      ensures outs[k].order.owner != s.nextOwner
    {
      KnownBelow(s, s.reqs[k].owner);
    }
    NoNotices(outs, s.nextOwner);
    NothingTaped(s.published);
    ForNone(c.ownerId);
  }

  lemma KnownBelow(s: State, o: int)
    requires IdsOk(s) && ArchiveOk(s) && KnownTrader(s, o)
    ensures o < s.nextOwner
  {
  }

  lemma AddConnTold(m: Machine, fd: int, script: seq<SendResult>)
    requires Registry(m.core) && Told(m.core, [], []) && fd !in m.core.conns
    ensures Told(AddConn(m, fd, script).core, [], [])
  {
    hide IdsOk, NamesOk, OwnersOk, DeadOk, TableOk, ArchiveOk, BookOk, AllOk, ToldConn, AllNotices, AllTrades, Cut;
    var s, r := m.core, AddConn(m, fd, script).core;
    SameNotices(s, r);
    NewTold(s, r.conns[fd]);
    forall f | f in r.conns
      ensures ToldConn(r.conns[f], [], AllNotices(r), r.published)
    {
      if f != fd {
        assert r.conns[f] == s.conns[f];
      }
    }
  }

  lemma AddConnKeeps(m: Machine, fd: int, script: seq<SendResult>)
    requires Invariant(m) && fd !in m.core.open
    ensures Invariant(AddConn(m, fd, script)) && Ages(m.core, AddConn(m, fd, script).core)
  {
    hide Told, IdsOk, NamesOk, OwnersOk, DeadOk, ArchiveOk, BookOk, AllOk, InboxOk, Ages;
    AddConnTold(m, fd, script);
    AddConnNames(m.core, AddConn(m, fd, script).core, fd, NewConn(fd, m.core.nextOwner, script));
    AddConnOwners(m.core, AddConn(m, fd, script).core, fd, NewConn(fd, m.core.nextOwner, script));
    AddConnIds(m, fd, script);
    AddConnHistory(m, fd, script);
    AddConnTable(m, fd, script);
  }

  lemma {:induction false} OnAcceptKeeps(m: Machine, results: seq<AcceptResult>)
    requires Invariant(m)
    ensures Invariant(OnAccept(m, results)) && Ages(m.core, OnAccept(m, results).core)
    decreases |results|
  {
    hide Invariant, Ages, AddConn;
    AgesReflexive(m.core);
    if results != [] {
      match results[0]
      case AcceptStop =>
      case AcceptRetry => OnAcceptKeeps(m, results[1..]);
      case Connected(fd, script) =>
        if fd !in m.core.open {
          AddConnKeeps(m, fd, script);
          OnAcceptKeeps(AddConn(m, fd, script), results[1..]);
          AgesTransitive(m.core, AddConn(m, fd, script).core, OnAccept(m, results).core);
        }
    }
  }

  /** The connections of an accept event: everything up to the end of the backlog but the calls to
      repeat. */
  function Arrivals(results: seq<AcceptResult>): (a: seq<AcceptResult>)
    ensures forall i :: 0 <= i < |a| ==> a[i].Connected?
  {
    if results == [] || results[0].AcceptStop? then []
    else if results[0].AcceptRetry? then Arrivals(results[1..])
    else [results[0]] + Arrivals(results[1..])
  }

  /** The kernel hands out descriptors that are not in use. */
  ghost predicate NewDescriptors(a: seq<AcceptResult>, open: set<int>)
    requires forall i :: 0 <= i < |a| ==> a[i].Connected?
  {
    && (forall i :: 0 <= i < |a| ==> a[i].fd !in open)
    && (forall i, j :: 0 <= i < j < |a| ==> a[i].fd != a[j].fd)
  }

  /** The server `r` is `m` with the connections `a` added, fresh, with consecutive owner ids, and
      nobody else changed. */
  ghost predicate Joined(m: Machine, a: seq<AcceptResult>, r: Machine)
    requires forall i :: 0 <= i < |a| ==> a[i].Connected?
  {
    && r.core.nextOwner == m.core.nextOwner + |a|
    && (forall fd :: fd in r.core.conns ==> fd in m.core.conns || exists i :: 0 <= i < |a| && a[i].fd == fd)
    && (forall i :: 0 <= i < |a| ==>
          Has(r, a[i].fd, NewConn(a[i].fd, m.core.nextOwner + i, a[i].script), Inbox([], [], [])))
    && (forall fd :: fd in m.core.conns && fd in m.inbox ==> Has(r, fd, m.core.conns[fd], m.inbox[fd]))
  }

  ghost predicate Has(m: Machine, fd: int, c: Conn, box: Inbox) {
    fd in m.core.conns && fd in m.inbox && m.core.conns[fd] == c && m.inbox[fd] == box
  }

  lemma JoinedCons(m: Machine, fd: int, script: seq<SendResult>, a: seq<AcceptResult>, r: Machine)
    requires Boxed(m) && fd !in m.core.conns && forall i :: 0 <= i < |a| ==> a[i].Connected?
    requires Joined(AddConn(m, fd, script), a, r)
    ensures Joined(m, [Connected(fd, script)] + a, r)
  {
    hide NewConn;
    var m1, all := AddConn(m, fd, script), [Connected(fd, script)] + a;
    assert Has(r, fd, m1.core.conns[fd], m1.inbox[fd]);
    forall i | 0 <= i < |all|
      ensures Has(r, all[i].fd, NewConn(all[i].fd, m.core.nextOwner + i, all[i].script), Inbox([], [], []))
    {
      if i > 0 {
        assert all[i] == a[i - 1];
      }
    }
    forall f | f in r.core.conns && f !in m.core.conns
      ensures exists i :: 0 <= i < |all| && all[i].fd == f
    {
      if f == fd {
        assert all[0].fd == fd;
      } else {
        var i :| 0 <= i < |a| && a[i].fd == f;
        assert all[i + 1].fd == f;
      }
    }
    forall f | f in m.core.conns && f in m.inbox
      ensures Has(r, f, m.core.conns[f], m.inbox[f])
    {
      assert Has(r, f, m1.core.conns[f], m1.inbox[f]);
    }
  }

  /** An accept event adds exactly the connections of its backlog, and changes nobody. */
  lemma {:induction false} AcceptExactly(m: Machine, results: seq<AcceptResult>)
    requires Boxed(m) && m.core.open == m.core.conns.Keys && NewDescriptors(Arrivals(results), m.core.open)
    ensures Joined(m, Arrivals(results), OnAccept(m, results))
    decreases |results|
  {
    hide NewConn;
    if results != [] {
      hide Joined;
      match results[0]
      case AcceptStop => JoinedNone(m);
      case AcceptRetry => AcceptExactly(m, results[1..]);
      case Connected(fd, script) =>
        var a, rest := Arrivals(results), Arrivals(results[1..]);
        assert a[0] == results[0] && forall i :: 0 <= i < |rest| ==> rest[i] == a[i + 1];
        AcceptExactly(AddConn(m, fd, script), results[1..]);
        JoinedCons(m, fd, script, rest, OnAccept(m, results));
    } else {
      JoinedNone(m);
    }
  }

  lemma JoinedNone(m: Machine)
    ensures Joined(m, [], m)
  {
  }

  lemma ReapNames(m: Machine)
    requires IdsOk(m.core) && NamesOk(m.core) && OwnersOk(m.core) && DeadOk(m.core)
    ensures IdsOk(Reap(m).core) && NamesOk(Reap(m).core) && OwnersOk(Reap(m).core)
  {
    var s, r := m.core, Reap(m).core;
    forall f
      ensures LiveTrader(r, f) <==> LiveTrader(s, f)
    {
      assert s.dead[f] == if f in s.conns && s.conns[f].dead then 1 else 0;
    }
    forall u | u in r.usernames
      ensures exists f :: LiveTrader(r, f) && r.conns[f].username == u
    {
      var f :| LiveTrader(s, f) && s.conns[f].username == u;
      assert LiveTrader(r, f);
    }
  }

  lemma ReapTable(m: Machine)
    requires DeadOk(m.core) && TableOk(m.core) && AllOk(m.core) && InboxOk(m)
    ensures DeadOk(Reap(m).core) && TableOk(Reap(m).core) && AllOk(Reap(m).core) && InboxOk(Reap(m))
  {
    hide ConnOk, BoxOk;
    var s, r := m.core, Reap(m);
    forall f: int
      ensures r.core.dead[f] == if f in r.core.conns && r.core.conns[f].dead then 1 else 0
    {
      assert s.dead[f] == if f in s.conns && s.conns[f].dead then 1 else 0;
    }
  }

  /** `reap` takes exactly the dead connections out, closes their descriptors, and leaves everybody
      else, with the input side, and the rest of the server as it is. */
  lemma ReapExactly(m: Machine)
    requires Invariant(m)
    ensures var s, r := m.core, Reap(m);
            && (forall fd :: fd in r.core.conns <==> Live(s, fd))
            && (forall fd :: Live(s, fd) ==> Has(r, fd, s.conns[fd], m.inbox[fd]))
            && r.core.open == r.core.conns.Keys
            && r.core == s.(conns := r.core.conns, open := r.core.open, archive := r.core.archive, dead := multiset{})
            && (forall c :: c in r.core.archive <==>
                  c in s.archive || exists fd :: fd in s.conns && s.conns[fd] == c && c.dead)
  {
    hide NamesOk, OwnersOk, BookOk, AllOk, BoxOk, Told, ArchiveOk;
    var s, r := m.core, Reap(m).core;
    forall fd
      ensures fd in s.dead <==> fd in s.conns && s.conns[fd].dead
    {
      assert s.dead[fd] == if fd in s.conns && s.conns[fd].dead then 1 else 0;
    }
  }

  lemma ReapKnown(m: Machine, o: int)
    ensures HasOwner(m.core, o) ==> HasOwner(Reap(m).core, o)
    ensures KnownTrader(m.core, o) ==> KnownTrader(Reap(m).core, o)
  {
    var s, r := m.core, Reap(m).core;
    if fd :| fd in s.conns && s.conns[fd].ownerId == o && s.conns[fd].role == Trader {
      assert if fd in s.dead then s.conns[fd] in r.archive else r.conns[fd] == s.conns[fd];
    }
    if fd :| fd in s.conns && s.conns[fd].ownerId == o {
      assert if fd in s.dead then s.conns[fd] in r.archive else r.conns[fd] == s.conns[fd];
    }
  }

  lemma ReapHistory(m: Machine)
    requires IdsOk(m.core) && DeadOk(m.core) && ArchiveOk(m.core) && BookOk(m.core) && AllOk(m.core)
    ensures ArchiveOk(Reap(m).core) && BookOk(Reap(m).core)
  {
    hide StreamOk, HasOwner, KnownTrader;
    var s, r := m.core, Reap(m).core;
    forall o
      ensures HasOwner(s, o) ==> HasOwner(r, o)
      ensures KnownTrader(s, o) ==> KnownTrader(r, o)
    {
      ReapKnown(m, o);
    }
    forall c | c in r.archive
      ensures c in s.archive || exists fd :: fd in s.conns && fd in s.dead && s.conns[fd] == c
    {
    }
  }

  lemma ReapKeeps(m: Machine)
    requires Invariant(m)
    ensures Invariant(Reap(m))
  {
    hide Told, IdsOk, NamesOk, OwnersOk, DeadOk, TableOk, ArchiveOk, BookOk, AllOk, InboxOk;
    ToldStays(m.core, Reap(m).core);
    ReapNames(m);
    ReapTable(m);
    ReapHistory(m);
  }

  // ------------------------------------------------------------------ whole runs

  lemma OnEventKeeps(m: Machine, ev: Event)
    requires Invariant(m)
    ensures Invariant(OnEvent(m, ev)) && Ages(m.core, OnEvent(m, ev).core)
  {
    hide Sound, InboxOk, Ages, FlushAt, ReadLoop, OnAccept;
    AgesReflexive(m.core);
    InboxBoxed(m);
    match ev
    case Acceptable(results) => OnAcceptKeeps(m, results);
    case Readable(fd, eof, recvs) =>
      if Live(m.core, fd) {
        ReadLoopKeeps(m, fd, eof, recvs);
      }
    case Writable(fd) =>
      if Live(m.core, fd) {
        FlushSound(m.core, fd);
        InboxStays(m, OnWritable(m, fd));
      }
  }

  /** A writable event does to a live connection what the results of `send` say, and nothing to anybody
      else. */
  lemma WritableExactly(m: Machine, fd: int)
    requires Invariant(m) && Live(m.core, fd)
    ensures var c, r := m.core.conns[fd], OnEvent(m, Writable(fd));
            && Flushed(c, c.out.Pending(), r.core.conns[fd])
            && SameFace(c, r.core.conns[fd]) && r.core.conns[fd].wire.queued == c.wire.queued
            && r == m.(core := r.core) && r.core.store == m.core.store
            && (forall f :: f in m.core.conns && f != fd ==> r.core.conns[f] == m.core.conns[f])
  {
    hide Flush, Flushed, InboxOk, Told, OutBuf.Pending;
    RegistryConns(m.core);
    assert ConnOk(m.core.conns[fd]);
    FlushExactly(m.core.conns[fd]);
    FlushOk(m.core.conns[fd]);
  }

  lemma InvariantBoxed(m: Machine)
    requires Invariant(m)
    ensures Boxed(m)
  {
  }

  /** Deferred teardown: across any part of an event batch no entry leaves the table, every
      descriptor keeps its owner, and a connection that is dead before an event is untouched by
      it. */
  lemma {:induction false} BatchKeeps(m: Machine, evs: seq<Event>)
    requires Invariant(m)
    ensures Invariant(OnEvents(m, evs)) && Ages(m.core, OnEvents(m, evs).core)
    decreases |evs|
  {
    hide Invariant, Ages, OnEvent;
    AgesReflexive(m.core);
    if evs != [] {
      InvariantBoxed(m);
      OnEventKeeps(m, evs[0]);
      BatchKeeps(OnEvent(m, evs[0]), evs[1..]);
      AgesTransitive(m.core, OnEvent(m, evs[0]).core, OnEvents(m, evs).core);
    }
  }

  lemma StartOk()
    ensures Invariant(START)
  {
    assert Performed([]) == Ran(NO_ORDERS, []);
  }

  /** The invariant holds in every reachable state: after any number of batches, and in the middle
      of the next one, whatever the kernel and the clients do. */
  lemma {:induction false} Reachable(batches: seq<seq<Event>>, evs: seq<Event>)
    ensures Invariant(OnEvents(RunServer(batches), evs))
    decreases |batches|
  {
    hide Invariant;
    if batches == [] {
      StartOk();
    } else {
      var n := |batches| - 1;
      Reachable(batches[..n], batches[n]);
      ReapKeeps(OnEvents(RunServer(batches[..n]), batches[n]));
    }
    BatchKeeps(RunServer(batches), evs);
  }

  /** `reap` closes each descriptor in `dead_` exactly once: it is listed once, it is open, and the
      owner it belongs to has never been closed before. */
  lemma ReapClosesOnce(m: Machine, fd: int)
    requires Invariant(m) && fd in m.core.dead
    ensures m.core.dead[fd] == 1 && fd in m.core.open && m.core.conns[fd].dead
    ensures forall c :: c in m.core.archive ==> c.ownerId != m.core.conns[fd].ownerId
    ensures fd !in Reap(m).core.open && m.core.conns[fd] in Reap(m).core.archive
  {
    hide NamesOk, OwnersOk, BookOk, AllOk, InboxOk, HasOwner, Told;
    assert m.core.dead[fd] == if fd in m.core.conns && m.core.conns[fd].dead then 1 else 0;
  }
}
