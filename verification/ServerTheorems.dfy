/** The main results about the running server: every statement is about an arbitrary reachable state,
    that is, the state after any number of event batches and any part of the next one. */
module ServerTheorems {
  import opened Wrappers
  import opened Book
  import opened BookVolumes
  import opened BookOrders
  import opened ExchangeIndex
  import opened ExchangeStore
  import opened BookNotices
  import opened Protocol
  import opened Framing
  import opened ServerSpec
  import opened ServerConns
  import opened ServerRegistry
  import opened ServerTranscript
  import opened ServerExchange
  import opened ServerRun
  import opened ServerCommands

  /** A state of the server that some run leads to. */
  function At(batches: seq<seq<Event>>, evs: seq<Event>): State {
    OnEvents(RunServer(batches), evs).core
  }

  /** The input side of a connection in that state. */
  function InboxAt(batches: seq<seq<Event>>, evs: seq<Event>, fd: int): (box: Inbox)
    requires fd in At(batches, evs).conns
  {
    OnEvents(RunServer(batches), evs).inbox[fd]
  }

  /** A connection the server has, or had and closed. */
  ghost predicate Met(s: State, c: Conn) {
    c in s.archive || exists fd :: fd in s.conns && s.conns[fd] == c
  }

  lemma AtSound(batches: seq<seq<Event>>, evs: seq<Event>)
    ensures Sound(At(batches, evs))
  {
    hide Sound;
    Reachable(batches, evs);
  }

  /** Registry coherence: names are exactly those of the live traders, pairwise distinct and not
      empty; owner ids lead exactly to the live traders' own descriptors; only market-data
      connections have subscriptions. */
  lemma RegistriesCoherent(batches: seq<seq<Event>>, evs: seq<Event>)
    ensures var s := At(batches, evs);
            && (forall u :: u in s.usernames <==>
                  u != [] && exists fd :: LiveTrader(s, fd) && s.conns[fd].username == u)
            && (forall fd, fd' :: LiveTrader(s, fd) && LiveTrader(s, fd') && fd != fd' ==>
                  s.conns[fd].username != s.conns[fd'].username && s.conns[fd].ownerId != s.conns[fd'].ownerId)
            && (forall o, fd :: o in s.ownerFd && s.ownerFd[o] == fd <==> LiveTrader(s, fd) && s.conns[fd].ownerId == o)
            && (forall fd :: fd in s.conns && s.conns[fd].subs != {} ==> s.conns[fd].role == MarketData)
  {
    hide At, Told, DeadOk, ArchiveOk, BookOk, AllOk;
    AtSound(batches, evs);
  }

  /** Output stream integrity for every connection the server has or had: sent bytes are always an
      initial part of what was queued; sent and pending together are all of it while the
      connection lives; and a close by draining has sent everything. */
  lemma StreamsIntact(batches: seq<seq<Event>>, evs: seq<Event>, c: Conn)
    requires Met(At(batches, evs), c)
    ensures c.wire.sent <= Stream(c.wire.queued)
    ensures !c.dead ==> c.wire.sent + c.out.Pending() == Stream(c.wire.queued)
    ensures c.wire.drained ==> c.dead && c.wire.sent == Stream(c.wire.queued)
  {
    hide At, Told, IdsOk, NamesOk, OwnersOk, DeadOk, TableOk, BookOk, HasOwner, Stream;
    AtSound(batches, evs);
    var s := At(batches, evs);
    if fd :| fd in s.conns && s.conns[fd] == c {
      assert ConnOk(s.conns[fd]);
    }
  }

  /** No lost wake-up: between events, a live connection has write interest exactly when output is
      pending, a closing one always has some, and nobody has more than 8 MiB. */
  lemma NoLostWakeUp(batches: seq<seq<Event>>, evs: seq<Event>, fd: int)
    requires Live(At(batches, evs), fd)
    ensures var c := At(batches, evs).conns[fd];
            && (c.writeEnabled <==> c.out.Pending() != [])
            && (c.closing ==> c.out.Pending() != [])
            && |c.out.Pending()| <= 8 * 1024 * 1024
  {
    hide At, Told, IdsOk, NamesOk, OwnersOk, DeadOk, TableOk, ArchiveOk, BookOk, StreamOk;
    AtSound(batches, evs);
    assert ConnOk(At(batches, evs).conns[fd]);
  }

  /** Everybody met so far is still there or closed, with nothing taken back: same owner, same role
      and name once it had one, streams only longer, and nothing changed about what it listened
      to when the trades so far were published. */
  ghost predicate Follows(s: State, r: State) {
    s.published <= r.published && forall c :: Met(s, c) ==> Continued(r, c, |s.published|)
  }

  ghost predicate Continued(s: State, c: Conn, published: nat) {
    exists d :: Met(s, d) && Proceeds(c, d, published)
  }

  lemma FollowsTransitive(a: State, b: State, c: State)
    requires Follows(a, b) && Follows(b, c)
    ensures Follows(a, c)
  {
    hide Met, Evolves, Later;
    forall x | Met(a, x)
      ensures Continued(c, x, |a.published|)
    {
      assert Continued(b, x, |a.published|);
      var y :| Met(b, y) && Proceeds(x, y, |a.published|);
      assert Continued(c, y, |b.published|);
      var z :| Met(c, z) && Proceeds(y, z, |b.published|);
      EvolvesTransitive(x, y, z);
      LaterTransitive(x, y, z, |a.published|, |b.published|);
    }
  }

  lemma AgesFollows(s: State, r: State)
    requires Ages(s, r)
    ensures Follows(s, r)
  {
    hide Evolves;
    forall c | Met(s, c)
      ensures Continued(r, c, |s.published|)
    {
      if fd :| fd in s.conns && s.conns[fd] == c {
        assert Met(r, r.conns[fd]) && Proceeds(c, r.conns[fd], |s.published|);
      } else {
        EvolvesReflexive();
        assert Met(r, c) && Proceeds(c, c, |s.published|);
      }
    }
  }

  lemma ReapFollows(m: Machine)
    ensures Follows(m.core, Reap(m).core)
  {
    hide Evolves;
    var s, r := m.core, Reap(m).core;
    forall c | Met(s, c)
      ensures Continued(r, c, |s.published|)
    {
      EvolvesReflexive();
      if fd :| fd in s.conns && s.conns[fd] == c {
        assert if fd in s.dead then c in r.archive else r.conns[fd] == c;
      }
      assert Met(r, c) && Proceeds(c, c, |s.published|);
    }
  }

  /** Over whole runs: every connection keeps its owner id, a role once taken and its name, and its
      streams only grow, for as long as the server runs and after the connection is closed. */
  lemma {:induction false} NothingTakenBack(batches: seq<seq<Event>>, n: nat)
    requires n <= |batches|
    ensures Follows(RunServer(batches[..n]).core, RunServer(batches).core)
    decreases |batches|
  {
    hide Follows, Sound, Invariant, Ages, OnEvents, Reap;
    var k := |batches| - 1;
    if n == |batches| {
      assert batches[..n] == batches;
      AgesReflexive(RunServer(batches).core);
      AgesFollows(RunServer(batches).core, RunServer(batches).core);
    } else {
      NothingTakenBack(batches[..k], n);
      assert batches[..k][..n] == batches[..n];
      var m := RunServer(batches[..k]);
      var m1 := OnEvents(m, batches[k]);
      RunInvariant(batches[..k]);
      BatchKeeps(m, batches[k]);
      AgesFollows(m.core, m1.core);
      ReapFollows(m1);
      FollowsTransitive(m.core, m1.core, RunServer(batches).core);
      FollowsTransitive(RunServer(batches[..n]).core, m.core, RunServer(batches).core);
    }
  }

  lemma RunInvariant(batches: seq<seq<Event>>)
    ensures Invariant(RunServer(batches))
  {
    hide Invariant;
    Reachable(batches, []);
  }

  /** Fill reporting, in every reachable state: the BOUGHT (or SOLD) total of a live trader is what it
      has traded, and, until an id has clashed, what was accepted from it less what rests and
      what it cancelled. */
  lemma FillsAddUp(batches: seq<seq<Event>>, evs: seq<Event>, fd: int, lv: Level)
    requires LiveTrader(At(batches, evs), fd)
    ensures var s := At(batches, evs);
            var c, outs := s.conns[fd], Performed(s.reqs).outs;
            Reported(c.wire.queued, lv) == Traded(Trades(outs), lv, Only(c.ownerId))
    ensures ClashFree(Meant(At(batches, evs).reqs)) ==>
              var s := At(batches, evs);
              var c, outs, resting := s.conns[fd], Performed(s.reqs).outs, Run(Meant(s.reqs)).book.resting;
              && Indexed(s.store.orders, s.store.books, resting)
              && Accepted(outs, lv, Only(c.ownerId)) ==
                 Reported(c.wire.queued, lv) + Depth(resting, lv, Only(c.ownerId))
                 + Withdrawn(outs, lv, Only(c.ownerId))
  {
    hide At, Registry, Told, Run, Performed, Accepted, Reported, Depth, Withdrawn, Traded, ClashFree, Meant, Indexed;
    AtSound(batches, evs);
    FillReporting(At(batches, evs), fd, lv);
  }

  // ------------------------------------------------------------------ transcripts

  /** What holds of everything the server has told anybody. */
  lemma MetTold(batches: seq<seq<Event>>, evs: seq<Event>, c: Conn)
    requires Met(At(batches, evs), c)
    ensures var s := At(batches, evs);
            && Cut(c, AllNotices(s), s.published)
            && (!c.dead ==> ToldConn(c, [], AllNotices(s), s.published))
            && s.published == AllTrades(s)
  {
    hide At, Cut, ToldConn, AllNotices, AllTrades, StreamOk, HasOwner;
    hide IdsOk, NamesOk, OwnersOk, DeadOk, TableOk, BookOk, AllOk;
    AtSound(batches, evs);
    var s := At(batches, evs);
    assert s.published + [] == s.published;
    if fd :| fd in s.conns && s.conns[fd] == c {
      ToldCut(c, [], AllNotices(s), s.published);
    }
  }

  /** The transcript theorem: the ORDER_ACCEPTED, ORDER_CANCELLED, BOUGHT and SOLD messages ever queued
      to a connection are, as a sequence, the transcript of what the exchange has done with its
      owner's orders; for a dead or closed connection, an initial part of it. */
  lemma TranscriptTold(batches: seq<seq<Event>>, evs: seq<Event>, c: Conn)
    requires Met(At(batches, evs), c)
    ensures var outs := Performed(At(batches, evs).reqs).outs;
            var told, all := Business(c.wire.queued), Msgs(Transcript(outs, c.ownerId));
            told <= all && (!c.dead ==> told == all)
  {
    hide At, Met, Performed, Business, Ticker, OnTape, Notices, For, Msgs, Tape;
    MetTold(batches, evs, c);
    NothingFor(c.ownerId);
    assert Business(c.wire.queued) + [] == Business(c.wire.queued);
  }

  lemma NothingFor(owner: int)
    ensures Msgs(For(owner, [])) == []
  {
  }

  /** ORDER_ACCEPTED precedes executions, order by order, in every stream the server has ever written:
      the message about order `ns[j].id` at place `j` comes after the announcement of that very
      order; no order is announced twice; and to a live owner each one is. */
  lemma AcceptedFirst(batches: seq<seq<Event>>, evs: seq<Event>, c: Conn)
    requires Met(At(batches, evs), c)
    ensures var outs := Performed(At(batches, evs).reqs).outs;
            var ms, ns := Business(c.wire.queued), Transcript(outs, c.ownerId);
            && |ms| <= |ns|
            && (forall j :: 0 <= j < |ms| ==> ms[j] == ns[j].msg)
            && (forall j :: 0 <= j < |ms| && !ms[j].OrderAccepted? ==>
                  exists i :: 0 <= i < j && ns[i].id == ns[j].id && ms[i] == OrderAccepted(WireId(ns[j].id)))
            && (forall i, j :: 0 <= i < j < |ms| && ms[i].OrderAccepted? && ms[j].OrderAccepted? ==>
                  ns[i].id < ns[j].id)
            && (forall k :: !c.dead && 0 <= k < |outs| && outs[k].Submitted? && outs[k].order.owner == c.ownerId ==>
                  exists i :: 0 <= i < |ms| && ns[i].id == outs[k].order.id && ms[i] == OrderAccepted(WireId(ns[i].id)))
  {
    hide At, Met, Performed, Business, Notices, For, AnnouncedIn, WireId, Keyed, Sourced, Grounded, Numbered;
    TranscriptTold(batches, evs, c);
    var s := At(batches, evs);
    var outs := Performed(s.reqs).outs;
    var ms, ns := Business(c.wire.queued), Transcript(outs, c.ownerId);
    PerformedKeeps(s.reqs);
    TranscriptOrdered(outs, c.ownerId);
    forall j | 0 <= j < |ms| && !ms[j].OrderAccepted?
      ensures exists i :: 0 <= i < j && ns[i].id == ns[j].id && ms[i] == OrderAccepted(WireId(ns[j].id))
    {
      var i := AnnouncedWhere(ns[..j], ns[j].id);
      assert ns[..j][i] == ns[i];
    }
    forall k | !c.dead && 0 <= k < |outs| && outs[k].Submitted? && outs[k].order.owner == c.ownerId
      ensures exists i :: 0 <= i < |ms| && ns[i].id == outs[k].order.id && ms[i] == OrderAccepted(WireId(ns[i].id))
    {
      assert SubmittedIn(outs, outs[k].order.id, c.ownerId);
      AllAnnounced(outs, outs[k].order.id, c.ownerId);
      var i := AnnouncedWhere(ns, outs[k].order.id);
    }
  }

  lemma AnnouncedWhere(ns: seq<Notice>, id: nat) returns (i: nat)
    requires AnnouncedIn(ns, id)
    ensures i < |ns| && ns[i].id == id && ns[i].msg == OrderAccepted(WireId(id))
  {
    i :| 0 <= i < |ns| && ns[i].id == id && ns[i].msg == OrderAccepted(WireId(id));
  }

  /** The tape theorem: the TRADE messages ever queued to a connection are, as a sequence, the trades
      published while it listened to their instrument, or for a dead connection an initial part
      of those; what a live connection listens to is its subscriptions until it is closing; and
      every trade of the exchange is published, in order. */
  lemma TapeTold(batches: seq<seq<Event>>, evs: seq<Event>, c: Conn)
    requires Met(At(batches, evs), c)
    ensures var s := At(batches, evs);
            && s.published == Trades(Performed(s.reqs).outs)
            && Ticker(c.wire.queued) <= Tape(s.published, c.wire.marks)
            && (!c.dead ==>
                  && Ticker(c.wire.queued) == Tape(s.published, c.wire.marks)
                  && Tuned(c.wire.marks, |s.published|) == if c.closing then {} else c.subs)
  {
    hide At, Met, Performed, Business, Ticker, OnScript, Notices, Tape, Tuned, Trades, For;
    MetTold(batches, evs, c);
  }

  lemma {:induction false} TunedSince(marks: seq<Mark>, more: seq<Mark>, k: nat, at: nat)
    requires marks <= more && k < at && forall i :: |marks| <= i < |more| ==> more[i].at >= at
    ensures Tuned(more, k) == Tuned(marks, k)
    decreases |more|
  {
    if |more| > |marks| {
      TunedSince(marks, more[..|more| - 1], k, at);
    } else {
      assert more == marks;
    }
  }

  lemma {:induction false} TapeSince(published: seq<Trade>, marks: seq<Mark>, more: seq<Mark>, at: nat)
    requires |published| <= at && forall k: nat :: k < at ==> Tuned(more, k) == Tuned(marks, k)
    ensures Tape(published, more) == Tape(published, marks)
  {
    if published != [] {
      TapeSince(published[..|published| - 1], marks, more, at);
    }
  }

  /** The past of a tape is fixed: from any state on, whatever a connection does later, the marks say
      about every trade published before what they said then, and the tape of those trades
      stays as it was.  And what the marks of a live connection say about the next trade is what
      it listens to now, unless it changes that before the trade comes. */
  lemma TapeFixed(batches: seq<seq<Event>>, n: nat, c: Conn)
    requires n <= |batches| && Met(RunServer(batches[..n]).core, c)
    ensures var s, r := RunServer(batches[..n]).core, RunServer(batches).core;
            s.published <= r.published && exists d :: Met(r, d) && OnRecord(s, c, d)
  {
    hide RunServer, Met, Evolves, Later, Tape, Tuned, Follows;
    var s, r := RunServer(batches[..n]).core, RunServer(batches).core;
    NothingTakenBack(batches, n);
    FollowsOne(s, r, c);
    var d :| Met(r, d) && Proceeds(c, d, |s.published|);
    RecordKept(s, c, d);
    if !c.dead {
      NowTuned(batches[..n], c);
      ListensOn(s, c, d);
    }
    assert OnRecord(s, c, d);
  }

  lemma FollowsOne(s: State, r: State, c: Conn)
    requires Follows(s, r) && Met(s, c)
    ensures s.published <= r.published && Continued(r, c, |s.published|)
  {
  }

  /** What `d`, a later stage of `c`, has on record about the time of `s`. */
  ghost predicate OnRecord(s: State, c: Conn, d: Conn) {
    var now := |s.published|;
    && d.ownerId == c.ownerId
    && (forall k: nat :: k < now ==> Tuned(d.wire.marks, k) == Tuned(c.wire.marks, k))
    && Tape(s.published, d.wire.marks) == Tape(s.published, c.wire.marks)
    && (!c.dead && (forall i :: |c.wire.marks| <= i < |d.wire.marks| ==> d.wire.marks[i].at > now) ==>
          Tuned(d.wire.marks, now) == if c.closing then {} else c.subs)
  }

  lemma RecordKept(s: State, c: Conn, d: Conn)
    requires Proceeds(c, d, |s.published|)
    ensures d.ownerId == c.ownerId
    ensures forall k: nat :: k < |s.published| ==> Tuned(d.wire.marks, k) == Tuned(c.wire.marks, k)
    ensures Tape(s.published, d.wire.marks) == Tape(s.published, c.wire.marks)
  {
    hide Tape, Tuned;
    var now := |s.published|;
    forall k: nat | k < now
      ensures Tuned(d.wire.marks, k) == Tuned(c.wire.marks, k)
    {
      TunedSince(c.wire.marks, d.wire.marks, k, now);
    }
    TapeSince(s.published, c.wire.marks, d.wire.marks, now);
  }

  lemma NowTuned(batches: seq<seq<Event>>, c: Conn)
    requires Met(RunServer(batches).core, c) && !c.dead
    ensures Tuned(c.wire.marks, |RunServer(batches).core.published|) == if c.closing then {} else c.subs
  {
    hide RunServer, Met, Tape, Tuned, Ticker;
    TapeTold(batches, [], c);
    assert OnEvents(RunServer(batches), []) == RunServer(batches);
  }

  lemma ListensOn(s: State, c: Conn, d: Conn)
    requires Evolves(c, d)
    ensures (forall i :: |c.wire.marks| <= i < |d.wire.marks| ==> d.wire.marks[i].at > |s.published|) ==>
              Tuned(d.wire.marks, |s.published|) == Tuned(c.wire.marks, |s.published|)
  {
    hide Tuned;
    if forall i :: |c.wire.marks| <= i < |d.wire.marks| ==> d.wire.marks[i].at > |s.published| {
      TunedSince(c.wire.marks, d.wire.marks, |s.published|, |s.published| + 1);
    }
  }

  // ------------------------------------------------------------------ the exchange behind the server

  /** Ids are 0, 1, 2, ... with none skipped: the next serial number is the number of orders
      accepted. */
  lemma IdsInSequence(batches: seq<seq<Event>>, evs: seq<Event>)
    ensures At(batches, evs).store.count == Submits(At(batches, evs).reqs)
  {
    hide At, Told, IdsOk, NamesOk, OwnersOk, DeadOk, TableOk, ArchiveOk, AllOk, Performed;
    AtSound(batches, evs);
    PerformedKeeps(At(batches, evs).reqs);
  }

  /** In every reachable state in which no submit has clashed, and so in every one with at most 2^32
      accepted orders, the exchange has answered like the reference and holds exactly the
      resting orders of the reference. */
  lemma ExchangeIsBook(batches: seq<seq<Event>>, evs: seq<Event>)
    ensures var s := At(batches, evs);
            && (s.store.count <= ID_SPACE ==> Meant(s.reqs) == s.reqs && ClashFree(s.reqs))
            && (ClashFree(Meant(s.reqs)) ==>
                  && Performed(s.reqs).outs == Run(Meant(s.reqs)).outcomes
                  && Agrees(s.store, Run(Meant(s.reqs)).book))
  {
    hide At, Told, IdsOk, NamesOk, OwnersOk, DeadOk, TableOk, ArchiveOk, AllOk;
    hide Performed, Run, Meant, ClashFree, Agrees, LegalId, InRange, DistinctWire, Submits;
    AtSound(batches, evs);
    var s := At(batches, evs);
    RequestsLegal(s);
    IdsInSequence(batches, evs);
    if s.store.count <= ID_SPACE {
      EarlyRuns(s.reqs);
    }
    if ClashFree(Meant(s.reqs)) {
      RunAgrees(s.reqs);
    }
  }

  // ------------------------------------------------------------------ the input side

  /** Input over whole runs, whatever the chunks, wake-ups and other clients' events in between: the
      lines handed to `handle_line` are an initial part of the lines of the bytes received; all
      of them, with the unfinished rest in the buffer, while the connection is alive and not
      closing; and nobody whose lines fit is told that a line was too long. */
  lemma LinesInOrder(batches: seq<seq<Event>>, evs: seq<Event>, fd: int)
    requires fd in At(batches, evs).conns
    ensures var s, box := At(batches, evs), InboxAt(batches, evs, fd);
            && box.handed <= Lines(box.received)
            && (Attentive(s, fd) ==>
                  box.handed == Lines(box.received) && box.buf == Rest(box.received) && |box.buf| <= 65536)
            && (Fits(box.received) ==> ErrorMsg(LineTooLong) !in s.conns[fd].wire.queued)
  {
    hide Sound, Lines, Rest, Fits, OnEvents, RunServer;
    Reachable(batches, evs);
    var s, box := At(batches, evs), InboxAt(batches, evs, fd);
    assert BoxOk(s.conns[fd], box);
    if Attentive(s, fd) {
      Unfinished(box.buf);
      assert box.handed + [] == box.handed;
    }
  }

  /** So two connections, of the same run or of different ones, that have received the same bytes in
      whatever chunks have had the same lines handled. */
  lemma SameBytesSameLines(batches: seq<seq<Event>>, evs: seq<Event>, fd: int,
                           batches': seq<seq<Event>>, evs': seq<Event>, fd': int)
    requires Attentive(At(batches, evs), fd) && Attentive(At(batches', evs'), fd')
    requires InboxAt(batches, evs, fd).received == InboxAt(batches', evs', fd').received
    ensures InboxAt(batches, evs, fd) == InboxAt(batches', evs', fd')
  {
    hide Lines, Rest, Fits, At, InboxAt;
    LinesInOrder(batches, evs, fd);
    LinesInOrder(batches', evs', fd');
  }

  // ------------------------------------------------------------------ owners

  /** Owner ids are never given twice: two connections the server has or had with the same owner id
      are the same connection. */
  lemma OwnersUnique(batches: seq<seq<Event>>, evs: seq<Event>, c: Conn, d: Conn)
    requires Met(At(batches, evs), c) && Met(At(batches, evs), d) && c.ownerId == d.ownerId
    ensures c == d && 1 <= c.ownerId < At(batches, evs).nextOwner
  {
    hide At, Told, NamesOk, OwnersOk, DeadOk, TableOk, BookOk, AllOk, HasOwner, StreamOk;
    AtSound(batches, evs);
  }

  /** Every stored order belongs to somebody who logged in as a trader, connected or not. */
  lemma RestingOwners(batches: seq<seq<Event>>, evs: seq<Event>, w: nat)
    requires w in At(batches, evs).store.orders
    ensures KnownTrader(At(batches, evs), At(batches, evs).store.orders[w].owner)
  {
    hide At, Told, IdsOk, NamesOk, OwnersOk, DeadOk, TableOk, ArchiveOk, AllOk, KnownTrader, InRange;
    hide Performed, Keyed, Grounded, Numbered;
    AtSound(batches, evs);
    var s := At(batches, evs);
    PerformedKeeps(s.reqs);
    assert SubmittedIn(Performed(s.reqs).outs, s.store.orders[w].id, s.store.orders[w].owner);
  }

  // ------------------------------------------------------------------ end to end

  function Bodies(ms: seq<Msg>): seq<string> {
    seq(|ms|, i requires 0 <= i < |ms| => Body(ms[i]))
  }

  lemma {:induction false} UnlinesSnoc(ls: seq<string>, l: string)
    ensures Unlines(ls + [l]) == Unlines(ls) + (l + "\n")
  {
    if ls == [] {
      assert ls + [l] == [l] && [l][1..] == [];
    } else {
      assert (ls + [l])[1..] == ls[1..] + [l];
      UnlinesSnoc(ls[1..], l);
    }
  }

  lemma {:induction false} StreamUnlines(ms: seq<Msg>)
    ensures Stream(ms) == Unlines(Bodies(ms))
  {
    hide Body, Unlines;
    if ms == [] {
      assert Bodies(ms) == [];
      UnlinesNone();
    } else {
      var n := |ms| - 1;
      StreamUnlines(ms[..n]);
      UnlinesSnoc(Bodies(ms[..n]), Body(ms[n]));
      assert Bodies(ms) == Bodies(ms[..n]) + [Body(ms[n])];
    }
  }

  lemma UnlinesNone()
    ensures Unlines([]) == []
  {
  }

  lemma BodiesPlain(ms: seq<Msg>)
    ensures |Bodies(ms)| == |ms| && forall i :: 0 <= i < |ms| ==> Plain(Bodies(ms)[i])
  {
    hide Body;
    forall i | 0 <= i < |ms|
      ensures Plain(Bodies(ms)[i])
    {
      BodyClean(ms[i]);
    }
  }

  /** The lines of the bytes of a list of messages are the messages. */
  lemma StreamLines(ms: seq<Msg>)
    ensures Lines(Stream(ms)) == Bodies(ms)
  {
    hide Lines, Rest, Stream, Unlines, Bodies;
    StreamUnlines(ms);
    BodiesPlain(ms);
    SplitUnlines(Bodies(ms), []);
    assert Unlines(Bodies(ms)) + [] == Unlines(Bodies(ms));
  }

  lemma PrefixLines(p: string, q: string, all: string)
    requires p <= q <= all
    ensures Lines(p) <= Lines(all)
  {
    hide Lines, Rest;
    assert all == p + all[|p|..];
    SplitConcat(p, all[|p|..]);
  }

  /** End-to-end framing for one connection: whatever part of the sent bytes has arrived, in
      whatever chunks, the client has read an initial part of the messages queued to it, whole
      and in order; and all of them once all the bytes are there. */
  lemma Delivery(c: Conn, chunks: seq<string>)
    requires StreamOk(c) && Concat(chunks) <= c.wire.sent
    ensures Receive([], chunks).0 <= Bodies(c.wire.queued)
    ensures Concat(chunks) == c.wire.sent && (c.wire.drained || (!c.dead && c.out.Pending() == [])) ==>
              Receive([], chunks).0 == Bodies(c.wire.queued)
  {
    hide Lines, Rest, Stream, Bodies, Receive, Concat, OutBuf.Pending, OutBuf.Valid;
    var p, all := Concat(chunks), Stream(c.wire.queued);
    ReceiveAll([], chunks);
    assert [] + p == p;
    StreamLines(c.wire.queued);
    PrefixLines(p, c.wire.sent, all);
    assert !c.dead && c.out.Pending() == [] ==> c.wire.sent + c.out.Pending() == c.wire.sent;
  }

  /** End-to-end framing over whole runs, for connections that are in the table and for those that
      have been closed. */
  lemma EndToEnd(batches: seq<seq<Event>>, evs: seq<Event>, c: Conn, chunks: seq<string>)
    requires Met(At(batches, evs), c)
    requires Concat(chunks) <= c.wire.sent
    ensures Receive([], chunks).0 <= Bodies(c.wire.queued)
    ensures Concat(chunks) == c.wire.sent && (c.wire.drained || (!c.dead && c.out.Pending() == [])) ==>
              Receive([], chunks).0 == Bodies(c.wire.queued)
  {
    hide At, StreamOk, Told, IdsOk, NamesOk, OwnersOk, DeadOk, TableOk, BookOk, HasOwner, Receive, Bodies;
    AtSound(batches, evs);
    var s := At(batches, evs);
    if fd :| fd in s.conns && s.conns[fd] == c {
      assert ConnOk(s.conns[fd]);
    }
    Delivery(c, chunks);
  }

  // ------------------------------------------------------------------ what the client can add up

  lemma {:induction false} FillNoticesSane(taker: Order, fills: seq<Fill>, qty: nat)
    requires FillsWithin(fills, qty) && qty <= MAX_VALUE && MIN_VALUE <= taker.price <= MAX_VALUE
    ensures forall n :: n in FillNotices(taker, fills) ==> Sane(n.msg)
  {
    if fills != [] {
      FillNoticesSane(taker, fills[1..], qty);
    }
  }

  lemma {:induction false} NoticesSane(reqs: seq<Op>, outs: seq<Outcome>)
    requires |outs| == |reqs| && forall k :: 0 <= k < |reqs| ==> InRange(reqs[k]) && Fulfils(reqs[k], outs[k])
    ensures forall n :: n in Notices(outs) ==> Sane(n.msg)
    ensures forall t :: t in Trades(outs) ==> Sane(TradeMsg(t))
  {
    if outs != [] {
      var n := |outs| - 1;
      var o := outs[n];
      NoticesSane(reqs[..n], outs[..n]);
      assert Fulfils(reqs[n], o) && InRange(reqs[n]);
      if o.Submitted? {
        FillNoticesSane(o.order, o.fills, reqs[n].qty);
        assert forall t :: t in OutcomeTrades(o) ==> Sane(TradeMsg(t));
      }
    }
  }

  lemma {:induction false} TapeSane(published: seq<Trade>, marks: seq<Mark>)
    requires forall t :: t in published ==> Sane(TradeMsg(t))
    ensures forall m :: m in Tape(published, marks) ==> Sane(m)
  {
    if published != [] {
      TapeSane(published[..|published| - 1], marks);
    }
  }

  lemma {:induction false} InStream(ms: seq<Msg>, m: Msg)
    requires m in ms
    ensures IsBusiness(m) ==> m in Business(ms)
    ensures IsTicker(m) ==> m in Ticker(ms)
  {
    if m != ms[|ms| - 1] {
      InStream(ms[..|ms| - 1], m);
    }
  }

  /** Every message ever queued to anybody has its numbers in range: executions a quantity and a price
      from 1 to 2147483647, receipts a 32-bit id. */
  lemma MessagesInRange(batches: seq<seq<Event>>, evs: seq<Event>, c: Conn, m: Msg)
    requires Met(At(batches, evs), c) && m in c.wire.queued
    ensures Sane(m)
  {
    hide At, Met, Performed, Business, Ticker, Notices, For, Tape, Tuned, Trades, Sane, Fulfils, InRange;
    var s := At(batches, evs);
    var outs := Performed(s.reqs).outs;
    MetTold(batches, evs, c);
    PerformedWithin(s.reqs);
    RequestsInRange(batches, evs);
    NoticesSane(s.reqs, outs);
    TapeSane(s.published, c.wire.marks);
    InStream(c.wire.queued, m);
    if IsBusiness(m) {
      var all := For(c.ownerId, Notices(outs));
      var i :| 0 <= i < |Business(c.wire.queued)| && Business(c.wire.queued)[i] == m;
      ForMembers(c.ownerId, Notices(outs), all[i]);
    } else if !IsTicker(m) {
      PlainSane(m);
    }
  }

  lemma PlainSane(m: Msg)
    requires !IsBusiness(m) && !IsTicker(m)
    ensures Sane(m)
  {
  }

  lemma RequestsInRange(batches: seq<seq<Event>>, evs: seq<Event>)
    ensures forall k :: 0 <= k < |At(batches, evs).reqs| ==> InRange(At(batches, evs).reqs[k])
  {
    hide At, Told, IdsOk, NamesOk, OwnersOk, DeadOk, TableOk, ArchiveOk, AllOk, Performed, InRange;
    AtSound(batches, evs);
  }

  /** The total of the executions at `lv` that a client reads off the lines it has received. */
  function ReadTotal(lines: seq<string>, lv: Level): nat {
    if lines == [] then 0
    else
      ReadTotal(lines[..|lines| - 1], lv)
      + match ReadMsg(lines[|lines| - 1]) { case Some(m) => ReportedBy(m, lv) case None => 0 }
  }

  lemma {:induction false} ReadTotalBodies(ms: seq<Msg>, lv: Level)
    requires forall m :: m in ms ==> Sane(m)
    ensures ReadTotal(Bodies(ms), lv) == Reported(ms, lv)
  {
    hide ReadMsg, Body, Sane;
    if ms != [] {
      var n := |ms| - 1;
      ReadTotalBodies(ms[..n], lv);
      assert Bodies(ms)[..n] == Bodies(ms[..n]);
      ReadBack(ms[n]);
    }
  }

  /** Messages survive the wire: whatever part of the sent bytes has arrived, in whatever chunks, the
      client reads back the first so many messages queued to it, whole and in order. */
  lemma ClientReads(batches: seq<seq<Event>>, evs: seq<Event>, c: Conn, chunks: seq<string>)
    requires Met(At(batches, evs), c) && Concat(chunks) <= c.wire.sent
    ensures var lines := Receive([], chunks).0;
            && |lines| <= |c.wire.queued|
            && forall j :: 0 <= j < |lines| ==>
                 lines[j] == Body(c.wire.queued[j]) && ReadMsg(lines[j]) == Some(c.wire.queued[j])
  {
    hide At, Met, Receive, Concat, Body, ReadMsg, Sane;
    EndToEnd(batches, evs, c, chunks);
    var lines := Receive([], chunks).0;
    forall j | 0 <= j < |lines|
      ensures lines[j] == Body(c.wire.queued[j]) && ReadMsg(lines[j]) == Some(c.wire.queued[j])
    {
      MessagesInRange(batches, evs, c, c.wire.queued[j]);
      ReadBack(c.wire.queued[j]);
    }
  }

  /** From the bytes alone: a trader that has received everything sent to it reads off, at every
      instrument, side and price, exactly what it has traded, in whatever chunks the bytes came. */
  lemma ClientAddsUp(batches: seq<seq<Event>>, evs: seq<Event>, fd: int, chunks: seq<string>, lv: Level)
    requires LiveTrader(At(batches, evs), fd)
    requires var c := At(batches, evs).conns[fd]; c.out.Pending() == [] && Concat(chunks) == c.wire.sent
    ensures var s := At(batches, evs);
            ReadTotal(Receive([], chunks).0, lv) ==
            Traded(Trades(Performed(s.reqs).outs), lv, Only(s.conns[fd].ownerId))
  {
    hide At, Performed, Receive, Bodies, Concat, Traded, Trades, Reported, ReadTotal, Sane, ClashFree;
    var s := At(batches, evs);
    var c := s.conns[fd];
    assert Met(s, c);
    EndToEnd(batches, evs, c, chunks);
    forall m | m in c.wire.queued
      ensures Sane(m)
    {
      MessagesInRange(batches, evs, c, m);
    }
    ReadTotalBodies(c.wire.queued, lv);
    FillsAddUp(batches, evs, fd, lv);
  }

  // ------------------------------------------------------------------ cancelling one's own order

  lemma CancelDispatch(s: State, fd: int, w: nat)
    requires fd in s.conns
    ensures Tokens("CANCEL " + Decimal(w)) == ["CANCEL", Decimal(w)]
    ensures HandleLine(s, fd, "CANCEL " + Decimal(w)) == CmdCancel(s, fd, ["CANCEL", Decimal(w)])
  {
    hide CmdCancel, HandleLine, Tokens, Decimal;
    assert "CANCEL " == "CANCEL" + " ";
    NumberTokens("CANCEL", w);
    Dispatched(s, fd, "CANCEL " + Decimal(w));
  }

  /** A live trader's own stored order is cancelled by its CANCEL line if and only if its 32-bit id is
      at most 2147483647, the largest id that CANCEL accepts.  Ids go on beyond that, so an order
      with a larger one answers `bad order id` and stays. */
  lemma OwnOrderCancellable(s: State, fd: int, w: nat)
    requires Sound(s) && LiveTrader(s, fd) && w in s.store.orders && s.store.orders[w].owner == s.conns[fd].ownerId
    ensures var r := HandleLine(s, fd, "CANCEL " + Decimal(w));
            && (r.store.orders == s.store.orders - {w} <==> w <= MAX_ORDER_ID)
            && (w <= MAX_ORDER_ID ==> Performed(r.reqs).outs == Performed(s.reqs).outs + [Cancelled(s.store.orders[w])])
            && (w > MAX_ORDER_ID ==> r == Reply(s, fd, ErrorMsg(BadOrderId)) && r.store == s.store)
  {
    hide IdsOk, NamesOk, OwnersOk, DeadOk, TableOk, ArchiveOk, AllOk, Told;
    hide Tokens, Decimal, HandleLine, Reply, CancelOrder, Delisted, Performed, InRange;
    CancelDispatch(s, fd, w);
    ReplyExchange(s, fd, ErrorMsg(BadOrderId));
    if w <= MAX_ORDER_ID {
      ParsePrint(w, 0, MAX_ORDER_ID);
      CancelOrderExchange(s, fd, w);
      PerformedSnoc(s.reqs, Cancel(w, s.conns[fd].ownerId));
    } else {
      ValueDecimal(w);
    }
  }

  lemma {:induction false} BusinessIn(ms: seq<Msg>, m: Msg)
    requires m in Business(ms)
    ensures m in ms
  {
    var n := |ms| - 1;
    if m in Business(ms[..n]) {
      BusinessIn(ms[..n], m);
    }
  }

  /** The receipt works: a live trader that has received everything has, for each of its accepted
      orders, a line ORDER_ACCEPTED with a number; and if that order is still stored, CANCEL with
      the number as received takes out that very order if and only if it is at most
      2147483647. */
  lemma CancelByReceipt(batches: seq<seq<Event>>, evs: seq<Event>, fd: int, chunks: seq<string>, k: nat)
    requires LiveTrader(At(batches, evs), fd)
    requires var c := At(batches, evs).conns[fd]; c.out.Pending() == [] && Concat(chunks) == c.wire.sent
    requires var outs := Performed(At(batches, evs).reqs).outs;
             k < |outs| && outs[k].Submitted? && outs[k].order.owner == At(batches, evs).conns[fd].ownerId
    ensures var s, lines := At(batches, evs), Receive([], chunks).0;
            var o := Performed(s.reqs).outs[k].order;
            exists j :: 0 <= j < |lines| && ReceiptFor(s, fd, lines[j], o)
  {
    hide At, Performed, Receive, Concat, Business, Notices, For, Body, ReadMsg, WireId;
    var s := At(batches, evs);
    var c := s.conns[fd];
    var outs, lines := Performed(s.reqs).outs, Receive([], chunks).0;
    var o := outs[k].order;
    assert Met(s, c);
    AcceptedFirst(batches, evs, c);
    var ms, ns := Business(c.wire.queued), Transcript(outs, c.ownerId);
    var i :| 0 <= i < |ms| && ns[i].id == o.id && ms[i] == OrderAccepted(WireId(ns[i].id));
    BusinessIn(c.wire.queued, ms[i]);
    var j :| 0 <= j < |c.wire.queued| && c.wire.queued[j] == OrderAccepted(WireId(o.id));
    EndToEnd(batches, evs, c, chunks);
    assert lines[j] == Body(OrderAccepted(WireId(o.id)));
    AtSound(batches, evs);
    ReceiptWorks(s, fd, o);
  }

  /** The line announces order `o` under a number with which its owner can cancel it. */
  ghost predicate ReceiptFor(s: State, fd: int, line: string, o: Order)
    requires fd in s.conns
  {
    var ts := Tokens(line);
    && |ts| == 2 && ts[0] == "ORDER_ACCEPTED"
    && (forall w :: w in s.store.orders && s.store.orders[w].id == o.id && s.store.orders[w].owner == o.owner ==>
          (HandleLine(s, fd, "CANCEL " + ts[1]).store.orders == s.store.orders - {w} <==> w <= 2147483647))
  }

  lemma ReceiptWorks(s: State, fd: int, o: Order)
    requires Sound(s) && LiveTrader(s, fd) && o.owner == s.conns[fd].ownerId
    ensures ReceiptFor(s, fd, Body(OrderAccepted(WireId(o.id))), o)
  {
    hide Told, Registry, HandleLine, Tokens, Decimal, WireId, Performed, Reply;
    var n := WireId(o.id);
    assert "ORDER_ACCEPTED " == "ORDER_ACCEPTED" + " ";
    NumberTokens("ORDER_ACCEPTED", n);
    RegistryKeyed(s);
    forall w | w in s.store.orders && s.store.orders[w].id == o.id && s.store.orders[w].owner == o.owner
      ensures HandleLine(s, fd, "CANCEL " + Decimal(n)).store.orders == s.store.orders - {w} <==> w <= 2147483647
    {
      assert w == n;
      OwnOrderCancellable(s, fd, w);
    }
  }
}
