/** What the server as a whole keeps in every reachable state: registries, deferred teardown,
    descriptors, and the connections' own invariants. */
module ServerRegistry {
  import opened Wrappers
  import opened Book
  import opened ExchangeStore
  import opened Protocol
  import opened ServerSpec
  import opened ServerConns

  ghost predicate LiveTrader(s: State, fd: int) {
    Live(s, fd) && s.conns[fd].role == Trader
  }

  /** Connections know their descriptor; owner ids are distinct and already issued. */
  ghost predicate IdsOk(s: State) {
    && s.nextOwner >= 1
    && (forall fd :: fd in s.conns ==> s.conns[fd].fd == fd && 1 <= s.conns[fd].ownerId < s.nextOwner)
    && (forall fd, fd' :: fd in s.conns && fd' in s.conns && s.conns[fd].ownerId == s.conns[fd'].ownerId ==> fd == fd')
  }

  /** `usernames_` holds exactly the pairwise distinct, non-empty names of the live traders. */
  ghost predicate NamesOk(s: State) {
    && (forall fd :: fd in s.conns ==> (s.conns[fd].role == Trader <==> s.conns[fd].username != []))
    && (forall fd :: LiveTrader(s, fd) ==> s.conns[fd].username in s.usernames)
    && (forall u :: u in s.usernames ==> exists fd :: LiveTrader(s, fd) && s.conns[fd].username == u)
    && (forall fd, fd' :: LiveTrader(s, fd) && LiveTrader(s, fd') && s.conns[fd].username == s.conns[fd'].username ==>
          fd == fd')
  }

  /** `owner_fd_` maps exactly the live traders' owner ids to their own descriptors. */
  ghost predicate OwnersOk(s: State) {
    && (forall o :: o in s.ownerFd ==> LiveTrader(s, s.ownerFd[o]) && s.conns[s.ownerFd[o]].ownerId == o)
    && (forall fd :: LiveTrader(s, fd) ==> s.conns[fd].ownerId in s.ownerFd && s.ownerFd[s.conns[fd].ownerId] == fd)
  }

  /** `dead_` holds exactly the dead connections, each once. */
  ghost predicate DeadOk(s: State) {
    forall fd: int :: s.dead[fd] == if fd in s.conns && s.conns[fd].dead then 1 else 0
  }

  /** Subscriptions only on market-data connections, and an entry for exactly the open descriptors. */
  ghost predicate TableOk(s: State) {
    && (forall fd :: fd in s.conns && s.conns[fd].subs != {} ==> s.conns[fd].role == MarketData)
    && s.open == s.conns.Keys
  }

  /** Closed connections: dead, with owner ids that nobody else has or had. */
  ghost predicate ArchiveOk(s: State) {
    && (forall c :: c in s.archive ==> c.dead && StreamOk(c) && 1 <= c.ownerId < s.nextOwner)
    && (forall c, d :: c in s.archive && d in s.archive && c.ownerId == d.ownerId ==> c == d)
    && (forall c, fd :: c in s.archive && fd in s.conns ==> c.ownerId != s.conns[fd].ownerId)
    && (forall o :: 1 <= o < s.nextOwner ==> HasOwner(s, o))
  }

  /** Somebody was given owner id `o`. */
  ghost predicate HasOwner(s: State, o: int) {
    || (exists fd :: fd in s.conns && s.conns[fd].ownerId == o)
    || (exists c :: c in s.archive && c.ownerId == o)
  }

  /** Owner id `o` belongs, or belonged, to a logged-in trader. */
  ghost predicate KnownTrader(s: State, o: int) {
    || (exists fd :: fd in s.conns && s.conns[fd].ownerId == o && s.conns[fd].role == Trader)
    || (exists c :: c in s.archive && c.ownerId == o && c.role == Trader)
  }

  /** The exchange is the result of the requests so far, their numbers were in range, and only traders
      submitted any. */
  ghost predicate BookOk(s: State) {
    && s.store == Performed(s.reqs).store
    && (forall i :: 0 <= i < |s.reqs| ==> InRange(s.reqs[i]))
    && (forall i :: 0 <= i < |s.reqs| && s.reqs[i].Submit? ==> KnownTrader(s, s.reqs[i].owner))
  }

  /** What the gates of the server let through. */
  ghost predicate InRange(op: Op) {
    match op
    case Submit(_, _, qty, price, _) => MIN_VALUE <= qty <= MAX_VALUE && MIN_VALUE <= price <= MAX_VALUE
    case Cancel(id, _) => id <= MAX_ORDER_ID
  }

  ghost predicate AllOk(s: State) {
    forall fd :: fd in s.conns ==> ConnOk(s.conns[fd])
  }

  ghost predicate Registry(s: State) {
    && IdsOk(s) && NamesOk(s) && OwnersOk(s) && DeadOk(s) && TableOk(s) && ArchiveOk(s) && BookOk(s) && AllOk(s)
  }

  ghost predicate Proceeds(c: Conn, d: Conn, published: nat) {
    Evolves(c, d) && Later(c, d, published)
  }

  /** How the state may change between two reaps: no entry leaves the table, every connection only
      evolves (a dead one not at all), and histories only grow. */
  ghost predicate Ages(s: State, r: State) {
    && s.nextOwner <= r.nextOwner
    && s.reqs <= r.reqs
    && s.published <= r.published
    && s.store.count <= r.store.count
    && r.archive == s.archive
    && (forall fd :: fd in s.conns ==> fd in r.conns && Proceeds(s.conns[fd], r.conns[fd], |s.published|))
  }

  /** How a command may change it: the same, and nobody is told that a line was too long. */
  ghost predicate Advances(s: State, r: State) {
    && Ages(s, r)
    && (forall fd :: fd in s.conns && fd in r.conns && Complained(r.conns[fd]) ==> Complained(s.conns[fd]))
  }

  lemma AdvancesTransitive(a: State, b: State, c: State)
    requires Advances(a, b) && Advances(b, c)
    ensures Advances(a, c)
  {
    hide Complained;
    AgesTransitive(a, b, c);
  }

  lemma AgesTransitive(a: State, b: State, c: State)
    requires Ages(a, b) && Ages(b, c)
    ensures Ages(a, c)
  {
    forall fd | fd in a.conns
      ensures fd in c.conns && Proceeds(a.conns[fd], c.conns[fd], |a.published|)
    {
      EvolvesTransitive(a.conns[fd], b.conns[fd], c.conns[fd]);
      LaterTransitive(a.conns[fd], b.conns[fd], c.conns[fd], |a.published|, |b.published|);
    }
  }

  // ------------------------------------------------------------------ storing a connection

  /** The connection `fd` may be replaced by `d`. */
  ghost predicate Replaces(s: State, fd: int, d: Conn) {
    fd in s.conns && SameFace(s.conns[fd], d) && ConnOk(d) && (s.conns[fd].dead ==> d.dead)
  }

  lemma PutNames(s: State, fd: int, d: Conn)
    requires NamesOk(s) && Replaces(s, fd, d)
    ensures NamesOk(Put(s, fd, d))
  {
    var r := Put(s, fd, d);
    forall f | LiveTrader(r, f)
      ensures LiveTrader(s, f) && r.conns[f].username == s.conns[f].username
      ensures r.conns[f].username in r.usernames
    {
      assert LiveTrader(s, f);
    }
    forall u | u in r.usernames
      ensures exists f :: LiveTrader(r, f) && r.conns[f].username == u
    {
      var f :| LiveTrader(s, f) && s.conns[f].username == u;
      assert LiveTrader(r, f);
    }
  }

  lemma PutOwners(s: State, fd: int, d: Conn)
    requires IdsOk(s) && OwnersOk(s) && Replaces(s, fd, d)
    ensures IdsOk(Put(s, fd, d)) && OwnersOk(Put(s, fd, d))
  {
    var r := Put(s, fd, d);
    forall f | LiveTrader(r, f)
      ensures r.conns[f].ownerId in r.ownerFd && r.ownerFd[r.conns[f].ownerId] == f
    {
      assert LiveTrader(s, f);
    }
    forall o | o in r.ownerFd
      ensures LiveTrader(r, r.ownerFd[o]) && r.conns[r.ownerFd[o]].ownerId == o
    {
      assert LiveTrader(s, s.ownerFd[o]);
    }
  }

  ghost predicate KeepsRole(c: Conn, d: Conn) {
    d.ownerId == c.ownerId && (c.role == Trader ==> d.role == Trader)
  }

  lemma KeepsKnown(s: State, r: State)
    requires forall fd :: fd in s.conns ==> fd in r.conns && KeepsRole(s.conns[fd], r.conns[fd])
    requires r.archive == s.archive
    ensures forall o :: KnownTrader(s, o) ==> KnownTrader(r, o)
    ensures forall o :: HasOwner(s, o) ==> HasOwner(r, o)
  {
    forall o | KnownTrader(s, o)
      ensures KnownTrader(r, o)
    {
      if fd :| fd in s.conns && s.conns[fd].ownerId == o && s.conns[fd].role == Trader {
        assert KeepsRole(s.conns[fd], r.conns[fd]);
      }
    }
    forall o | HasOwner(s, o)
      ensures HasOwner(r, o)
    {
      if fd :| fd in s.conns && s.conns[fd].ownerId == o {
        assert KeepsRole(s.conns[fd], r.conns[fd]);
      }
    }
  }

  lemma PutAges(s: State, fd: int, d: Conn)
    requires Replaces(s, fd, d) && Proceeds(s.conns[fd], d, |s.published|)
    ensures Ages(s, Put(s, fd, d))
    ensures Answers(s.conns[fd], d) ==> Advances(s, Put(s, fd, d))
  {
    hide ConnOk, Complained;
  }

  lemma PutTable(s: State, fd: int, d: Conn)
    requires DeadOk(s) && TableOk(s) && AllOk(s) && Replaces(s, fd, d)
    ensures DeadOk(Put(s, fd, d)) && TableOk(Put(s, fd, d)) && AllOk(Put(s, fd, d))
  {
    hide ConnOk;
  }

  /** Everybody keeps owner and role, and nobody new was met. */
  lemma SameHistory(s: State, r: State)
    requires ArchiveOk(s) && BookOk(s)
    requires r == s.(conns := r.conns, usernames := r.usernames, ownerFd := r.ownerFd, dead := r.dead)
    requires r.conns.Keys == s.conns.Keys && (forall f :: f in s.conns ==> r.conns[f].ownerId == s.conns[f].ownerId)
    requires forall o :: KnownTrader(s, o) ==> KnownTrader(r, o)
    requires forall o :: HasOwner(s, o) ==> HasOwner(r, o)
    ensures ArchiveOk(r) && BookOk(r)
  {
    hide StreamOk, KnownTrader, HasOwner, InRange, Performed;
  }

  lemma PutHistory(s: State, fd: int, d: Conn)
    requires ArchiveOk(s) && BookOk(s) && Replaces(s, fd, d)
    ensures ArchiveOk(Put(s, fd, d)) && BookOk(Put(s, fd, d))
  {
    hide ConnOk, StreamOk, KnownTrader, HasOwner, ArchiveOk, BookOk;
    var r := Put(s, fd, d);
    KeepsKnown(s, r);
    SameHistory(s, r);
  }

  /** Anything done to one connection through `queue_out`, `try_flush` or `close_conn` keeps the
      server's invariant. */
  lemma PutKeeps(s: State, fd: int, d: Conn)
    requires Registry(s) && Replaces(s, fd, d)
    ensures Registry(Put(s, fd, d))
    ensures Proceeds(s.conns[fd], d, |s.published|) ==> Ages(s, Put(s, fd, d))
    ensures Answers(s.conns[fd], d) && Proceeds(s.conns[fd], d, |s.published|) ==> Advances(s, Put(s, fd, d))
  {
    hide IdsOk, NamesOk, OwnersOk, DeadOk, TableOk, ArchiveOk, BookOk, AllOk, Evolves, ConnOk, SameFace;
    PutNames(s, fd, d);
    PutOwners(s, fd, d);
    PutTable(s, fd, d);
    PutHistory(s, fd, d);
    if Proceeds(s.conns[fd], d, |s.published|) {
      PutAges(s, fd, d);
    }
  }

  lemma ReplyKeeps(s: State, fd: int, m: Msg)
    requires Registry(s) && fd in s.conns
    ensures Registry(Reply(s, fd, m)) && Ages(s, Reply(s, fd, m))
    ensures m != ErrorMsg(LineTooLong) ==> Advances(s, Reply(s, fd, m))
    ensures Reply(s, fd, m).conns == s.conns[fd := QueueOut(s.conns[fd], m)]
    ensures var r := Reply(s, fd, m); r.reqs == s.reqs && r.store == s.store && r.published == s.published
  {
    hide IdsOk, NamesOk, OwnersOk, DeadOk, TableOk, ArchiveOk, BookOk;
    QueueOutOk(s.conns[fd], m);
    PutKeeps(s, fd, QueueOut(s.conns[fd], m));
  }

  lemma CloseKeeps(s: State, fd: int)
    requires Registry(s) && fd in s.conns
    ensures Registry(Close(s, fd)) && Advances(s, Close(s, fd))
  {
    hide IdsOk, NamesOk, OwnersOk, DeadOk, TableOk, ArchiveOk, BookOk;
    if !s.conns[fd].dead {
      DropOk(s.conns[fd]);
      PutKeeps(s, fd, s.conns[fd].(dead := true));
    }
  }

  lemma FlushKeeps(s: State, fd: int)
    requires Registry(s) && fd in s.conns
    ensures Registry(FlushAt(s, fd)) && Advances(s, FlushAt(s, fd))
  {
    hide IdsOk, NamesOk, OwnersOk, DeadOk, TableOk, ArchiveOk, BookOk;
    FlushOk(s.conns[fd]);
    PutKeeps(s, fd, Flush(s.conns[fd]));
  }

  // ------------------------------------------------------------------ publishing

  lemma TellOk(c: Conn, t: Trade)
    requires ConnOk(c)
    ensures ConnOk(Tell(c, t)) && SameFace(c, Tell(c, t)) && Answers(c, Tell(c, t))
    ensures Tell(c, t).wire.marks == c.wire.marks
  {
    if Subscriber(c, t.inst) {
      QueueOutOk(c, Exec(TradeVerb, t.inst, t.qty, t.price));
    }
  }

  lemma BroadcastNone(s: State, t: Trade)
    ensures Broadcast(s, t, {}) == s
  {
    hide Tell;
    var r := Broadcast(s, t, {});
    assert Fallen(s, t, {}) == {};
    assert r.conns == s.conns;
    assert r.ownerFd == s.ownerFd;
  }

  lemma FallenStep(s: State, t: Trade, fds: set<int>, x: int)
    requires x in s.conns && x !in fds
    ensures Fallen(s, t, fds + {x}) ==
            Fallen(s, t, fds) + if !s.conns[x].dead && Tell(s.conns[x], t).dead then {x} else {}
    ensures x !in Fallen(s, t, fds)
  {
    hide Tell;
  }

  /** The names and owners of the connections that have died. */
  ghost function Names(s: State, t: Trade, fallen: set<int>): set<string>
    requires fallen <= s.conns.Keys
  {
    set fd | fd in fallen && Tell(s.conns[fd], t).username != [] :: Tell(s.conns[fd], t).username
  }

  ghost function Owners(s: State, t: Trade, fallen: set<int>): set<int>
    requires fallen <= s.conns.Keys
  {
    set fd | fd in fallen :: Tell(s.conns[fd], t).ownerId
  }

  lemma FallenMore(s: State, t: Trade, f: set<int>, x: int)
    requires f <= s.conns.Keys && x in s.conns && x !in f
    ensures Names(s, t, f + {x}) ==
            Names(s, t, f) + if Tell(s.conns[x], t).username != [] then {Tell(s.conns[x], t).username} else {}
    ensures Owners(s, t, f + {x}) == Owners(s, t, f) + {Tell(s.conns[x], t).ownerId}
    ensures multiset(f + {x}) == multiset(f) + multiset{x}
  {
    hide Tell;
  }

  lemma BroadcastIs(s: State, t: Trade, fds: set<int>)
    ensures var f, b := Fallen(s, t, fds), Broadcast(s, t, fds);
            && f <= s.conns.Keys
            && b.usernames == s.usernames - Names(s, t, f) && b.ownerFd == s.ownerFd - Owners(s, t, f)
            && b.dead == s.dead + multiset(f)
            && (forall x :: x in s.conns && x !in fds ==> b.conns[x] == s.conns[x])
  {
    hide Tell;
  }

  lemma PutRegs(s: State, fd: int, c: Conn)
    requires fd in s.conns
    ensures var r := Put(s, fd, c);
            if c.dead && !s.conns[fd].dead then
              && r.usernames == s.usernames - (if c.username != [] then {c.username} else {})
              && r.ownerFd == s.ownerFd - {c.ownerId} && r.dead == s.dead + multiset{fd}
            else r.usernames == s.usernames && r.ownerFd == s.ownerFd && r.dead == s.dead
  {
    assert s.usernames - {} == s.usernames;
  }

  lemma LessTwice<T, U>(a: set<T>, m: map<T, U>, b: set<T>, c: set<T>)
    ensures a - (b + c) == a - b - c
    ensures m - (b + c) == m - b - c
  {
  }

  lemma BroadcastRegs(s: State, t: Trade, fds: set<int>, x: int)
    requires x in s.conns && x !in fds
    ensures var b, r := Broadcast(s, t, fds + {x}), Put(Broadcast(s, t, fds), x, Tell(s.conns[x], t));
            b.usernames == r.usernames && b.ownerFd == r.ownerFd && b.dead == r.dead
  {
    hide Tell, Broadcast, Fallen, Names, Owners, Put;
    FallenStep(s, t, fds, x);
    BroadcastIs(s, t, fds);
    BroadcastIs(s, t, fds + {x});
    var f, c := Fallen(s, t, fds), Tell(s.conns[x], t);
    PutRegs(Broadcast(s, t, fds), x, c);
    if !s.conns[x].dead && c.dead {
      FallenMore(s, t, f, x);
      LessTwice<string, int>(s.usernames, map[], Names(s, t, f), if c.username != [] then {c.username} else {});
      LessTwice({}, s.ownerFd, Owners(s, t, f), {c.ownerId});
    } else {
      assert f + {} == f;
    }
  }

  /** The publish loop may visit the connections in any order: each visit is one `queue_out`. */
  lemma BroadcastStep(s: State, t: Trade, fds: set<int>, x: int)
    requires x in s.conns && x !in fds
    ensures Broadcast(s, t, fds + {x}) == Put(Broadcast(s, t, fds), x, Tell(s.conns[x], t))
  {
    hide Tell;
    BroadcastRegs(s, t, fds, x);
    var b, r := Broadcast(s, t, fds + {x}), Put(Broadcast(s, t, fds), x, Tell(s.conns[x], t));
    assert b.conns == r.conns;
  }

  lemma {:induction false} BroadcastKeeps(s: State, t: Trade, fds: set<int>)
    requires Registry(s) && fds <= s.conns.Keys
    ensures Registry(Broadcast(s, t, fds)) && Advances(s, Broadcast(s, t, fds))
    decreases fds
  {
    hide Registry, Tell;
    if fds != {} {
      var x := Witness(fds);
      var less := fds - {x};
      BroadcastKeeps(s, t, less);
      assert fds == less + {x};
      BroadcastStep(s, t, less, x);
      var b := Broadcast(s, t, less);
      assert b.conns[x] == s.conns[x];
      TellKeeps(b, x, t);
      AdvancesTransitive(s, b, Broadcast(s, t, fds));
    } else {
      BroadcastNone(s, t);
      AdvancesReflexive(s);
    }
  }

  lemma TellKeeps(s: State, fd: int, t: Trade)
    requires Registry(s) && fd in s.conns
    ensures Registry(Put(s, fd, Tell(s.conns[fd], t))) && Advances(s, Put(s, fd, Tell(s.conns[fd], t)))
  {
    hide IdsOk, NamesOk, OwnersOk, DeadOk, TableOk, ArchiveOk, BookOk, Tell;
    TellOk(s.conns[fd], t);
    PutKeeps(s, fd, Tell(s.conns[fd], t));
  }

  lemma AdvancesReflexive(s: State)
    ensures Advances(s, s)
  {
  }

  lemma NotifyKeeps(s: State, owner: int, m: Msg)
    requires Registry(s) && m != ErrorMsg(LineTooLong)
    ensures Registry(Notify(s, owner, m)) && Advances(s, Notify(s, owner, m))
  {
    hide Registry;
    AdvancesReflexive(s);
    if owner in s.ownerFd && Live(s, s.ownerFd[owner]) {
      ReplyKeeps(s, s.ownerFd[owner], m);
    }
  }

  lemma PublishKeeps(s: State, t: Trade)
    requires Registry(s)
    ensures Registry(Publish(s, t)) && Advances(s, Publish(s, t))
  {
    hide Notify, Broadcast, IdsOk, NamesOk, OwnersOk, DeadOk, TableOk, ArchiveOk, BookOk, AllOk, Ages, Complained;
    var s1 := Notify(s, t.buyer, Exec(Bought, t.inst, t.qty, t.price));
    var s2 := Notify(s1, t.seller, Exec(Sold, t.inst, t.qty, t.price));
    NotifyKeeps(s, t.buyer, Exec(Bought, t.inst, t.qty, t.price));
    NotifyKeeps(s1, t.seller, Exec(Sold, t.inst, t.qty, t.price));
    var s3 := Broadcast(s2, t, s2.conns.Keys);
    BroadcastKeeps(s2, t, s2.conns.Keys);
    AdvancesTransitive(s, s1, s2);
    AdvancesTransitive(s, s2, s3);
    PublishedKeeps(s, s3, t);
  }

  /** Recording the trade as published touches nothing else. */
  lemma PublishedKeeps(s: State, r: State, t: Trade)
    requires Registry(r) && Advances(s, r)
    ensures var p := r.(published := s.published + [t]); Registry(p) && Advances(s, p)
  {
    hide IdsOk, NamesOk, OwnersOk, DeadOk, TableOk, ArchiveOk, AllOk, Complained, Evolves;
    var p := r.(published := s.published + [t]);
    SameTableNames(r, p);
    SameTableRest(r, p);
    KnownSame(r, p);
  }

  lemma {:induction false} PublishAllKeeps(s: State, trades: seq<Trade>)
    requires Registry(s)
    ensures Registry(PublishAll(s, trades)) && Advances(s, PublishAll(s, trades))
    decreases |trades|
  {
    if trades == [] {
      AdvancesReflexive(s);
    } else {
      hide Registry, Advances, Publish;
      PublishKeeps(s, trades[0]);
      PublishAllKeeps(Publish(s, trades[0]), trades[1..]);
      AdvancesTransitive(s, Publish(s, trades[0]), PublishAll(s, trades));
    }
  }

  // ------------------------------------------------------------------ commands

  lemma LogInNames(s: State, fd: int, name: string)
    requires IdsOk(s) && NamesOk(s) && LoginReady(s, fd, name)
    ensures NamesOk(LogIn(s, fd, name))
  {
    hide ConnOk;
    var r := LogIn(s, fd, name);
    forall f
      ensures LiveTrader(r, f) <==> LiveTrader(s, f) || f == fd
    {
    }
    forall u | u in r.usernames
      ensures exists f :: LiveTrader(r, f) && r.conns[f].username == u
    {
      if u == name {
        assert LiveTrader(r, fd);
      } else {
        var f :| LiveTrader(s, f) && s.conns[f].username == u;
        assert LiveTrader(r, f);
      }
    }
  }

  /** A live connection without a role asks for a name that is not taken. */
  ghost predicate LoginReady(s: State, fd: int, name: string) {
    Live(s, fd) && s.conns[fd].role == Unknown && name != [] && name !in s.usernames
  }

  lemma LogInOwners(s: State, fd: int, name: string)
    requires IdsOk(s) && OwnersOk(s) && LoginReady(s, fd, name)
    ensures IdsOk(LogIn(s, fd, name)) && OwnersOk(LogIn(s, fd, name))
  {
    var r := LogIn(s, fd, name);
    forall f
      ensures LiveTrader(r, f) <==> LiveTrader(s, f) || f == fd
    {
    }
  }

  /** Connection `fd` takes on a new face `d`, and nothing else of the state changes but the
      registries of names. */
  ghost predicate NewFace(s: State, r: State, fd: int) {
    && fd in s.conns && fd in r.conns
    && r.conns == s.conns[fd := r.conns[fd]]
    && r == s.(conns := r.conns, usernames := r.usernames, ownerFd := r.ownerFd)
    && r.conns[fd].dead == s.conns[fd].dead
    && r.conns[fd].fd == s.conns[fd].fd
    && KeepsRole(s.conns[fd], r.conns[fd])
    && Answers(s.conns[fd], r.conns[fd])
    && Later(s.conns[fd], r.conns[fd], |s.published|)
    && ConnOk(r.conns[fd])
    && (r.conns[fd].subs != {} ==> r.conns[fd].role == MarketData)
  }

  lemma NewFaceTable(s: State, r: State, fd: int)
    requires IdsOk(s) && DeadOk(s) && TableOk(s) && AllOk(s) && NewFace(s, r, fd)
    ensures IdsOk(r) && DeadOk(r) && TableOk(r) && AllOk(r) && Advances(s, r)
  {
    hide ConnOk;
  }

  lemma NewFaceHistory(s: State, r: State, fd: int)
    requires ArchiveOk(s) && BookOk(s) && NewFace(s, r, fd)
    ensures ArchiveOk(r) && BookOk(r)
  {
    hide KnownTrader, HasOwner, ConnOk, StreamOk;
    KeepsKnown(s, r);
  }

  lemma LogInFace(s: State, fd: int, name: string)
    requires AllOk(s) && TableOk(s) && LoginReady(s, fd, name)
    ensures NewFace(s, LogIn(s, fd, name), fd)
  {
  }

  lemma LogInKeeps(s: State, fd: int, name: string)
    requires Registry(s) && LoginReady(s, fd, name)
    ensures Registry(LogIn(s, fd, name)) && Advances(s, LogIn(s, fd, name))
  {
    hide IdsOk, NamesOk, OwnersOk, DeadOk, TableOk, ArchiveOk, BookOk, AllOk, Advances;
    LogInNames(s, fd, name);
    LogInOwners(s, fd, name);
    LogInFace(s, fd, name);
    NewFaceTable(s, LogIn(s, fd, name), fd);
    NewFaceHistory(s, LogIn(s, fd, name), fd);
  }

  lemma SubscribeFace(s: State, fd: int, inst: Inst, on: bool)
    requires AllOk(s) && TableOk(s) && Live(s, fd) && s.conns[fd].role != Trader && s.conns[fd].username == []
    ensures NewFace(s, Subscribe(s, fd, inst, on), fd)
  {
  }

  lemma SameTraders(s: State, r: State)
    requires forall f :: LiveTrader(r, f) <==> LiveTrader(s, f)
    requires forall f :: f in s.conns <==> f in r.conns
    requires forall f :: f in s.conns ==>
               r.conns[f].username == s.conns[f].username && r.conns[f].ownerId == s.conns[f].ownerId
    requires forall f :: f in s.conns ==> (r.conns[f].role == Trader <==> s.conns[f].role == Trader)
    requires r.usernames == s.usernames && r.ownerFd == s.ownerFd && NamesOk(s) && OwnersOk(s)
    ensures NamesOk(r) && OwnersOk(r)
  {
  }

  lemma SubscribeKeeps(s: State, fd: int, inst: Inst, on: bool)
    requires Registry(s) && Live(s, fd) && s.conns[fd].role != Trader
    ensures Registry(Subscribe(s, fd, inst, on)) && Advances(s, Subscribe(s, fd, inst, on))
  {
    hide IdsOk, DeadOk, TableOk, ArchiveOk, BookOk, AllOk, Advances, NewFace;
    var r := Subscribe(s, fd, inst, on);
    SubscribeFace(s, fd, inst, on);
    NewFaceTable(s, r, fd);
    NewFaceHistory(s, r, fd);
    SameTraders(s, r);
  }

  // ------------------------------------------------------------------ the exchange

  lemma ExecuteKeeps(s: State, op: Op)
    requires Registry(s) && InRange(op) && (op.Submit? ==> KnownTrader(s, op.owner))
    ensures Registry(Execute(s, op)) && Advances(s, Execute(s, op))
  {
    hide IdsOk, NamesOk, OwnersOk, DeadOk, TableOk, ArchiveOk, AllOk, InRange, Performed, Perform;
    var r := Execute(s, op);
    SameTableNames(s, r);
    SameTableRest(s, r);
    PerformedSnoc(s.reqs, op);
    PerformCounts(s.store, op);
    KnownSame(s, r);
  }

  lemma PerformCounts(st: Store, op: Op)
    ensures st.count <= Perform(st, op).0.count
  {
    hide Sweep;
  }

  lemma KnownSame(s: State, r: State)
    requires r.conns == s.conns && r.archive == s.archive
    ensures forall o :: KnownTrader(s, o) <==> KnownTrader(r, o)
  {
  }

  /** Two states that differ in the exchange and the history of trades only. */
  ghost predicate SameTable(s: State, r: State) {
    r == s.(store := r.store, reqs := r.reqs, published := r.published)
  }

  lemma SameTableNames(s: State, r: State)
    requires SameTable(s, r) && IdsOk(s) && NamesOk(s) && OwnersOk(s)
    ensures IdsOk(r) && NamesOk(r) && OwnersOk(r)
  {
    assert forall f :: LiveTrader(r, f) <==> LiveTrader(s, f);
    SameTraders(s, r);
  }

  lemma SameTableRest(s: State, r: State)
    requires SameTable(s, r) && DeadOk(s) && TableOk(s) && ArchiveOk(s) && AllOk(s)
    ensures DeadOk(r) && TableOk(r) && ArchiveOk(r) && AllOk(r)
  {
    hide ConnOk, StreamOk;
    assert forall o :: HasOwner(s, o) <==> HasOwner(r, o);
  }

  lemma PlaceOrderKeeps(s: State, fd: int, op: Op)
    requires Registry(s) && fd in s.conns && s.conns[fd].role == Trader
    requires op.Submit? && op.owner == s.conns[fd].ownerId && InRange(op)
    ensures Registry(PlaceOrder(s, fd, op)) && Advances(s, PlaceOrder(s, fd, op))
  {
    hide Registry, Advances, PublishAll, Reply, Execute, Perform;
    var s1 := Execute(s, op);
    ExecuteKeeps(s, op);
    assert s1.conns == s.conns by { ExecuteSame(s, op); }
    var s2 := Reply(s1, fd, OrderAccepted(WireId(s.store.count)));
    ReplyKeeps(s1, fd, OrderAccepted(WireId(s.store.count)));
    PublishAllKeeps(s2, OutcomeTrades(Perform(s.store, op).1));
    AdvancesTransitive(s, s1, s2);
    AdvancesTransitive(s, s2, PlaceOrder(s, fd, op));
  }

  lemma ExecuteSame(s: State, op: Op)
    ensures Execute(s, op).conns == s.conns
  {
  }

  lemma CancelOrderKeeps(s: State, fd: int, w: nat)
    requires Registry(s) && fd in s.conns && w <= MAX_ORDER_ID
    ensures Registry(CancelOrder(s, fd, w)) && Advances(s, CancelOrder(s, fd, w))
  {
    hide Registry, Advances, Reply, Execute, Perform;
    var op := Cancel(w, s.conns[fd].ownerId);
    ExecuteKeeps(s, op);
    ExecuteSame(s, op);
    ReplyKeeps(Execute(s, op), fd, CancelReply(w, Perform(s.store, op).1));
    AdvancesTransitive(s, Execute(s, op), CancelOrder(s, fd, w));
  }

  /** Marking the connection and flushing it is one replacement of the connection. */
  lemma DrainAndCloseIsPut(s: State, fd: int)
    requires fd in s.conns
    ensures DrainAndClose(s, fd) == Put(s, fd, Flush(Shut(s.conns[fd], |s.published|)))
  {
    hide Flush;
    var c := Shut(s.conns[fd], |s.published|);
    assert s.conns[fd := c][fd := Flush(c)] == s.conns[fd := Flush(c)];
  }

  lemma DrainAndCloseKeeps(s: State, fd: int)
    requires Registry(s) && fd in s.conns
    ensures Registry(DrainAndClose(s, fd))
    ensures !s.conns[fd].dead ==> Advances(s, DrainAndClose(s, fd))
  {
    hide IdsOk, NamesOk, OwnersOk, DeadOk, TableOk, ArchiveOk, BookOk, DrainAndClose, Put;
    DrainAndCloseIsPut(s, fd);
    ClosingOk(s.conns[fd], |s.published|);
    PutKeeps(s, fd, Flush(Shut(s.conns[fd], |s.published|)));
  }

  lemma RegistryConns(s: State)
    requires Registry(s)
    ensures AllOk(s)
  {
  }

  lemma GiveUpKeeps(s: State, fd: int)
    requires Registry(s) && Live(s, fd)
    ensures Registry(GiveUp(s, fd)) && Ages(s, GiveUp(s, fd))
    ensures forall f :: f in s.conns && f != fd ==> GiveUp(s, fd).conns[f] == s.conns[f]
    ensures GiveUp(s, fd).conns[fd].closing
  {
    hide Registry, Reply, DrainAndClose, Flush;
    var s1 := Reply(s, fd, ErrorMsg(LineTooLong));
    ReplyKeeps(s, fd, ErrorMsg(LineTooLong));
    DrainAndCloseKeeps(s1, fd);
    DrainAndCloseIsPut(s1, fd);
    assert ConnOk(s1.conns[fd]) by { RegistryConns(s1); }
    ClosingOk(s1.conns[fd], |s1.published|);
    if s1.conns[fd].dead {
      var c, d := s.conns[fd], s1.conns[fd];
      assert GiveUp(s, fd) == Put(s1, fd, Shut(d, |s1.published|));
      assert Evolves(c, Shut(d, |s1.published|));
    } else {
      AgesTransitive(s, s1, GiveUp(s, fd));
    }
  }

  // ------------------------------------------------------------------ lines

  lemma ErrorsKeep(s: State, fd: int)
    requires Registry(s) && fd in s.conns
    ensures forall reason :: reason != LineTooLong ==>
              Registry(Reply(s, fd, ErrorMsg(reason))) && Advances(s, Reply(s, fd, ErrorMsg(reason)))
  {
    hide Registry, Advances, Reply;
    forall reason | reason != LineTooLong
      ensures Registry(Reply(s, fd, ErrorMsg(reason))) && Advances(s, Reply(s, fd, ErrorMsg(reason)))
    {
      ReplyKeeps(s, fd, ErrorMsg(reason));
    }
  }

  lemma CmdLoginKeeps(s: State, fd: int, tk: seq<string>)
    requires Registry(s) && Live(s, fd) && (|tk| == 2 ==> tk[1] != [])
    ensures Registry(CmdLogin(s, fd, tk)) && Advances(s, CmdLogin(s, fd, tk))
  {
    hide Registry, Reply, LogIn, Advances;
    var c := s.conns[fd];
    if |tk| == 2 && c.role == Unknown && tk[1] !in s.usernames {
      LogInKeeps(s, fd, tk[1]);
      ReplyKeeps(LogIn(s, fd, tk[1]), fd, OkMsg);
      AdvancesTransitive(s, LogIn(s, fd, tk[1]), CmdLogin(s, fd, tk));
    } else {
      ErrorsKeep(s, fd);
    }
  }

  lemma ParsedRange(t: string, lo: nat, hi: nat)
    ensures Parsed(t, lo, hi).Some? ==> lo <= Parsed(t, lo, hi).value <= hi
  {
  }

  lemma CmdOrderKeeps(s: State, fd: int, tk: seq<string>, side: Side)
    requires Registry(s) && Live(s, fd)
    ensures Registry(CmdOrder(s, fd, tk, side)) && Advances(s, CmdOrder(s, fd, tk, side))
  {
    hide Registry, Reply, PlaceOrder, Advances, Parsed;
    var c := s.conns[fd];
    if c.role == Trader && |tk| == 4 && Instrument(tk[1]).Some? && Parsed(tk[2], MIN_VALUE, MAX_VALUE).Some?
       && Parsed(tk[3], MIN_VALUE, MAX_VALUE).Some?
    {
      ParsedRange(tk[2], MIN_VALUE, MAX_VALUE);
      ParsedRange(tk[3], MIN_VALUE, MAX_VALUE);
      PlaceOrderKeeps(s, fd, Submit(side, Instrument(tk[1]).value, Parsed(tk[2], MIN_VALUE, MAX_VALUE).value,
                                    Parsed(tk[3], MIN_VALUE, MAX_VALUE).value, c.ownerId));
    } else {
      ErrorsKeep(s, fd);
    }
  }

  lemma CmdCancelKeeps(s: State, fd: int, tk: seq<string>)
    requires Registry(s) && Live(s, fd)
    ensures Registry(CmdCancel(s, fd, tk)) && Advances(s, CmdCancel(s, fd, tk))
  {
    hide Registry, Reply, CancelOrder, Advances, Parsed;
    var c := s.conns[fd];
    if c.role == Trader && |tk| == 2 && Parsed(tk[1], 0, MAX_ORDER_ID).Some? {
      ParsedRange(tk[1], 0, MAX_ORDER_ID);
      CancelOrderKeeps(s, fd, Parsed(tk[1], 0, MAX_ORDER_ID).value);
    } else {
      ErrorsKeep(s, fd);
    }
  }

  lemma CmdSubscribeKeeps(s: State, fd: int, tk: seq<string>, on: bool)
    requires Registry(s) && Live(s, fd)
    ensures Registry(CmdSubscribe(s, fd, tk, on)) && Advances(s, CmdSubscribe(s, fd, tk, on))
  {
    hide Registry, Reply, Subscribe, Advances;
    var c := s.conns[fd];
    if c.role != Trader && |tk| == 2 && Instrument(tk[1]).Some? {
      var s1 := Subscribe(s, fd, Instrument(tk[1]).value, on);
      SubscribeKeeps(s, fd, Instrument(tk[1]).value, on);
      ReplyKeeps(s1, fd, OkMsg);
      AdvancesTransitive(s, s1, CmdSubscribe(s, fd, tk, on));
    } else {
      ErrorsKeep(s, fd);
    }
  }

  /** Every line a live connection sends keeps the invariant. */
  lemma HandleLineKeeps(s: State, fd: int, line: string)
    requires Registry(s) && Live(s, fd)
    ensures Registry(HandleLine(s, fd, line)) && Advances(s, HandleLine(s, fd, line))
  {
    hide Registry, Reply, CmdLogin, CmdOrder, CmdCancel, CmdSubscribe, DrainAndClose, Advances, Tokens;
    var tk := Tokens(line);
    TokensAreWords(line);
    if tk == [] {
      AdvancesReflexive(s);
    } else {
      CmdLoginKeeps(s, fd, tk);
      CmdOrderKeeps(s, fd, tk, Buy);
      CmdOrderKeeps(s, fd, tk, Sell);
      CmdCancelKeeps(s, fd, tk);
      CmdSubscribeKeeps(s, fd, tk, true);
      CmdSubscribeKeeps(s, fd, tk, false);
      DrainAndCloseKeeps(s, fd);
      ReplyKeeps(s, fd, ErrorMsg(UnknownCommand));
    }
  }
}
