/** Concrete runs of the resolver in which properties fail whose exact conditions are stated
    with the methods that they use. */
module ResolverRuns {
  import opened Common
  import opened TimeArith
  import opened TcpFraming
  import opened QueryNet
  import opened Connection
  import opened Resolver
  import SearchList

  /** A datagram with a header and nothing else. */
  function Header(): seq<Byte> {
    [0, 0, 0, 0, 0, 0, 0, 0, 0, 0, 0, 0]
  }

  /** A world in which everything works and no name exists. */
  function AllGood(): World {
    World(_ => Made(Header()), _ => Header(), _ => InProgress, _ => Took(0), _ => false, (_, _) => Absent, (_, _) => false)
  }

  /** With n entries in the search list, and a reply to every datagram, the search ends with
      nxdomain if and only if its n + 1 names are at most fifteen. */
  method EveryReply(n: nat, bareFirst: bool)
    returns (ads: AdnsState, q: QueryId, ghost states: seq<Snapshot>, ghost events: seq<(Event, Timeval)>)
    ensures fresh(ads) && ads.Valid() && ads.cfg == Config(1, n)
    ensures ads.SearchSo(states, events, q, AllSaid(n + 1), 0x311f, if bareFirst then -1 else 0)
    ensures ads.IsOver(q, if n + 1 <= 15 then StNxDomain else StTimeout)
  {
    hide Consistent, SendOk, RecvOk, RetriesOk, SocketOk, AllGood, AdnsState.SearchSo, AdnsState.Asked, AdnsState.Verdict,
      AdnsState.SendsFit, AdnsState.NoNames, AdnsState.Said, AdnsState.Shows, AdnsState.Step, AdnsState.IsOver;
    ads := new AdnsState(Config(1, n), 3, AllGood());
    PlainWorld(ads);
    ads.AllAsked(0x311f, n + 1);
    SaidAll(AdnsState.Upto(AllSaid(n + 1), UDP_MAX_RETRIES));
    q, states, events := ads.SearchFor(bareFirst, AllSaid(n + 1), _ => 0, ZERO);
  }

  function AllSaid(n: nat): seq<Move> {
    seq(n, _ => NoSuch)
  }

  lemma {:induction false} SaidAll(moves: seq<Move>)
    requires forall i | 0 <= i < |moves| :: moves[i] == NoSuch
    ensures AdnsState.Said(moves) == |moves|
  {
    if moves != [] {
      SaidAll(moves[1..]);
    }
  }

  /** Fifteen entries in the search list are too many: the sixteenth name is never sent. */
  method SixteenNames(bareFirst: bool)
    returns (ads: AdnsState, q: QueryId, ghost states: seq<Snapshot>, ghost events: seq<(Event, Timeval)>)
    ensures ads.Valid() && ads.cfg.nservers > 0 && ads.cfg.nsearchlist == 15 && ads.IsOver(q, StTimeout)
    ensures ads.SearchSo(states, events, q, AllSaid(16), 0x311f, if bareFirst then -1 else 0)
  {
    hide AdnsState.SearchSo, AdnsState.IsOver;
    ads, q, states, events := EveryReply(15, bareFirst);
  }

  lemma PlainWorld(ads: AdnsState)
    requires ads.world == AllGood()
    ensures ads.SendsFit() && ads.NoNames() && Answering(ads.world) && forall k: nat :: ads.Packet(k).Made?
  {
    forall i: nat ensures GoodAfter(ads.world, i) {
      assert Good(ads.world, i);
    }
  }

  /** The reply that there is no such name, to the first packet of a run. */
  function NoName(): seq<Byte> {
    [0x31, 0x1f, 128, 3, 0, 1, 0, 0, 0, 0, 0, 0]
  }

  /** Every connection is refused at once. */
  function Refusing(): World {
    AllGood().(connect := _ => RefusedAtOnce)
  }

  /** The record of a query over TCP with its packet, and what becomes of it on tcpw. */
  function Packeted(id: nat): (u: Query)
    ensures u.retries == 0 && u.parent.None? && u.children == [] && u.useVc && u.id == id % 65536 && u.dgram == Header()
  {
    AdnsState.Virgin(External, false, true, 0, 0).(dgram := Header(), id := id % 65536)
  }

  function Joiner(ads: AdnsState, id: nat): (u: Query)
    ensures u.state == TcpWait && u.retries == 0 && u.parent.None? && u.children == [] && Sent(u, id % 65536)
  {
    hide Packeted, Header, AdnsState.TcpQueued;
    QueuedFields(ads, Packeted(id), ZERO);
    ads.TcpQueued(Packeted(id), ZERO)
  }

  lemma QueuedFields(ads: AdnsState, u: Query, now: Timeval)
    requires Normal(now)
    ensures ads.TcpQueued(u, now) == u.(state := TcpWait, timeout := ads.TcpQueued(u, now).timeout)
  {
    hide AddMs;
  }

  method SubmitTcp(ads: AdnsState) returns (q: QueryId)
    requires ads.Valid() && forall k: nat :: ads.world.mk(k) == Made(Header())
    modifies ads
    ensures ads.Valid() && q == old(ads.nextQuery) && ads.nextQuery == q + 1 && q !in old(ads.net).queries
    ensures ads.nextid == old(ads.nextid) + 1 && NoNewOverdue(old(ads.net), ads.net, ZERO)
    ensures ads.Connects(Enqueue(old(ads.net), q, Joiner(ads, old(ads.nextid))), old(ads.hist).past[q := Past(0, 0)], old(ads.tcpstate), old(ads.calls))
  {
    hide Consistent, SendOk, RecvOk, RetriesOk, SocketOk, AdnsState.Connects, AdnsState.StartJoins, AdnsState.StartedAs,
      OnlyTouches, AdnsState.FirstIds, NoNewOverdue, AdnsState.Virgin, Joiner, Enqueue;
    ghost var n, id, past, st, k := ads.net, ads.nextid, ads.hist.past, ads.tcpstate, ads.calls;
    OneName(ads, id);
    q := ads.Submit(false, true, false, None, 0, ZERO);
    PacketJoins(ads, n, q, id, past, st, k);
  }

  lemma PacketJoins(ads: AdnsState, n: Net, q: QueryId, id: nat, past: map<QueryId, Past>, st: TcpState, k: nat)
    requires forall k: nat :: ads.world.mk(k) == Made(Header())
    requires ads.StartJoins(WithQuery(n, q, AdnsState.Virgin(External, false, true, 0, 0)), q, None, id, past, st, ZERO, k)
    ensures ads.Connects(Enqueue(n, q, Joiner(ads, id)), past[q := Past(0, 0)], st, k)
  {
    hide AdnsState.Connects, AdnsState.StartJoins, AdnsState.TcpQueued, AdnsState.Moved;
    PlainPacket(ads, id);
    ads.StartedTcp(n, q, AdnsState.Virgin(External, false, true, 0, 0), id, past, st, ZERO, k);
  }

  lemma PlainPacket(ads: AdnsState, id: nat)
    requires forall k: nat :: ads.world.mk(k) == Made(Header())
    ensures ads.Packet(id) == Made(Header())
    ensures var u := AdnsState.Virgin(External, false, true, 0, 0);
      ads.Moved(u, 0) == u && u.(dgram := Header(), id := id % 65536) == Packeted(id)
  {
    hide AdnsState.Virgin;
  }

  lemma OneName(ads: AdnsState, id: nat)
    ensures ads.FirstIds(AdnsState.Virgin(External, false, true, 0, 0), None, id) == 1
  {
  }

  /** One more query over TCP while every server refuses at once. */
  method SubmitRefused(ads: AdnsState) returns (q: QueryId)
    requires ads.Valid() && ads.world == Refusing() && ads.tcpstate == Disconnected
    modifies ads
    ensures ads.Valid() && q == old(ads.nextQuery) && ads.nextQuery == q + 1 && ads.tcpstate == Disconnected
    ensures ads.net.tcpw == old(ads.net.tcpw) + [q]
    ensures Retried(old(ads.net), ads.net, q, ads.cfg.nservers)
  {
    hide Consistent, SendOk, RecvOk, RetriesOk, SocketOk, ChargedTimes, Retried, AdnsState.Connects, Refusing, Joiner;
    ghost var n, id := ads.net, ads.nextid;
    Starting(ads);
    q := SubmitTcp(ads);
    RefusedConnects(ads, Enqueue(n, q, Joiner(ads, id)), old(ads.hist).past[q := Past(0, 0)], old(ads.calls));
    AllRetried(n, q, Joiner(ads, id), ads.cfg.nservers);
  }

  lemma Starting(ads: AdnsState)
    requires ads.Valid() && ads.world == Refusing()
    ensures (forall x | x in ads.net.tcpw :: x in ads.net.queries) && forall k: nat :: ads.world.mk(k) == Made(Header())
  {
  }

  lemma RefusedConnects(ads: AdnsState, j: Net, past: map<QueryId, Past>, k: nat)
    requires ads.world == Refusing() && ads.Connects(j, past, Disconnected, k)
    ensures ads.tcpstate == Disconnected && ads.net == ChargedTimes(j, ads.cfg.nservers)
  {
    hide ChargedTimes;
    assert ads.RefusedFrom(k, ads.cfg.nservers);
  }

  /** Since n, where q was not yet there, each query on tcpw has been retried k times. */
  ghost predicate Retried(n: Net, m: Net, q: QueryId, k: nat) {
    && (forall x | x in n.tcpw :: x in n.queries && x in m.queries && m.queries[x].retries == n.queries[x].retries + k)
    && q in m.queries && m.queries[q].retries == k
  }

  lemma AllRetried(n: Net, q: QueryId, u: Query, k: nat)
    requires (forall x | x in n.tcpw :: x in n.queries) && q !in n.queries && u.state == TcpWait && u.retries == 0
    ensures Retried(n, ChargedTimes(Enqueue(n, q, u), k), q, k)
    ensures ChargedTimes(Enqueue(n, q, u), k).tcpw == n.tcpw + [q]
  {
    var j := Enqueue(n, q, u);
    ChargedTimesRetries(j, k, q);
    forall x | x in n.tcpw
      ensures x in ChargedTimes(j, k).queries && ChargedTimes(j, k).queries[x].retries == n.queries[x].retries + k
    {
      ChargedTimesRetries(j, k, x);
    }
  }

  /** With a single server that refuses at once, the third query over TCP takes the first one
      past the bound of check.c. */
  method RefusedThrice() returns (ads: AdnsState)
    ensures ads.Valid() && ads.cfg.nservers == 1 && ads.tcpstate == Disconnected && ads.net.tcpw == [0, 1, 2]
    ensures 0 in ads.net.queries && ads.net.queries[0].retries == 3 && ads.world == Refusing() && fresh(ads)
  {
    hide Consistent, SendOk, RecvOk, RetriesOk, SocketOk, Refusing;
    ads := new AdnsState(Config(1, 0), 3, Refusing());
    var a := SubmitRefused(ads);
    assert 0 in ads.net.tcpw;
    var b := SubmitRefused(ads);
    assert 0 in ads.net.tcpw;
    var c := SubmitRefused(ads);
  }

  /** And after that the loop of tcp_events never ends. */
  method NeverUp(rounds: nat) returns (ads: AdnsState)
    ensures ads.Valid() && ads.tcpstate == Disconnected && ads.net.tcpw == [0, 1, 2] && ads.calls >= rounds
  {
    ads := RefusedThrice();
    ads.DialForever(ZERO, rounds);
  }

  /** All connections take their time and come up, and then all writes fail. */
  function Failing(): World {
    AllGood().(writev := _ => HardError)
  }

  /** Nobody fails to connect at once, and there are packets for all names. */
  ghost predicate Dials(w: World) {
    (forall k: nat :: w.connect(k) == InProgress) && forall k: nat :: w.mk(k) == Made(Header())
  }

  lemma FailingDials()
    ensures Dials(Failing()) && Answering(Failing()) && NoRefusals(Failing()) && forall k: nat :: Failing().writev(k) == HardError
  {
    forall i: nat ensures GoodAfter(Failing(), i) {
      assert Good(Failing(), i);
    }
  }

  /** The query q of the user waits for TCP with so many retries and connections behind it. */
  ghost predicate Waits(ads: AdnsState, q: QueryId, retries: nat, cycles: nat, skipped: nat)
    reads ads
  {
    q in ads.net.tcpw && q in ads.net.queries && Loner(ads.net, q) && ads.net.queries[q].retries == retries &&
    q in ads.hist.past && ads.hist.past[q] == Past(cycles, skipped)
  }

  /** One more query over TCP, for the connection that takes its time. */
  method SubmitWaiting(ads: AdnsState) returns (q: QueryId)
    requires ads.Valid() && Dials(ads.world) && AdnsState.OnTime(ads.net, ZERO)
    requires ads.tcpstate == Connecting || (ads.tcpstate == Disconnected && ads.calls == 0)
    modifies ads
    ensures ads.Valid() && q == old(ads.nextQuery) && ads.nextQuery == q + 1 && ads.tcpstate == Connecting && AdnsState.OnTime(ads.net, ZERO)
    ensures ads.nextid == old(ads.nextid) + 1 && ads.calls == if old(ads.tcpstate) == Connecting then old(ads.calls) else 1
    ensures q !in old(ads.net).queries && ads.net == Enqueue(old(ads.net), q, Joiner(ads, old(ads.nextid)))
    ensures ads.hist.past == old(ads.hist).past[q := Past(0, 0)]
  {
    hide Consistent, SendOk, RecvOk, RetriesOk, SocketOk, AdnsState.Connects, Joiner, NoNewOverdue, AdnsState.OnTime;
    ghost var n, id := ads.net, ads.nextid;
    q := SubmitTcp(ads);
    SlowConnects(ads, Enqueue(n, q, Joiner(ads, id)), old(ads.hist).past[q := Past(0, 0)], old(ads.tcpstate), old(ads.calls));
    StillOnTime(n, ads.net);
  }

  lemma StillOnTime(n: Net, m: Net)
    requires NoNewOverdue(n, m, ZERO) && AdnsState.OnTime(n, ZERO)
    ensures AdnsState.OnTime(m, ZERO)
  {
    assert Overdue(m, m.udpw, ZERO) <= Overdue(n, n.udpw, ZERO);
    assert Overdue(m, m.tcpw, ZERO) <= Overdue(n, n.tcpw, ZERO);
  }

  lemma SlowConnects(ads: AdnsState, j: Net, past: map<QueryId, Past>, st: TcpState, k: nat)
    requires Dials(ads.world) && ads.Connects(j, past, st, k) && (st == Connecting || (st == Disconnected && k == 0))
    ensures ads.tcpstate == Connecting && ads.net == j && ads.hist.past == past && ads.calls == if st == Connecting then k else 1
  {
    hide ChargedTimes;
  }

  /** Two queries over TCP, for a connection that is on its way. */
  method BothJoined(w: World) returns (ads: AdnsState)
    requires Dials(w)
    ensures fresh(ads) && ads.Valid() && ads.world == w && ads.cfg == Config(1, 0) && AdnsState.OnTime(ads.net, ZERO)
    ensures ads.tcpstate == Connecting && ads.calls == 1 && ads.net.tcpw == [0, 1]
    ensures Waits(ads, 0, 0, 0, 0) && Waits(ads, 1, 0, 0, 0)
    ensures ads.net.queries[0] == Joiner(ads, 0x311f) && ads.net.queries[1] == Joiner(ads, 0x3120)
  {
    hide Consistent, SendOk, RecvOk, RetriesOk, SocketOk, Joiner, Dials;
    ads := new AdnsState(Config(1, 0), 3, w);
    var a := SubmitWaiting(ads);
    var b := SubmitWaiting(ads);
  }

  /** The connection comes up, only to fail in the turn of the first query. */
  method UpAndDown(ads: AdnsState)
    requires ads.Valid() && ads.world == Failing() && ads.tcpstate == Connecting && ads.net.tcpw != [] && AdnsState.OnTime(ads.net, ZERO)
    modifies ads
    ensures ads.Valid() && ads.HeadFailed(old(ads.net), old(ads.hist)) && AdnsState.OnTime(ads.net, ZERO)
  {
    hide Consistent, SendOk, RecvOk, RetriesOk, SocketOk, Charged, Broke, Failing, AdnsState.HeadFailed, NoNewOverdue,
      AdnsState.OnTime, AdnsState.FramedAll, OnlyTouches, OnlyRetries, AdnsState.HeadCharged, AdnsState.Fell,
      AdnsState.Drained;
    FailingDials();
    ghost var n := ads.net;
    ads.ProcessWriteable(ads.tcpsocket, NothingYet, [], ZERO);
    StillOnTime(n, ads.net);
  }

  /** The sweep after that, and the next attempt at a connection. */
  method DialAgain(ads: AdnsState)
    requires ads.Valid() && ads.world == Failing() && ads.tcpstate == Broken && AdnsState.OnTime(ads.net, ZERO)
    modifies ads
    ensures ads.Valid() && ads.Redialled(old(ads.net), old(ads.hist).past, old(ads.calls), ZERO) && AdnsState.OnTime(ads.net, ZERO)
  {
    hide Consistent, SendOk, RecvOk, RetriesOk, SocketOk, Failing, AdnsState.Redialled, NoNewOverdue, AdnsState.TimedAll;
    FailingDials();
    ads.ProcessTimeouts(ZERO);
  }

  /** The first query of two pays; for the second it was a connection before its turn. */
  lemma HeadPays(ads: AdnsState, n: Net, h: History)
    requires ads.HeadFailed(n, h) && n.tcpw == [0, 1] && Loner(n, 0) && Loner(n, 1) && 0 in h.past && 1 in h.past
    ensures ads.tcpstate == Broken && ads.net.tcpw == [0, 1]
    ensures Waits(ads, 0, n.queries[0].retries + 1, h.past[0].cycles + 1, h.past[0].skipped)
    ensures Waits(ads, 1, n.queries[1].retries, h.past[1].cycles + 1, h.past[1].skipped + 1)
  {
    assert n.tcpw[1..] == [1];
  }

  lemma LastPays(ads: AdnsState, n: Net, h: History)
    requires ads.HeadFailed(n, h) && n.tcpw == [1] && Loner(n, 1) && 1 in h.past
    ensures ads.tcpstate == Broken && Waits(ads, 1, n.queries[1].retries + 1, h.past[1].cycles + 1, h.past[1].skipped)
  {
  }

  /** The two queries wait; the first has paid for every connection so far, the second for none. */
  ghost predicate BothWait(ads: AdnsState, k: nat)
    reads ads
  {
    ads.net.tcpw == [0, 1] && Waits(ads, 0, k, k, 0) && Waits(ads, 1, 0, k, k)
  }

  method FirstPays(ads: AdnsState, ghost k: nat)
    requires ads.Valid() && ads.world == Failing() && ads.tcpstate == Connecting && BothWait(ads, k) && AdnsState.OnTime(ads.net, ZERO)
    modifies ads
    ensures ads.Valid() && ads.tcpstate == Broken && BothWait(ads, k + 1) && AdnsState.OnTime(ads.net, ZERO)
  {
    hide Consistent, SendOk, RecvOk, RetriesOk, SocketOk, Failing, AdnsState.HeadFailed, AdnsState.OnTime, Loner;
    ghost var n, h := ads.net, ads.hist;
    UpAndDown(ads);
    HeadPays(ads, n, h);
  }

  lemma NobodySwept(ads: AdnsState, n: Net, past: map<QueryId, Past>, k: nat)
    requires ads.Redialled(n, past, k, ZERO) && ads.cfg.nservers == 1 && n.tcpw == [0, 1]
    requires 0 in n.queries && n.queries[0].retries <= 1 && 1 in n.queries && n.queries[1].retries <= 1
    ensures ads.net == n && ads.hist.past == past && ads.tcpstate == Connecting
  {
  }

  lemma FirstSwept(ads: AdnsState, n: Net, past: map<QueryId, Past>, k: nat)
    requires ads.Redialled(n, past, k, ZERO) && ads.cfg.nservers == 1 && n.tcpw == [0, 1] && NoDup(ads.net.tcpw)
    requires 0 in n.queries && n.queries[0].retries == 2 && Loner(n, 1) && n.queries[1].retries == 0
    ensures ads.net.tcpw == [1] && Loner(ads.net, 1) && ads.net.queries[1] == n.queries[1]
    ensures ads.hist.past == past && ads.tcpstate == Connecting
  {
    assert 1 in n.tcpw;
    assert Stays(n, ads.net, 1);
    forall x | x in ads.net.tcpw ensures x == 1 {
      assert x in n.tcpw;
    }
    AdnsState.OnlyOne(ads.net.tcpw, 1);
  }

  /** Two queries over TCP, and two connections that are up only to fail. */
  method PaysTwice() returns (ads: AdnsState)
    ensures fresh(ads) && ads.Valid() && ads.world == Failing() && ads.cfg == Config(1, 0)
    ensures ads.tcpstate == Broken && BothWait(ads, 2) && AdnsState.OnTime(ads.net, ZERO)
  {
    hide Consistent, SendOk, RecvOk, RetriesOk, SocketOk, Failing, AdnsState.Redialled, AdnsState.OnTime, Loner, Joiner, Dials;
    FailingDials();
    ads := BothJoined(Failing());
    FirstPays(ads, 0);
    ghost var n, past, k := ads.net, ads.hist.past, ads.calls;
    DialAgain(ads);
    NobodySwept(ads, n, past, k);
    FirstPays(ads, 1);
  }

  /** With failing writes alone a query outlives more than nservers plus one connections: here
      three with one server, and it has been retried once. */
  method Outlives() returns (ads: AdnsState)
    ensures ads.Valid() && ads.cfg.nservers == 1 && NoRefusals(ads.world) && ads.tcpstate == Broken
    ensures Waits(ads, 1, 1, 3, 2)
  {
    hide Consistent, SendOk, RecvOk, RetriesOk, SocketOk, Failing, AdnsState.HeadFailed, AdnsState.Redialled,
      AdnsState.OnTime, Loner;
    FailingDials();
    ads := PaysTwice();
    ghost var n, past, k := ads.net, ads.hist.past, ads.calls;
    DialAgain(ads);
    ads.QueueFacts({});
    FirstSwept(ads, n, past, k);
    ghost var m, h := ads.net, ads.hist;
    UpAndDown(ads);
    LastPays(ads, m, h);
  }

  /** The record of a search that has just joined tcpw with its bare name. */
  ghost function Searcher(ads: AdnsState): Query
    requires ads.cfg == Config(1, 1)
  {
    ads.TcpQueued(AdnsState.Virgin(External, true, true, -1, 0).(searchDoneAbs := 1, dgram := Header(), id := 0x311f), ZERO)
  }

  /** A search over TCP that waits for the answer to its bare name. */
  ghost predicate Ripe(u: Query) {
    u.state == TcpWait && u.search && u.searchPos == 0 && u.searchDoneAbs == 1 && u.id == 0x311f && u.dgram == Header()
  }

  /** A search over TCP whose connection is on its way. */
  method SearchDialled() returns (ads: AdnsState)
    ensures fresh(ads) && ads.Valid() && ads.world == AllGood() && ads.cfg == Config(1, 1)
    ensures ads.tcpstate == Connecting && ads.net.tcpw == [0] && 0 in ads.net.queries && Ripe(ads.net.queries[0])
  {
    hide Consistent, SendOk, RecvOk, RetriesOk, SocketOk, AllGood, AdnsState.StartJoins, AdnsState.StartedAs,
      AdnsState.Connects, Searcher;
    ads := new AdnsState(Config(1, 1), 3, AllGood());
    ghost var n, past := ads.net, ads.hist.past;
    var q := ads.Submit(true, true, true, None, 0, ZERO);
    Dialled(ads, n, past);
  }

  lemma Dialled(ads: AdnsState, n: Net, past: map<QueryId, Past>)
    requires ads.world == AllGood() && ads.cfg == Config(1, 1) && n.tcpw == []
    requires ads.StartJoins(WithQuery(n, 0, AdnsState.Virgin(External, true, true, -1, 0)), 0, None, 0x311f, past, Disconnected, ZERO, 0)
    ensures ads.tcpstate == Connecting && ads.net.tcpw == [0] && 0 in ads.net.queries && Ripe(ads.net.queries[0])
  {
    hide AdnsState.StartJoins, AdnsState.Connects, AllGood, AdnsState.Packet, AdnsState.Moved, AdnsState.TcpQueued, Searcher;
    BareFirst(ads);
    SearcherIsRipe(ads);
    ads.StartedTcp(n, 0, AdnsState.Virgin(External, true, true, -1, 0), 0x311f, past, Disconnected, ZERO, 0);
    GoodConnects(ads, Enqueue(n, 0, Searcher(ads)), past[0 := Past(0, 0)]);
  }

  /** A search over TCP whose connection is up. */
  method SearchOverTcp() returns (ads: AdnsState)
    ensures fresh(ads) && ads.Valid() && ads.world == AllGood() && ads.cfg == Config(1, 1)
    ensures ads.tcpstate == Connected && ads.tcprecv == [] && ads.net.tcpw == [0]
    ensures 0 in ads.net.queries && Ripe(ads.net.queries[0])
  {
    hide Consistent, SendOk, RecvOk, RetriesOk, SocketOk, AllGood;
    ads := SearchDialled();
    GoodWorld();
    ads.ProcessWriteable(ads.tcpsocket, NothingYet, [], ZERO);
  }

  lemma BareFirst(ads: AdnsState)
    requires ads.world == AllGood() && ads.cfg == Config(1, 1)
    ensures ads.Packet(0x311f) == Made(Header()) && SearchList.Next(0, -1, 1).Some?
    ensures var u := AdnsState.Virgin(External, true, true, -1, 0);
      ads.TcpQueued(ads.Moved(u, 1).(dgram := Header(), id := 0x311f % 65536), ZERO) == Searcher(ads)
  {
    hide AdnsState.Packet, AdnsState.Moved, AllGood, AdnsState.TcpQueued;
    PacketIs(ads, 0x311f);
    FirstMove(ads, AdnsState.Virgin(External, true, true, -1, 0));
  }

  lemma SearcherIsRipe(ads: AdnsState)
    requires ads.cfg == Config(1, 1)
    ensures Ripe(Searcher(ads))
  {
    hide AdnsState.TcpQueued, Ripe, AdnsState.Virgin, Header;
    BareRecord();
    QueuedIsRipe(ads, AdnsState.Virgin(External, true, true, -1, 0).(searchDoneAbs := 1, dgram := Header(), id := 0x311f));
  }

  lemma BareRecord()
    ensures var u := AdnsState.Virgin(External, true, true, -1, 0); u.search && u.searchPos == 0
  {
  }

  lemma QueuedIsRipe(ads: AdnsState, u: Query)
    requires u.search && u.searchPos == 0 && u.searchDoneAbs == 1 && u.id == 0x311f && u.dgram == Header()
    ensures Ripe(ads.TcpQueued(u, ZERO))
  {
  }

  lemma PacketIs(ads: AdnsState, k: nat)
    requires ads.world == AllGood()
    ensures ads.Packet(k) == Made(Header())
  {
  }

  lemma FirstMove(ads: AdnsState, u: Query)
    requires ads.cfg == Config(1, 1) && u == AdnsState.Virgin(External, true, true, -1, 0)
    ensures ads.Moved(u, 1) == u.(searchDoneAbs := 1)
  {
  }

  lemma GoodWorld()
    ensures (forall k: nat :: AllGood().mk(k) == Made(Header())) && NoHardErrors(AllGood())
  {
  }

  lemma GoodConnects(ads: AdnsState, j: Net, past: map<QueryId, Past>)
    requires ads.world == AllGood() && ads.Connects(j, past, Disconnected, 0)
    ensures ads.tcpstate == Connecting && ads.net == j
  {
    hide ChargedTimes;
  }

  /** The reply that there is no such name trips the assertion at the top of adns__query_send:
      adns__search_next leaves the query in the state in which it waited for TCP. */
  method SearchFails() returns (ads: AdnsState, aborted: bool)
    ensures aborted
  {
    hide Consistent, SendOk, RecvOk, RetriesOk, SocketOk, AllGood, AdnsState.FatalIn, AdnsState.HandedOver,
      AdnsState.StreamRead;
    ads := SearchOverTcp();
    ghost var s := ads.Now();
    NoNameIsFatal(ads, s);
    var broke;
    ghost var got, msgs, run;
    aborted, broke, got, msgs, run := ads.ProcessReadable(ads.tcpsocket, [Data(Frame(NoName()))], [], ZERO);
    MustFail(ads, s, aborted, broke, got, msgs, run);
  }

  lemma NoNameIsFatal(ads: AdnsState, s: Snapshot)
    requires ads.world == AllGood() && ads.cfg == Config(1, 1)
    requires s.net.tcpw == [0] && 0 in s.net.queries
    requires Ripe(s.net.queries[0])
    ensures ads.FatalIn(s, NoName(), 0)
  {
    hide AdnsState.NameFound, AdnsState.AnsweredBy, AdnsState.Proper;
    var u := s.net.queries[0];
    IsAnswer(s.net.queries, u);
    OneNameLeft(ads, u, s.nextid);
    IsNoName(ads, u);
  }

  lemma IsNoName(ads: AdnsState, u: Query)
    requires ads.world == AllGood()
    ensures NoName()[3] % 16 == 3 && !AdnsState.Truncates(NoName()) && ads.world.parse(u, NoName()) == Absent
  {
  }

  lemma IsAnswer(qs: map<QueryId, Query>, u: Query)
    requires 0 in qs && qs[0] == u && u.id == 0x311f && u.dgram == Header()
    ensures AdnsState.Proper(NoName()) && AdnsState.AnsweredBy(qs, [0], NoName(), 0, true) == Some(0)
  {
    assert AdnsState.Answers(u, NoName(), AdnsState.IdOf(NoName()), 0, true);
  }

  lemma OneNameLeft(ads: AdnsState, u: Query, id: nat)
    requires ads.world == AllGood() && ads.cfg.nsearchlist == 1 && u.searchPos == 0 && u.searchDoneAbs == 1
    ensures ads.NameFound(u, id)
  {
    assert SearchList.Remaining(0, 1, 1) == [SearchList.Entry(0)];
    assert ads.WalkName(id, true, 0) == Walk(0, Packed(Header(), id % 65536));
  }

  lemma MustFail(ads: AdnsState, s: Snapshot, aborted: bool, broke: bool, got: seq<Byte>, msgs: seq<seq<Byte>>, run: seq<Snapshot>)
    requires ads.cfg == Config(1, 1) && ads.FatalIn(s, NoName(), 0)
    requires ads.StreamRead([], [Data(Frame(NoName()))], aborted, broke, got, msgs, run)
    requires ads.HandedOver(run, msgs, aborted, ZERO) && run[0] == s
    ensures aborted
  {
    hide AdnsState.FatalIn, AdnsState.HandedOver, AdnsState.StreamRead;
    OneMessage(ads, NoName(), aborted, broke, got, msgs, run);
    HandedOne(ads, run, NoName(), aborted);
  }

  lemma OneMessage(ads: AdnsState, m: seq<Byte>, aborted: bool, broke: bool, got: seq<Byte>, msgs: seq<seq<Byte>>, run: seq<Snapshot>)
    requires |m| < 65536 && ads.StreamRead([], [Data(Frame(m))], aborted, broke, got, msgs, run)
    ensures msgs == [m]
  {
    var f := Frame(m);
    OneRead(f);
    FramesAppend([], m);
    assert [] + [m] == [m];
    SplitUnique(f, [m], []);
  }

  lemma OneRead(bytes: seq<Byte>)
    ensures Delivered([Data(bytes)]) == bytes && [] + bytes == bytes
  {
    assert [Data(bytes)][1..] == [];
  }

  lemma HandedOne(ads: AdnsState, run: seq<Snapshot>, m: seq<Byte>, aborted: bool)
    requires ads.cfg.nservers > 0 && ads.HandedOver(run, [m], aborted, ZERO)
    ensures aborted <==> ads.FatalIn(run[0], m, 0)
  {
    hide AdnsState.FatalIn, AdnsState.TakenBy;
    assert ads.Processed(run[0], run[1], [m][0], 0, true, aborted && 0 == |[m]| - 1, ZERO);
  }

  /** The frames for two queries go out whole, and the next write fails. */
  function Breaking(): World {
    AllGood().(writev := (k: nat) => if k < 3 then Took(1000) else HardError)
  }

  /** A reply to the first query that says it is truncated, and one to the second. */
  function Cut(): seq<Byte> {
    [0x31, 0x1f, 130, 0, 0, 1, 0, 0, 0, 0, 0, 0]
  }

  function Second(): seq<Byte> {
    [0x31, 0x20, 128, 0, 0, 1, 0, 0, 0, 0, 0, 0]
  }

  lemma BreakingDials()
    ensures Dials(Breaking())
  {
  }

  /** Two queries have been sent on an open connection. */
  method BothSent() returns (ads: AdnsState)
    ensures fresh(ads) && ads.Valid() && ads.world == Breaking() && ads.cfg == Config(1, 0)
    ensures ads.Wire() == Link(Connected, true, 3) && ads.tcprecv == [] && ads.net.tcpw == [0, 1]
    ensures forall q | q in ads.net.tcpw :: q in ads.net.queries && Sent(ads.net.queries[q], 0x311f + q)
  {
    hide Consistent, SendOk, RecvOk, RetriesOk, SocketOk, Breaking, AdnsState.FramedAll, Joiner, AdnsState.OnTime;
    BreakingDials();
    ads := BothJoined(Breaking());
    JoinerIsSent(ads);
    ghost var n := ads.net;
    WritesTake(ads, n);
    ads.ProcessWriteable(ads.tcpsocket, NothingYet, [], ZERO);
  }

  /** A query over TCP with its packet. */
  ghost predicate Sent(u: Query, id: int) {
    u.state == TcpWait && u.id == id && u.dgram == Header() && u.useVc
  }

  lemma JoinerIsSent(ads: AdnsState)
    ensures Sent(Joiner(ads, 0x311f), 0x311f) && Sent(Joiner(ads, 0x3120), 0x3120)
  {
    hide Sent, Joiner;
  }

  lemma WritesTake(ads: AdnsState, n: Net)
    requires ads.world == Breaking() && n.tcpw == [0, 1]
    requires forall q | q in n.tcpw :: q in n.queries && n.queries[q].dgram == Header()
    ensures ads.FramedAll(n, 0, Link(Connected, true, 1)) == Link(Connected, true, 3)
  {
    hide AdnsState.FramedAll;
    ads.FramedNext(n, 0, Link(Connected, true, 1));
    ads.FramedNext(n, 1, Link(Connected, true, 2));
    ads.FramedEnd(n, 2, Link(Connected, true, 3));
  }

  lemma CutAnswers(qs: map<QueryId, Query>)
    requires 0 in qs && Sent(qs[0], 0x311f)
    ensures AdnsState.Proper(Cut()) && AdnsState.AnsweredBy(qs, [0, 1], Cut(), 0, true) == Some(0)
    ensures Cut()[3] % 16 == 0 && AdnsState.Truncates(Cut())
  {
    assert AdnsState.Answers(qs[0], Cut(), AdnsState.IdOf(Cut()), 0, true);
  }

  /** The two queries wait on an idle connection, and the next write fails. */
  ghost predicate Doomed(ads: AdnsState, s: Snapshot) {
    ads.world == Breaking() && ads.cfg.nservers > 0 && s.net.tcpw == [0, 1] && 0 in s.net.queries && Sent(s.net.queries[0], 0x311f) &&
    s.link == Link(Connected, true, 3)
  }

  lemma CutBreaks(ads: AdnsState, s: Snapshot)
    requires Doomed(ads, s)
    ensures ads.Breaks(s, Cut()) && !ads.FatalIn(s, Cut(), 0)
  {
    hide AdnsState.AnsweredBy, AdnsState.Proper, AdnsState.Truncates, Cut;
    CutAnswers(s.net.queries);
    RestartFails(ads, s.net.queries[0], s.nextid);
  }

  lemma RestartFails(ads: AdnsState, u: Query, id: nat)
    requires ads.world == Breaking() && Sent(u, 0x311f)
    ensures ads.world.parse(u, Cut()) == Absent && !ads.world.aliased(u, Cut())
    ensures ads.LinkSent(ads.Renewed(u, false, true, id), Link(Connected, true, 3)) == Link(Broken, true, 4)
  {
  }

  lemma TwoMessages(a: seq<Byte>, b: seq<Byte>)
    requires |a| < 65536 && |b| < 65536
    ensures Messages(Frame(a) + Frame(b)) == [a, b]
  {
    FramesAppend([], a);
    FramesAppend([a], b);
    assert [] + [a] == [a] && [a] + [b] == [a, b] && Frames([]) + Frame(a) == Frame(a);
    SplitUnique(Frame(a) + Frame(b), [a, b], []);
  }

  lemma SecondStays(ads: AdnsState, s: Snapshot, t: Snapshot)
    requires Doomed(ads, s) && ads.Processed(s, t, Cut(), 0, true, false, ZERO)
    ensures 1 in t.net.tcpw
  {
    hide AdnsState.AnsweredBy, AdnsState.Proper, AdnsState.Truncates, Cut, AdnsState.Renewed, OnlyTouches, AdnsState.TcpQueued;
    CutAnswers(s.net.queries);
    var u := s.net.queries[0];
    RestartFails(ads, u, s.nextid);
    assert Unlink([0, 1], 0) == [1];
  }

  /** The first message is handed over and the second is not. */
  lemma OnlyFirst(ads: AdnsState, s: Snapshot, aborted: bool, broke: bool, got: seq<Byte>, msgs: seq<seq<Byte>>, run: seq<Snapshot>)
    requires Doomed(ads, s) && |run| == |msgs| + 1 && run[0] == s
    requires ads.StreamRead([], [Data(Frame(Cut()) + Frame(Second()))], aborted, broke, got, msgs, run)
    ensures Messages(Frame(Cut()) + Frame(Second())) == [Cut(), Second()] && msgs == [Cut()]
    ensures aborted || broke
  {
    hide AdnsState.Breaks, AdnsState.FatalIn, Doomed, Cut, Second, Messages, NoHardErrors;
    CutBreaks(ads, s);
    Sizes();
    TwoMessages(Cut(), Second());
    OneRead(Frame(Cut()) + Frame(Second()));
    FirstOfTwo(ads, Cut(), Second(), msgs, run);
    assert got + [] == got;
  }

  lemma Sizes()
    ensures |Cut()| == 12 && |Second()| == 12
  {
  }

  lemma FirstOfTwo(ads: AdnsState, a: seq<Byte>, b: seq<Byte>, msgs: seq<seq<Byte>>, run: seq<Snapshot>)
    requires |run| == |msgs| + 1 && msgs <= [a, b] && ads.Breaks(run[0], a)
    requires msgs == [a, b] <==> ads.Unharmed(run, msgs, [a, b])
    ensures msgs == [a]
  {
    hide AdnsState.Breaks, AdnsState.FatalIn;
    assert msgs == [] || msgs[0] == a;
    assert |msgs| < 3;
  }

  /** Two messages arrive together.  For the first its query is sent again over TCP, which breaks
      the connection; the second is lost with it, and its query goes on waiting. */
  method LostMessage() returns (ads: AdnsState, ghost msgs: seq<seq<Byte>>)
    ensures ads.Valid() && ads.tcpstate == Broken && ads.tcprecv == [] && 1 in ads.net.tcpw
    ensures Messages(Frame(Cut()) + Frame(Second())) == [Cut(), Second()] && msgs == [Cut()]
  {
    hide Consistent, SendOk, RecvOk, RetriesOk, SocketOk, AdnsState.HandedOver, AdnsState.StreamRead, Cut, Second,
      Breaking, Messages, OnlyTouches, AdnsState.AllReceived, TcpSearches, AdnsState.Hung, HangsUp;
    ads := BothSent();
    ghost var s := ads.Now();
    SoonDoomed(ads, s);
    var aborted, broke;
    ghost var got, run;
    aborted, broke, got, msgs, run := ads.ProcessReadable(ads.tcpsocket, [Data(Frame(Cut()) + Frame(Second()))], [], ZERO);
    ads.HandedLength(run, msgs, aborted, ZERO);
    OnlyFirst(ads, s, aborted, broke, got, msgs, run);
    CutHanded(ads, s, aborted, run);
    NothingReceived(ads);
  }

  lemma SoonDoomed(ads: AdnsState, s: Snapshot)
    requires ads.world == Breaking() && ads.cfg.nservers > 0 && s.net.tcpw == [0, 1] && s.link == Link(Connected, true, 3)
    requires forall q | q in s.net.tcpw :: q in s.net.queries && Sent(s.net.queries[q], 0x311f + q)
    ensures Doomed(ads, s)
  {
    assert 0 in s.net.tcpw;
  }

  lemma CutHanded(ads: AdnsState, s: Snapshot, aborted: bool, run: seq<Snapshot>)
    requires ads.cfg.nservers > 0 && Doomed(ads, s) && ads.HandedOver(run, [Cut()], aborted, ZERO) && run[0] == s
    ensures !aborted && 1 in run[1].net.tcpw
  {
    hide AdnsState.FatalIn, AdnsState.TakenBy, Cut, Doomed;
    CutBreaks(ads, s);
    HandedOne(ads, run, Cut(), aborted);
    assert ads.Processed(run[0], run[1], [Cut()][0], 0, true, aborted && 0 == |[Cut()]| - 1, ZERO);
    SecondStays(ads, s, run[1]);
  }

  lemma NothingReceived(ads: AdnsState)
    requires ads.Valid() && ads.tcpstate != Connected
    ensures ads.tcprecv == []
  {
  }
}
