/** The asynchronous resolver: one object whose methods follow event.c, query.c,
    transmit.c and reply.c.  The results of system calls are arbitrary; the ones that decide
    how often a loop runs are handed in as finite scripts. */
module Resolver {
  import opened Common
  import opened TimeArith
  import opened TcpFraming
  import opened QueryNet
  import opened Connection
  import SearchList

  const UDP_RETRY_MS := 2000
  const TCP_WAIT_MS := 30000
  const TCP_CONN_MS := 14000
  const TCP_IDLE_MS := 30000

  /** The longest packet adns__mkquery and adns__mkquery_frdgram can build: a header, a name
      of at most 257 bytes and the four bytes of the footer. */
  const MAX_QUERY := 12 + 257 + 4

  /** What adns__mkquery makes of a name: a packet, or a reason why there is none. */
  datatype MkQuery = Made(dgram: seq<Byte>) | TooLong | Invalid(status: Status)

  /** What socket() and connect() come to. */
  datatype Connect = NoSocket | AtOnce | InProgress | RefusedAtOnce

  /** What writev() on the connection comes to. */
  datatype WriteV = HardError | Took(count: nat)

  /** What read() on the connection may report; the last read of a script finds nothing. */
  datatype Read = Data(bytes: seq<Byte>) | Interrupted | NoResources | Closed

  /** A datagram that recvfrom() delivers: its server, if the address is one of ours. */
  datatype Datagram = Datagram(server: Option<nat>, bytes: seq<Byte>)

  /** What write() on the connection may report; the last write of a script would block. */
  datatype Write = Wrote(count: nat) | WriteInterrupted | WriteNoResources | WriteFailed

  /** What the one-byte read() on a socket that became writeable may report. */
  datatype Probe = NothingYet | EarlyData | ProbeNoResources | ProbeFailed

  /** What the records of a reply come to: a section that cannot be parsed or that ends too
      early, records that were asked for, none of them, or a referral. */
  datatype Reply =
    | Unreadable(status: Status)
    | Short
    | Records(kinds: seq<Callback>, addrs: seq<Addr>, bad: Option<Status>, cut: bool)
    | Absent
    | Referral(viaCname: bool, refused: Status)

  /** Everything that the library does not decide itself, for a whole run: the packets made
      for names, in the order in which they are asked for; the results of the network calls, in
      the order in which they are made; and what the records of a datagram say to a query. */
  datatype World = World(
    mk: nat -> MkQuery,
    fromDgram: nat -> seq<Byte>,
    connect: nat -> Connect,
    writev: nat -> WriteV,
    oversize: nat -> bool,
    parse: (Query, seq<Byte>) -> Reply,
    aliased: (Query, seq<Byte>) -> bool)

  /** connect() that does not fail at once. */
  predicate Good(w: World, k: nat) {
    w.connect(k) == AtOnce || w.connect(k) == InProgress
  }

  /** Some connect() from call i on is good. */
  ghost predicate GoodAfter(w: World, i: nat) {
    exists j: nat :: j >= i && Good(w, j)
  }

  /** connect() is never bad for ever. */
  ghost predicate Answering(w: World) {
    forall i: nat :: GoodAfter(w, i)
  }

  ghost function FirstGood(w: World, i: nat, bound: nat): (r: nat)
    requires i <= bound && Good(w, bound)
    ensures i <= r <= bound && Good(w, r) && forall k | i <= k < r :: !Good(w, k)
    decreases bound - i
  {
    if Good(w, i) then i else FirstGood(w, i + 1, bound)
  }

  /** The first good connect() from call i on. */
  ghost function NextGood(w: World, i: nat): (r: nat)
    requires GoodAfter(w, i)
    ensures i <= r && Good(w, r) && forall k | i <= k < r :: !Good(w, k)
  {
    var j: nat :| j >= i && Good(w, j);
    FirstGood(w, i, j)
  }

  /** No connect() of the run fails at once. */
  ghost predicate NoRefusals(w: World) {
    forall k: nat :: w.connect(k) != RefusedAtOnce
  }

  /** No writev() of the run fails for good. */
  ghost predicate NoHardErrors(w: World) {
    forall k: nat :: w.writev(k) != HardError
  }

  /** What comes of asking for packets for one name after the other: how many names were
      moved on to, and a packet, a refusal of the name, or the end of the names. */
  datatype Walk = Walk(names: nat, end: WalkEnd)
  datatype WalkEnd = Packed(dgram: seq<Byte>, id: int) | Barred(status: Status) | NoneLeft

  /** The connection, as far as it decides what a query sent over TCP meets: its state, whether
      no bytes are queued on it, and how many network calls have been made. */
  datatype Link = Link(tcp: TcpState, idle: bool, calls: nat)

  /** The queries and the connection, and how far the run has gone with ids and allocations. */
  datatype Snapshot = Snapshot(net: Net, nextid: nat, nextQuery: QueryId, link: Link)

  datatype CheckResult = Answered(query: QueryId) | TryAgain | NoSuchQuery

  /** What can happen to a search: no answer in time, or the reply that there is no such name. */
  datatype Move = Again | NoSuch

  /** How far a search has come: the names passed and the datagrams sent; or how it ended. */
  datatype Search = Asking(passed: nat, sends: nat) | Over(status: Status)

  /** The calls a program may make, with whatever the system will answer to them. */
  datatype Event =
    | DoSubmit(search: bool, useVc: bool, bareFirst: bool, bad: Option<Status>, queried: Addr)
    | DoCancel(query: QueryId)
    | DoTimeouts
    | DoFirstTimeout
    | DoReadable(fd: int, input: seq<Read>, inbox: seq<Datagram>)
    | DoWriteable(fd: int, probe: Probe, output: seq<Write>)
    | DoExceptional(fd: int)
    | DoCheck(wanted: Option<QueryId>)

  /** What a call comes to: a query added to those outstanding, one taken out of them, no such
      change, or a failed assertion. */
  datatype Outcome = Submitted(query: QueryId) | Cancelled(query: QueryId) | Collected(query: QueryId) | Quiet | Failed

  /** The bytes a script of reads delivers before the peer closes or resources run out. */
  function Delivered(script: seq<Read>): seq<Byte> {
    if script == [] then []
    else
      match script[0]
      case Data(bytes) => bytes + Delivered(script[1..])
      case Interrupted => Delivered(script[1..])
      case NoResources => []
      case Closed => []
  }

  /** The script ends with the peer closing the connection, or with an error. */
  predicate HangsUp(script: seq<Read>) {
    script != [] && match script[0]
      case Data(_) => HangsUp(script[1..])
      case Interrupted => HangsUp(script[1..])
      case NoResources => false
      case Closed => true
  }

  function FirstChunk(script: seq<Read>): nat {
    if script != [] && script[0].Data? then |script[0].bytes| else 0
  }

  class AdnsState {
    const cfg: Config
    const udpsocket: int
    const world: World

    var net: Net
    var nextQuery: QueryId   // the next call of malloc for a query
    var nextid: nat
    var tcpstate: TcpState
    var tcpsocket: int
    var tcpserver: nat
    var tcptimeout: Timeval
    var tcpsend: seq<Byte>
    var tcprecv: seq<Byte>
    var tcprecvSkip: nat
    var calls: nat           // network calls made so far

    ghost var hist: History

    ghost predicate NetOk(off: set<QueryId>)
      reads this
    {
      Consistent(net, off, cfg) && forall q | q in net.queries :: q < nextQuery
    }

    ghost predicate ConnOk(pending: set<QueryId>)
      reads this
    {
      && 0 < cfg.nservers && tcpserver < cfg.nservers && Calm(hist) && Apart()
      && SendOk(net, hist, tcpstate, tcpsend, pending)
      && RecvOk(hist, tcpstate, tcprecv, tcprecvSkip)
      && RetriesOk(net, hist, tcpstate, cfg.nservers, pending)
      && SocketOk(net, tcpstate, tcpsocket, tcptimeout, pending)
    }

    /** The datagram socket is open, and not the one of the connection. */
    ghost predicate Apart()
      reads this
    {
      udpsocket >= 0 && tcpsocket != udpsocket
    }

    /** adns__consistency while the queries in off are being processed. */
    ghost predicate Ready(off: set<QueryId>)
      reads this
    {
      NetOk(off) && ConnOk({})
    }

    /** What a run without refusals, or without failing writes, leaves out of the history. */
    ghost predicate Calm(h: History) {
      && (NoRefusals(world) ==> h.refusals == 0)
      && (NoHardErrors(world) ==> forall q | q in h.past :: h.past[q].skipped == 0)
    }

    /** What holds between the calls of the public functions. */
    ghost predicate Valid()
      reads this
    {
      Ready({}) && tcprecvSkip == 0
    }

    /** adns_init, as far as the queues and the connection go. */
    constructor (cfg: Config, udpsocket: int, world: World)
      requires cfg.nservers > 0 && udpsocket >= 0
      ensures Valid() && net == Net(map[], [], [], [], []) && tcpstate == Disconnected
      ensures this.cfg == cfg && this.udpsocket == udpsocket && this.world == world && calls == 0 && nextQuery == 0 && nextid == 0x311f
    {
      this.cfg := cfg;
      this.udpsocket := udpsocket;
      this.world := world;
      calls := 0;
      net := Net(map[], [], [], [], []);
      nextQuery, nextid := 0, 0x311f;
      tcpstate, tcpsocket, tcpserver, tcptimeout := Disconnected, -1, 0, ZERO;
      tcpsend, tcprecv, tcprecvSkip := [], [], 0;
      hist := EmptyHistory(Net(map[], [], [], [], []), 0, map[]);
    }

    // ---------- query.c: cancellation and completion ----------

    /** adns_cancel: exactly the subtree of q disappears. */
    method Cancel(q: QueryId, ghost off: set<QueryId>)
      requires NetOk(off) && q in net.queries && q !in off && forall o | o in off :: o < q
      requires net.queries[q].parent.Some? ==> net.queries[q].parent.value in off
      modifies `net
      ensures net == Prune(old(net), {q})
      ensures NetOk(off)
      decreases nextQuery - q, 1
    {
      hide Family, RowsOk, SendOk, RecvOk, RetriesOk, SocketOk, Handled;
      ghost var n := net;
      if net.queries[q].parent.Some? {
        net := Orphan(net, q);
      } else {
        OrphanRoot(net, q);
      }
      OrphanKeepsConsistent(n, off, cfg, q);
      DequeueKeepsConsistent(Orphan(n, q), off, cfg, q);
      net := Dequeue(net, q);
      assert net == Detach(n, q);
      CancelChildren(q, off + {q});
      net := Free(net, q);
      DetachPruneFree(n, off, cfg, q);
      PruneKeepsConsistent(n, off, cfg, {q});
      OffSurvives(n.queries, off, q);
    }

    static lemma OffSurvives(qs: map<QueryId, Query>, off: set<QueryId>, q: QueryId)
      requires off <= qs.Keys && forall o | o in off :: o < q
      ensures off * Survivors(qs, {q}) == off
    {
      forall o | o in off ensures o in Survivors(qs, {q}) {
        if Doomed(qs, {q}, o) {
          DoomedIsLater(qs, {q}, o, q);
        }
      }
    }

    /** cancel_children: walks the list of children, each call taking its head off. */
    method CancelChildren(q: QueryId, ghost off: set<QueryId>)
      requires NetOk(off) && q in off && forall o | o in off :: o <= q
      modifies `net
      ensures net == Prune(old(net), Kids(old(net), q))
      ensures NetOk(off) && net.queries[q] == old(net.queries[q]).(children := [])
      decreases nextQuery - q, 0
    {
      ghost var n := net;
      ghost var done: set<QueryId> := {};
      PruneNothing(n, off, cfg);
      while net.queries[q].children != []
        invariant done <= Kids(n, q)
        invariant net == Prune(n, done) && NetOk(off) && q in net.queries
        decreases Kids(n, q) - done
      {
        var c := net.queries[q].children[0];
        assert ChildrenPointBack(net, q);
        assert c in net.queries[q].children;
        KeptFacts(n.queries[q].children, Survivors(n.queries, done));
        Cancel(c, off);
        PruneTwice(n, done, {c});
        done := done + {c};
      }
      AllChildrenGone(n, off, q, done);
      CutChildren(n, off, cfg, q);
    }

    lemma AllChildrenGone(n: Net, off: set<QueryId>, q: QueryId, done: set<QueryId>)
      requires Consistent(n, off, cfg) && q in n.queries && q in Prune(n, done).queries
      requires done <= Kids(n, q) && Prune(n, done).queries[q].children == []
      ensures done == Kids(n, q)
    {
      KeptFacts(n.queries[q].children, Survivors(n.queries, done));
      forall c | c in Kids(n, q) ensures c in done {
        assert ChildrenPointBack(n, q);
        assert Doomed(n.queries, done, c);
      }
    }

    /** adns__query_done */
    method QueryDone(q: QueryId)
      requires NetOk({q}) && net.queries[q].state != Finished
      modifies `net
      ensures net == Complete(old(net), q)
      decreases q, 1
    {
      ghost var n := net;
      var qu := net.queries[q];
      CutChildren(n, {q}, cfg, q);
      CancelChildren(q, {q});
      if qu.parent.Some? {
        CompleteAtParent(n, cfg, q);
        NotifyParent(q, qu, qu.parent.value);
      } else {
        net := Enqueue(net, q, qu.(state := Finished, id := -1, children := []));
      }
    }

    /** The branch of adns__query_done for a child query. */
    method NotifyParent(q: QueryId, qu: Query, p: QueryId)
      requires q in net.queries && p < q
      requires Consistent(LeaveParent(net, q, p), {p}, cfg) && LeaveParent(net, q, p).queries[p].state == ChildWait
      requires forall x | x in LeaveParent(net, q, p).queries :: x < nextQuery
      modifies `net
      ensures net == CallbackResult(LeaveParent(old(net), q, p), p, qu)
      decreases q, 0
    {
      net := LeaveParent(net, q, p);
      RunCallback(p, qu);
    }

    /** icb_hostaddr and icb_ptr, on a parent taken off childw. */
    method RunCallback(p: QueryId, child: Query)
      requires NetOk({p}) && net.queries[p].state == ChildWait
      modifies `net
      ensures net == CallbackResult(old(net), p, child)
      decreases p, 3
    {
      var parent := net.queries[p];
      if child.callback == Ptr {
        if child.status == StNxDomain || child.status == StNoData {
          QueryFail(p, StInconsistent);
          return;
        } else if child.status != StOk {
          QueryFail(p, child.status);
          return;
        }
        if parent.queried in child.addrs {
          if parent.children == [] {
            QueryDone(p);
          } else {
            net := net.(childw := net.childw + [p]);
          }
          return;
        }
        QueryFail(p, StInconsistent);
      } else if parent.children != [] {
        net := net.(childw := net.childw + [p]);
      } else {
        QueryDone(p);
      }
    }

    /** adns__query_fail */
    method QueryFail(q: QueryId, st: Status)
      requires NetOk({q}) && net.queries[q].state != Finished
      modifies `net
      ensures net == Fail(old(net), q, st)
      decreases q, 2
    {
      hide Family, RowsOk, SendOk, RecvOk, RetriesOk, SocketOk, Handled;
      ghost var n := net;
      CancelChildren(q, {q});
      net := WithQuery(net, q, net.queries[q].(status := st, addrs := []));
      ResetKeepsConsistent(n, cfg, q, st);
      CutChildren(n, {q}, cfg, q);
      assert net == Reset(n, q, st);
      QueryDone(q);
    }

    /** A failure inside the event loop: everything on the connection stays right, no query
        the user waits for is lost, and every query is back on a queue. */
    method FinishFailed(q: QueryId, st: Status)
      requires Ready({q}) && net.queries[q].state != Finished
      modifies `net
      ensures Ready({}) && net == Fail(old(net), q, st) && Settled(old(net), net)
      ensures q in net.queries ==> net.queries[q].state == Finished
    {
      hide Consistent, SendOk, RecvOk, RetriesOk, SocketOk;
      ghost var n := net;
      QueryFail(q, st);
      FailKeepsConsistent(n, cfg, q, st);
      FailSettles(n, cfg, q, st);
      UntouchedConnOk(n, net);
    }

    /** Likewise for a success. */
    method FinishDone(q: QueryId)
      requires Ready({q}) && net.queries[q].state != Finished
      modifies `net
      ensures Ready({}) && net == Complete(old(net), q) && Settled(old(net), net)
      ensures q in net.queries ==> net.queries[q].state == Finished
    {
      hide Consistent, SendOk, RecvOk, RetriesOk, SocketOk;
      ghost var n := net;
      QueryDone(q);
      CompleteKeepsConsistent(n, cfg, q);
      CompleteSettles(n, cfg, q);
      UntouchedConnOk(n, net);
    }

    /** Any change of the net that leaves tcpw and the queries on it alone. */
    lemma UntouchedConnOk(n: Net, m: Net)
      requires 0 < cfg.nservers && tcpserver < cfg.nservers && Apart() && TcpUntouched(n, m)
      requires Calm(hist)
      requires SendOk(n, hist, tcpstate, tcpsend, {}) && RecvOk(hist, tcpstate, tcprecv, tcprecvSkip)
      requires RetriesOk(n, hist, tcpstate, cfg.nservers, {}) && SocketOk(n, tcpstate, tcpsocket, tcptimeout, {})
      requires net == m
      ensures ConnOk({})
    {
      UntouchedKeepsConnection(n, m, hist, tcpstate, tcpsend, cfg.nservers, tcpsocket, tcptimeout, {});
    }

    // ---------- event.c and transmit.c: the TCP connection ----------

    /** tcp_close */
    method TcpClose()
      modifies `tcpsocket, `tcprecv, `tcprecvSkip, `tcpsend, `hist
      ensures tcpsocket == -1 && tcprecv == [] && tcprecvSkip == 0 && tcpsend == []
      ensures hist == EmptyHistory(net, old(hist).refusals, old(hist).past)
    {
      tcpsocket := -1;
      tcprecv, tcprecvSkip, tcpsend := [], 0, [];
      hist := EmptyHistory(net, hist.refusals, hist.past);
    }

    /** The loop of adns__tcp_broken over tcpw. */
    method ChargeAll()
      requires NoDup(net.tcpw) && forall q | q in net.tcpw :: q in net.queries
      modifies `net
      ensures net == Charged(old(net), OnTcpw(old(net)))
    {
      ghost var n := net;
      var i := 0;
      ghost var done: set<QueryId> := {};
      ChargeNone(n);
      while i < |net.tcpw|
        invariant 0 <= i <= |n.tcpw| && net == Charged(n, done)
        invariant done == set j | 0 <= j < i :: n.tcpw[j]
      {
        var q := net.tcpw[i];
        assert q in n.tcpw;
        ChargeOneMore(n, done, q);
        net := WithQuery(net, q, net.queries[q].(retries := net.queries[q].retries + 1));
        done := done + {q};
        i := i + 1;
      }
      assert done == OnTcpw(n);
    }

    /** adns__tcp_broken: a failed connection attempt costs every waiting query a retry.  A
        connection that was up costs nothing more, and so nothing at all to the queries that
        tcp_connected has not come to, the unsent. */
    method TcpBroken(ghost unsent: set<QueryId>)
      requires tcpstate == Connecting || tcpstate == Connected
      requires NoDup(net.tcpw) && RetriesOk(net, hist, tcpstate, cfg.nservers, unsent)
      requires 0 < cfg.nservers && udpsocket >= 0 && TimerOk(tcptimeout) && Calm(hist)
      requires NoHardErrors(world) || tcpstate == Connecting ==> unsent == {}
      modifies `net, `tcpsocket, `tcprecv, `tcprecvSkip, `tcpsend, `hist, `tcpstate, `tcpserver
      ensures net == if old(tcpstate) == Connecting then Charged(old(net), OnTcpw(old(net))) else old(net)
      ensures OnlyRetries(old(net), net)
      ensures tcpstate == Broken && ConnOk({}) && hist.refusals == old(hist.refusals)
      ensures tcpsend == [] && hist.past == Broke(old(hist).past, old(net).tcpw, unsent)
      ensures tcpserver == (old(tcpserver) + 1) % cfg.nservers
    {
      hide SendOk, RecvOk, RetriesOk, Broke, Charged, OnlyRetries, Calm;
      ghost var n, h, st := net, hist, tcpstate;
      RetriesKnown(n, h, st, cfg.nservers, unsent);
      if tcpstate == Connecting {
        ChargeAll();
      }
      ChargedAllOrNot(n, net);
      BrokenKeepsRetries(n, net, h, st, cfg.nservers, unsent);
      TcpClose();
      hist := hist.(past := Broke(h.past, n.tcpw, unsent));
      tcpstate := Broken;
      tcpserver := (tcpserver + 1) % cfg.nservers;
      SameNames(n, net);
      ClosedIsOk(net, hist.refusals, hist.past, Broken, {});
      StillCalm(h, hist, n.tcpw, unsent);
    }

    static lemma ChargedAllOrNot(n: Net, m: Net)
      requires m == n || m == Charged(n, OnTcpw(n))
      ensures OnlyRetries(n, m)
    {
      OnlyRetriesSelf(n);
      ChargedIsOnlyRetries(n, OnTcpw(n));
    }

    static lemma SameNames(n: Net, m: Net)
      requires OnlyRetries(n, m) && forall q | q in n.tcpw :: q in n.queries
      ensures m.tcpw == n.tcpw && forall q | q in m.tcpw :: q in m.queries
    {
    }

    lemma StillCalm(h: History, h': History, waiting: seq<QueryId>, unsent: set<QueryId>)
      requires Calm(h) && (NoHardErrors(world) ==> unsent == {})
      requires h'.refusals == h.refusals && h'.past == Broke(h.past, waiting, unsent)
      ensures Calm(h')
    {
    }

    ghost function Wire(): Link
      reads this
    {
      Link(tcpstate, tcpsend == [], calls)
    }

    /** The link after a frame for len bytes: while bytes are queued it joins them, else writev()
        takes all of it, or leaves a rest to queue, or breaks the connection. */
    function Framed(a: Link, len: nat): Link {
      if a.tcp != Connected || !a.idle then a
      else
        match world.writev(a.calls)
        case HardError => Link(Broken, true, a.calls + 1)
        case Took(count) => Link(Connected, count >= len + 2, a.calls + 1)
    }

    /** adns__querysend_tcp does nothing unless the connection is up. */
    method QuerySendTcp(q: QueryId, ghost pending: set<QueryId>)
      requires ConnOk(pending) && NoDup(net.tcpw) && q in net.tcpw
      requires tcpstate == Connected ==> q in pending
      modifies `net, `tcpsocket, `tcprecv, `tcprecvSkip, `tcpsend, `hist, `tcpstate, `tcpserver, `tcptimeout, `calls
      ensures q in old(net).queries && Wire() == old(Framed(Wire(), |net.queries[q].dgram|))
      ensures old(tcpstate) != Connected ==> unchanged(this)
      ensures old(tcpstate) == Connected ==>
        net == Charged(old(net), {q}) && (tcpstate == Connected || tcpstate == Broken)
      ensures tcpstate == Connected ==>
        ConnOk(pending - {q}) && tcprecv == old(tcprecv) && tcprecvSkip == old(tcprecvSkip) &&
        hist.received == old(hist.received) && hist.handed == old(hist.handed)
      ensures old(tcpstate) == Connected && tcpstate == Broken ==> ConnOk({})
      ensures hist.refusals == old(hist.refusals) && calls >= old(calls)
      ensures old(tcpstate) == Connected && NoHardErrors(world) ==> tcpstate == Connected
      ensures old(tcpstate) == Connected && old(tcpsend) == [] && world.writev(old(calls)) == HardError ==>
        tcpstate == Broken && calls == old(calls) + 1 && hist.past == Broke(old(hist).past, old(net).tcpw, pending - {q})
    {
      RetriesKnown(net, hist, tcpstate, cfg.nservers, pending);
      if tcpstate == Connected {
        SendFrame(q, pending);
      }
    }

    /** One more retry for q, and no idle timer while it waits. */
    method ChargeOne(q: QueryId, ghost pending: set<QueryId>) returns (dgram: seq<Byte>)
      requires ConnOk(pending) && q in net.tcpw && tcpstate == Connected && q in pending
      modifies `net, `tcptimeout
      ensures q in old(net).queries && dgram == old(net).queries[q].dgram
      ensures net == Charged(old(net), {q}) && net.tcpw == old(net).tcpw && tcptimeout == ZERO && TimerOk(ZERO)
      ensures RetriesOk(net, hist, Connected, cfg.nservers, pending - {q})
      ensures SocketOk(net, Connected, tcpsocket, ZERO, pending - {q})
    {
      assert q in net.queries;
      hide SendOk, RecvOk, RetriesOk, SocketOk, Charged;
      ghost var n := net;
      dgram := net.queries[q].dgram;
      net := WithQuery(net, q, net.queries[q].(retries := net.queries[q].retries + 1));
      ChargeJust(n, q);
      ChargeKeepsRetries(n, hist, cfg.nservers, q, pending);
      TimerOff(n, net, tcpsocket, tcptimeout, pending, pending - {q});
      tcptimeout := ZERO;
    }

    /** The pending query q gets exactly one frame on the open connection, however writev
        splits the bytes; a hard error breaks the connection. */
    method SendFrame(q: QueryId, ghost pending: set<QueryId>)
      requires ConnOk(pending) && NoDup(net.tcpw) && q in net.tcpw
      requires tcpstate == Connected && q in pending
      modifies `net, `tcpsocket, `tcprecv, `tcprecvSkip, `tcpsend, `hist, `tcpstate, `tcpserver, `tcptimeout, `calls
      ensures net == Charged(old(net), {q}) && q in old(net).queries
      ensures Wire() == old(Framed(Wire(), |net.queries[q].dgram|))
      ensures tcpstate == Connected || tcpstate == Broken
      ensures tcpstate == Broken ==> ConnOk({})
      ensures tcpstate == Connected ==>
        ConnOk(pending - {q}) && tcprecv == old(tcprecv) && tcprecvSkip == old(tcprecvSkip) &&
        hist.received == old(hist.received) && hist.handed == old(hist.handed)
      ensures hist.refusals == old(hist.refusals) && calls >= old(calls)
      ensures NoHardErrors(world) ==> tcpstate == Connected
      ensures old(tcpsend) == [] && world.writev(old(calls)) == HardError ==>
        tcpstate == Broken && calls == old(calls) + 1 && hist.past == Broke(old(hist).past, old(net).tcpw, pending - {q})
    {
      hide SendOk, RecvOk, RetriesOk, SocketOk, Charged, AfterSend, AfterWritev, OnlyRetries, Broke;
      ghost var n, h := net, hist;
      var dgram := ChargeOne(q, pending);
      var wr := 0;
      if tcpsend == [] {
        var r := world.writev(calls);
        calls := calls + 1;
        if r == HardError {
          TcpBroken(pending - {q});
          return;
        }
        wr := if r.count <= |dgram| + 2 then r.count else |dgram| + 2;
      }
      SendKeepsConnection(n, h, tcpsend, cfg.nservers, q, wr, pending);
      RecvIgnoresSend(h, q, dgram, wr, Connected, tcprecv, tcprecvSkip);
      QueuedRest(dgram, wr);
      tcpsend := tcpsend + AfterWritev(dgram, wr).1;
      hist := AfterSend(hist, q, dgram, wr);
    }

    static lemma QueuedRest(dgram: seq<Byte>, wr: nat)
      requires wr <= |dgram| + 2
      ensures AfterWritev(dgram, wr).1 == [] <==> wr == |dgram| + 2
    {
    }

    /** A socket has been opened and nothing has passed on it. */
    ghost predicate Dialling()
      reads this
    {
      && tcpstate == Connecting && tcpsocket >= 0 && TimerOk(tcptimeout)
      && 0 < cfg.nservers && tcpserver < cfg.nservers && Calm(hist) && Apart()
      && SendOk(net, hist, Connecting, tcpsend, {})
      && RecvOk(hist, Connecting, tcprecv, tcprecvSkip)
      && RetriesOk(net, hist, Connecting, cfg.nservers, {})
    }

    static ghost function From(queue: seq<QueryId>, i: nat): set<QueryId>
      requires i <= |queue|
    {
      set q | q in queue[i..]
    }

    /** The first query of the queue has paid for what happened since n. */
    ghost predicate HeadCharged(n: Net)
      reads this
    {
      n.tcpw != [] && n.tcpw[0] in n.queries && n.tcpw[0] in net.queries &&
      net.queries[n.tcpw[0]].retries > n.queries[n.tcpw[0]].retries
    }

    /** The link after the frames of tcpw, from its i-th query on, until a write fails. */
    ghost function FramedAll(n: Net, i: nat, a: Link): Link
      decreases |n.tcpw| - i
    {
      if i >= |n.tcpw| || a.tcp != Connected then a
      else
        var q := n.tcpw[i];
        FramedAll(n, i + 1, Framed(a, if q in n.queries then |n.queries[q].dgram| else 0))
    }

    /** tcp_connected: everything on tcpw is sent, in order, until a write fails. */
    method TcpConnected()
      requires Dialling() && NoDup(net.tcpw)
      modifies `net, `tcpsocket, `tcprecv, `tcprecvSkip, `tcpsend, `hist, `tcpstate, `tcpserver, `tcptimeout, `calls
      ensures OnlyRetries(old(net), net) && ConnOk({}) && hist.refusals == old(hist.refusals)
      ensures tcpstate == Connected || (tcpstate == Broken && HeadCharged(old(net)))
      ensures tcprecvSkip == 0 && tcprecv == [] && calls >= old(calls)
      ensures NoHardErrors(world) ==> tcpstate == Connected
      ensures old(net).tcpw != [] && world.writev(old(calls)) == HardError ==>
        HeadFailed(old(net), old(hist)) && calls == old(calls) + 1
      ensures Wire() == FramedAll(old(net), 0, Link(Connected, true, old(calls)))
    {
      hide SendOk, RecvOk, SocketOk, RetriesOk, Charged, Broke, HeadCharged, HeadFailed, Calm, Framed, FramedAll,
        OnlyRetries, Apart, NoHardErrors;
      ghost var n, l := net, Link(Connected, true, calls);
      RetriesKnown(n, hist, Connecting, cfg.nservers, {});
      NothingQueued(net, hist, Connecting, tcpsend);
      Open();
      OnlyRetriesSelf(n);
      var i := 0;
      while i < |net.tcpw| && tcpstate == Connected
        invariant 0 <= i <= |n.tcpw| && OnlyRetries(n, net) && net.tcpw == n.tcpw && hist.refusals == old(hist.refusals)
        invariant tcpstate == Connected || (tcpstate == Broken && i > 0)
        invariant NoHardErrors(world) ==> tcpstate == Connected
        invariant tcpstate == Connected ==> ConnOk(From(n.tcpw, i))
        invariant tcpstate == Broken ==> ConnOk({})
        invariant i > 0 ==> HeadCharged(n)
        invariant tcprecvSkip == 0 && tcprecv == [] && calls >= old(calls)
        invariant i == 0 ==> calls == old(calls) && tcpsend == [] && net == n && hist == old(hist)
        invariant i > 0 && world.writev(old(calls)) == HardError ==>
          i == 1 && tcpstate == Broken && HeadFailed(n, old(hist)) && calls == old(calls) + 1
        invariant FramedAll(n, 0, l) == FramedAll(n, i, Wire())
        decreases |n.tcpw| - i
      {
        FramedNext(n, i, Wire());
        SendTurn(i, n);
        i := i + 1;
      }
      FramedEnd(n, i, Wire());
      assert i == |n.tcpw| ==> From(n.tcpw, i) == {};
    }

    lemma FramedNext(n: Net, i: nat, a: Link)
      requires i < |n.tcpw| && n.tcpw[i] in n.queries && a.tcp == Connected
      ensures FramedAll(n, i, a) == FramedAll(n, i + 1, Framed(a, |n.queries[n.tcpw[i]].dgram|))
    {
    }

    lemma FramedEnd(n: Net, i: nat, a: Link)
      requires i >= |n.tcpw| || a.tcp != Connected
      ensures FramedAll(n, i, a) == a
    {
    }

    static lemma NothingQueued(n: Net, h: History, st: TcpState, send: seq<Byte>)
      requires SendOk(n, h, st, send, {}) && st != Connected
      ensures send == []
    {
    }

    /** The write for the first query failed: it alone pays, and for all the others it was a
        connection that ended before their turn. */
    ghost predicate HeadFailed(n: Net, h: History)
      reads this
    {
      tcpstate == Broken && n.tcpw != [] && net == Charged(n, {n.tcpw[0]}) &&
      hist.past == Broke(h.past, n.tcpw, From(n.tcpw, 1))
    }

    /** The turn of the i-th query in tcp_connected. */
    method SendTurn(i: nat, ghost n: Net)
      requires i < |n.tcpw| && NoDup(n.tcpw) && OnlyRetries(n, net) && n.tcpw[0] in n.queries
      requires tcpstate == Connected && ConnOk(From(n.tcpw, i)) && tcprecvSkip == 0 && tcprecv == [] && (i > 0 ==> HeadCharged(n))
      modifies `net, `tcpsocket, `tcprecv, `tcprecvSkip, `tcpsend, `hist, `tcpstate, `tcpserver, `tcptimeout, `calls
      ensures OnlyRetries(n, net) && net.tcpw == n.tcpw && HeadCharged(n) && tcprecvSkip == 0 && tcprecv == [] && calls >= old(calls)
      ensures tcpstate == Connected || tcpstate == Broken
      ensures tcpstate == Connected ==> ConnOk(From(n.tcpw, i + 1))
      ensures tcpstate == Broken ==> ConnOk({})
      ensures NoHardErrors(world) ==> tcpstate == Connected
      ensures hist.refusals == old(hist.refusals)
      ensures old(tcpsend) == [] && world.writev(old(calls)) == HardError ==>
        tcpstate == Broken && calls == old(calls) + 1 && (i == 0 && old(net) == n ==> HeadFailed(n, old(hist)))
      ensures n.tcpw[i] in n.queries && Wire() == Framed(old(Wire()), |n.queries[n.tcpw[i]].dgram|)
    {
      hide SendOk, SocketOk, RetriesOk, Broke, Framed;
      ghost var before := net;
      var q := net.tcpw[i];
      assert q in net.tcpw;
      FromStep(n.tcpw, i);
      QuerySendTcp(q, From(n.tcpw, i));
      ChargedIsOnlyRetries(before, {q});
      OnlyRetriesTwice(n, before, net);
    }

    /** The connection is up, and everything on tcpw has yet to be sent. */
    method Open()
      requires Dialling()
      modifies `tcpstate
      ensures tcpstate == Connected && ConnOk(From(net.tcpw, 0)) && tcprecvSkip == 0 && tcprecv == []
    {
      assert net.tcpw[0..] == net.tcpw;
      tcpstate := Connected;
    }

    static lemma FromStep(queue: seq<QueryId>, i: nat)
      requires i < |queue| && NoDup(queue)
      ensures queue[i] in From(queue, i) && From(queue, i) - {queue[i]} == From(queue, i + 1)
    {
      assert queue[i..] == [queue[i]] + queue[i + 1..];
    }

    /** One round of adns__tcp_tryconnect: socket() and connect(). */
    method Dial(now: Timeval) returns (goOn: bool)
      requires tcpstate == Disconnected && ConnOk({}) && NoDup(net.tcpw) && Normal(now) && now.sec >= 0
      modifies `net, `tcpsocket, `tcprecv, `tcprecvSkip, `tcpsend, `hist, `tcpstate, `tcpserver, `tcptimeout, `calls
      ensures ConnOk({}) && OnlyRetries(old(net), net) && tcprecvSkip == 0 && calls > old(calls)
      ensures goOn <==> world.connect(old(calls)) == RefusedAtOnce
      ensures goOn ==> tcpstate == Disconnected && net == Charged(old(net), OnTcpw(old(net)))
      ensures tcpstate == Disconnected <==> !Good(world, old(calls))
      ensures tcpstate == Disconnected ==> calls == old(calls) + 1
      ensures tcpstate == Broken ==> HeadCharged(old(net))
      ensures tcpstate == Connecting ==> !After(now, tcptimeout)
      ensures world.connect(old(calls)) == InProgress ==>
        tcpstate == Connecting && net == old(net) && hist == old(hist) && calls == old(calls) + 1
    {
      hide SendOk, RecvOk, RetriesOk, SocketOk, Charged, Broke, OnlyRetries, HeadCharged, HeadFailed, Calm;
      OnlyRetriesSelf(net);
      NothingUnread();
      var r := world.connect(calls);
      calls := calls + 1;
      goOn := r == RefusedAtOnce;
      if r == NoSocket {
        return;
      }
      OpenSocket();
      if r == AtOnce {
        TcpConnected();
      } else if r == InProgress {
        AwaitConnection(now);
      } else {
        Refused();
      }
    }

    lemma NothingUnread()
      requires ConnOk({}) && tcpstate != Connected
      ensures tcprecvSkip == 0
    {
    }

    /** socket() gives a descriptor that is not in use. */
    method AnotherSocket() returns (fd: int)
      ensures Spare(fd)
    {
      assert Spare(0) || Spare(1);
      fd :| Spare(fd);
    }

    predicate Spare(fd: int) {
      fd >= 0 && fd != udpsocket
    }

    method OpenSocket()
      requires tcpstate == Disconnected && ConnOk({})
      modifies `tcpsocket, `tcpstate
      ensures Dialling()
    {
      var fd := AnotherSocket();
      DialKeepsConnection(net, hist, tcpsend, tcprecv, tcprecvSkip, cfg.nservers);
      tcpsocket := fd;
      tcpstate := Connecting;
    }

    /** connect() reported that it is in progress. */
    method AwaitConnection(now: Timeval)
      requires Dialling() && Normal(now) && now.sec >= 0
      modifies `tcptimeout
      ensures ConnOk({}) && !After(now, tcptimeout) && tcprecvSkip == 0
    {
      tcptimeout := AddMs(now, TCP_CONN_MS);
      AfterIsMicros(now, tcptimeout);
      assert SocketOk(net, tcpstate, tcpsocket, tcptimeout, {});
    }

    /** connect() failed at once: the broken state is skipped, and with it the sweep. */
    method Refused()
      requires Dialling() && NoDup(net.tcpw) && !NoRefusals(world)
      modifies `net, `tcpsocket, `tcprecv, `tcprecvSkip, `tcpsend, `hist, `tcpstate, `tcpserver
      ensures tcpstate == Disconnected && ConnOk({}) && hist.refusals == old(hist).refusals + 1
      ensures net == Charged(old(net), OnTcpw(old(net)))
      ensures OnlyRetries(old(net), net) && tcprecvSkip == 0
    {
      hide SendOk, RecvOk, RetriesOk;
      TcpBroken({});
      RefusedKeepsConnection(net, hist, tcpsend, tcprecv, tcprecvSkip, cfg.nservers);
      tcpstate := Disconnected;
      hist := hist.(refusals := hist.refusals + 1);
      assert SocketOk(net, tcpstate, tcpsocket, tcptimeout, {});
    }

    /** From call i on, the next k calls of connect() are refused at once. */
    ghost predicate RefusedFrom(i: nat, k: nat) {
      forall j | i <= j < i + k :: world.connect(j) == RefusedAtOnce
    }

    /** adns__tcp_tryconnect.  It leaves the state disconnected only if none of the connect()
        calls that it made was good; if every server refuses at once, every waiting query is
        charged once for each of them. */
    method TryConnect(now: Timeval)
      requires ConnOk({}) && NoDup(net.tcpw) && Normal(now) && now.sec >= 0
      modifies `net, `tcpsocket, `tcprecv, `tcprecvSkip, `tcpsend, `hist, `tcpstate, `tcpserver, `tcptimeout, `calls
      ensures ConnOk({}) && OnlyRetries(old(net), net)
      ensures old(tcpstate) != Disconnected ==> unchanged(this)
      ensures old(tcpstate) == Disconnected ==> tcprecvSkip == 0 && calls > old(calls)
      ensures old(tcpstate) == Disconnected && tcpstate == Disconnected ==>
        forall k | old(calls) <= k < calls :: !Good(world, k)
      ensures old(tcpstate) == Disconnected && !GoodAfter(world, old(calls)) ==> tcpstate == Disconnected
      ensures old(tcpstate) == Disconnected && tcpstate == Broken ==> HeadCharged(old(net))
      ensures old(tcpstate) == Disconnected && tcpstate == Connecting ==> !After(now, tcptimeout)
      ensures old(tcpstate) == Disconnected && RefusedFrom(old(calls), cfg.nservers) ==>
        tcpstate == Disconnected && net == ChargedTimes(old(net), cfg.nservers) &&
        (RetriedAtMost(net, cfg.nservers + 1) <==> RetriedAtMost(old(net), 1))
      ensures old(tcpstate) == Disconnected && world.connect(old(calls)) == InProgress ==>
        tcpstate == Connecting && net == old(net) && hist == old(hist) && calls == old(calls) + 1
    {
      hide SendOk, RecvOk, RetriesOk, SocketOk, Charged, HeadFailed, RetriedAtMost, OnlyRetries, HeadCharged;
      ghost var n := net;
      RetriesKnown(n, hist, tcpstate, cfg.nservers, {});
      RefusalsKeepBound(n, cfg.nservers, 1);
      if tcpstate != Disconnected {
        OnlyRetriesSelf(n);
        return;
      }
      var goOn := Dial(now);
      var tries := 1;
      while goOn && tries < cfg.nservers
        invariant ConnOk({}) && OnlyRetries(n, net) && tcprecvSkip == 0 && 1 <= tries <= cfg.nservers
        invariant calls > old(calls) && (goOn ==> tcpstate == Disconnected)
        invariant goOn ==> calls == old(calls) + tries && RefusedFrom(old(calls), tries) && net == ChargedTimes(n, tries)
        invariant tcpstate == Disconnected ==> forall k | old(calls) <= k < calls :: !Good(world, k)
        invariant !goOn ==> !RefusedFrom(old(calls), cfg.nservers)
        invariant tcpstate != Disconnected ==> GoodAfter(world, old(calls))
        invariant tries == 1 || world.connect(old(calls)) == RefusedAtOnce
        invariant tries == 1 && world.connect(old(calls)) == InProgress ==>
          tcpstate == Connecting && net == n && hist == old(hist) && calls == old(calls) + 1
        invariant tcpstate == Broken ==> HeadCharged(n)
        invariant tcpstate == Connecting ==> !After(now, tcptimeout)
      {
        ghost var before := net;
        goOn := Dial(now);
        OnlyRetriesTwice(n, before, net);
        StillCharged(n, before);
        tries := tries + 1;
      }
    }

    lemma StillCharged(n: Net, m: Net)
      requires OnlyRetries(n, m)
      ensures HeadCharged(m) ==> HeadCharged(n)
    {
    }

    // ---------- transmit.c: sending a query ----------

    /** A processed query that is ready for the wire. */
    ghost predicate Sendable(q: QueryId)
      reads this
    {
      q in net.queries &&
      var u := net.queries[q];
      u.state == ToSend && u.children == [] && 0 <= u.id < 65536 && DNS_HDRSIZE <= |u.dgram| &&
      (u.useVc || |u.dgram| > DNS_MAX_UDP ==> u.retries == 0)
    }

    /** A query that joins tcpw. */
    function TcpQueued(u: Query, now: Timeval): Query
      requires Normal(now)
    {
      u.(state := TcpWait, timeout := AddMs(now, TCP_WAIT_MS))
    }

    /** The first half of query_usetcp: q goes to the end of tcpw. */
    method JoinTcpw(q: QueryId, now: Timeval, ghost off: set<QueryId>)
      requires Ready(off) && q in off && Sendable(q) && net.queries[q].retries == 0 && Normal(now)
      modifies `net, `hist
      ensures NetOk(off - {q}) && ConnOk({q}) && q in net.tcpw && (tcpstate != Connected ==> ConnOk({}))
      ensures net == Enqueue(old(net), q, TcpQueued(old(net).queries[q], now))
      ensures hist == old(hist).(joined := hist.joined, past := old(hist).past[q := Past(0, 0)])
    {
      hide Consistent, SendOk, RecvOk, RetriesOk, SocketOk, TcpQueued, Enqueue;
      JoinKeepsNet(q, now, off);
      JoinKeepsConn(q, now, off);
      net := Enqueue(net, q, TcpQueued(net.queries[q], now));
      hist := hist.(joined := hist.joined[q := |hist.log|], past := hist.past[q := Past(0, 0)]);
    }

    lemma JoinKeepsNet(q: QueryId, now: Timeval, off: set<QueryId>)
      requires NetOk(off) && q in off && Sendable(q) && Normal(now)
      ensures var m := Enqueue(net, q, TcpQueued(net.queries[q], now));
        Consistent(m, off - {q}, cfg) && q in m.tcpw && forall x | x in m.queries :: x < nextQuery
    {
      QueueFacts(off);
      hide Consistent;
      EnqueueKeepsConsistent(net, off, cfg, q, TcpQueued(net.queries[q], now));
    }

    lemma JoinKeepsConn(q: QueryId, now: Timeval, off: set<QueryId>)
      requires Ready(off) && q in off && Sendable(q) && net.queries[q].retries == 0 && Normal(now)
      ensures var m := Enqueue(net, q, TcpQueued(net.queries[q], now));
        var h := hist.(joined := hist.joined[q := |hist.log|], past := hist.past[q := Past(0, 0)]);
        SendOk(m, h, tcpstate, tcpsend, {q}) && RetriesOk(m, h, tcpstate, cfg.nservers, {q}) &&
        SocketOk(m, tcpstate, tcpsocket, tcptimeout, {q}) && RecvOk(h, tcpstate, tcprecv, tcprecvSkip) && Calm(h) &&
        (tcpstate != Connected ==>
           SendOk(m, h, tcpstate, tcpsend, {}) && RetriesOk(m, h, tcpstate, cfg.nservers, {}) &&
           SocketOk(m, tcpstate, tcpsocket, tcptimeout, {}))
    {
      QueueFacts(off);
      hide Consistent, SendOk, RecvOk, RetriesOk, SocketOk;
      JoinKeepsConnection(net, hist, tcpstate, tcpsend, cfg.nservers, tcpsocket, tcptimeout, q, TcpQueued(net.queries[q], now));
      JoinKeepsRecv(q);
    }

    /** What the queues and records of the net are known to be. */
    lemma QueueFacts(off: set<QueryId>)
      requires NetOk(off)
      ensures NoDup(net.tcpw) && NoDup(net.udpw) && off <= net.queries.Keys
      ensures forall x | x in net.udpw || x in net.tcpw :: x in net.queries && x !in off
      ensures forall x | x in net.queries :: FieldsOk(net.queries[x], cfg)
    {
    }

    /** A query that joins tcpw does not touch what was received. */
    lemma JoinKeepsRecv(q: QueryId)
      requires RecvOk(hist, tcpstate, tcprecv, tcprecvSkip)
      ensures RecvOk(hist.(joined := hist.joined[q := |hist.log|], past := hist.past[q := Past(0, 0)]), tcpstate, tcprecv, tcprecvSkip)
    {
    }

    /** query_usetcp */
    method QueryUseTcp(q: QueryId, now: Timeval, ghost off: set<QueryId>)
      requires Ready(off) && q in off && Sendable(q) && net.queries[q].retries == 0
      requires Normal(now) && now.sec >= 0
      modifies `net, `tcpsocket, `tcprecv, `tcprecvSkip, `tcpsend, `hist, `tcpstate, `tcpserver, `tcptimeout, `calls
      ensures Ready(off - {q}) && Posted(old(net), net, q, now)
      ensures Receiving(old(tcpstate), old(tcprecv), old(tcprecvSkip), old(hist))
      ensures TcpSentAs(Enqueue(old(net), q, TcpQueued(old(net).queries[q], now)), net, q, |old(net).queries[q].dgram|, old(Wire()), Wire())
      ensures JoinedTcp(old(net), q, old(net).queries[q], old(hist).past, old(tcpstate), now, old(calls))
    {
      hide Consistent, SendOk, RecvOk, RetriesOk, SocketOk, Connects, OnlyRetries, Enqueue, Posted, TcpSentAs;
      ghost var n := net;
      JoinTcpw(q, now, off);
      EnqueuedRecord(n, q, TcpQueued(n.queries[q], now));
      SendAndConnect(q, now, off - {q});
      JoinIsPosted(n, net, q, now, off);
    }

    static lemma EnqueuedRecord(n: Net, q: QueryId, u: Query)
      ensures q in Enqueue(n, q, u).queries && Enqueue(n, q, u).queries[q] == u
    {
    }

    /** What adns__querysend_tcp and adns__tcp_tryconnect make of the net e, where q has joined
        tcpw with a packet of len bytes.  Which calls of connect() are made when there is no
        connection is left open, as are the retries that they cost. */
    ghost predicate TcpSentAs(e: Net, m: Net, q: QueryId, len: nat, a: Link, b: Link) {
      match a.tcp
      case Connected => m == Charged(e, {q}) && b == Framed(a, len)
      case Disconnected => OnlyRetries(e, m)
      case _ => m == e && b == a
    }

    lemma SentRetries(e: Net, m: Net, q: QueryId, len: nat, a: Link, b: Link)
      requires TcpSentAs(e, m, q, len, a, b) && q in e.tcpw
      ensures OnlyRetries(e, m)
    {
      ChargedOrNot(e, Charged(e, {q}), q);
      ChargedOrNot(e, e, q);
    }

    lemma JoinIsPosted(n: Net, m: Net, q: QueryId, now: Timeval, off: set<QueryId>)
      requires Consistent(n, off, cfg) && q in off && Normal(now) && n.queries[q].state == ToSend
      requires OnlyRetries(Enqueue(n, q, TcpQueued(n.queries[q], now)), m)
      ensures Posted(n, m, q, now)
    {
      var u := TcpQueued(n.queries[q], now);
      AfterIsMicros(now, u.timeout);
      hide Family, RowsOk;
      EnqueueIsPosted(n, m, q, u, now);
    }

    /** How a connection that was not up fares when a query has joined tcpw: j is the net with
        it, past the cycles, k the next network call. */
    ghost predicate Connects(j: Net, past: map<QueryId, Past>, st: TcpState, k: nat)
      reads this
    {
      && (st == Connecting || st == Broken ==> net == j && hist.past == past && tcpstate == st && calls == k)
      && (st == Disconnected && RefusedFrom(k, cfg.nservers) ==> tcpstate == Disconnected && net == ChargedTimes(j, cfg.nservers))
      && (st == Disconnected && world.connect(k) == InProgress ==>
            tcpstate == Connecting && net == j && hist.past == past && calls == k + 1)
    }

    /** The query q, with the record u, has joined tcpw. */
    ghost predicate JoinedTcp(n: Net, q: QueryId, u: Query, past: map<QueryId, Past>, st: TcpState, now: Timeval, k: nat)
      requires Normal(now)
      reads this
    {
      Connects(Enqueue(n, q, TcpQueued(u, now)), past[q := Past(0, 0)], st, k)
    }

    /** The second half of query_usetcp. */
    method SendAndConnect(q: QueryId, now: Timeval, ghost off: set<QueryId>)
      requires NetOk(off) && ConnOk({q}) && q in net.tcpw && (tcpstate != Connected ==> ConnOk({}))
      requires Normal(now) && now.sec >= 0
      modifies `net, `tcpsocket, `tcprecv, `tcprecvSkip, `tcpsend, `hist, `tcpstate, `tcpserver, `tcptimeout, `calls
      ensures Ready(off) && OnlyRetries(old(net), net)
      ensures Receiving(old(tcpstate), old(tcprecv), old(tcprecvSkip), old(hist))
      ensures Connects(old(net), old(hist).past, old(tcpstate), old(calls))
      ensures q in old(net).queries && TcpSentAs(old(net), net, q, |old(net).queries[q].dgram|, old(Wire()), Wire())
    {
      hide Consistent, SendOk, RetriesOk, SocketOk, OnlyRetries, Charged, Connects;
      ghost var joined := net;
      QueueFacts(off);
      QuerySendTcp(q, {q});
      ghost var sent := net;
      assert {q} - {q} == {};
      ChargedOrNot(joined, sent, q);
      OnlyRetriesKeepsConsistent(joined, sent, off, cfg);
      SameNumbers(joined, sent);
      ConnectNow(now, off);
      OnlyRetriesTwice(joined, sent, net);
      UpConnects(joined, old(hist).past, old(calls));
    }

    static lemma ChargedOrNot(n: Net, m: Net, q: QueryId)
      requires q in n.tcpw && (m == n || m == Charged(n, {q}))
      ensures OnlyRetries(n, m)
    {
      OnlyRetriesSelf(n);
      ChargedIsOnlyRetries(n, {q});
    }

    lemma UpConnects(j: Net, past: map<QueryId, Past>, k: nat)
      ensures Connects(j, past, Connected, k)
    {
    }

    method ConnectNow(now: Timeval, ghost off: set<QueryId>)
      requires NetOk(off) && ConnOk({}) && Normal(now) && now.sec >= 0
      modifies `net, `tcpsocket, `tcprecv, `tcprecvSkip, `tcpsend, `hist, `tcpstate, `tcpserver, `tcptimeout, `calls
      ensures Ready(off) && OnlyRetries(old(net), net)
      ensures old(tcpstate) != Disconnected ==> unchanged(this)
      ensures old(tcpstate) == Disconnected ==> tcprecvSkip == 0
      ensures Connects(old(net), old(hist).past, old(tcpstate), old(calls))
    {
      hide Consistent, SendOk, RecvOk, RetriesOk, SocketOk, OnlyRetries, Charged, ChargedTimes, RefusedFrom, HeadFailed,
        HeadCharged;
      ghost var n := net;
      QueueFacts(off);
      TryConnect(now);
      OnlyRetriesKeepsConsistent(n, net, off, cfg);
      SameNumbers(n, net);
    }

    /** What a reader of the connection may rely on across a call: either nothing touched
        the receive side, or the connection is gone (or new) and the buffer is empty. */
    ghost predicate Receiving(st: TcpState, recv: seq<Byte>, skip: nat, h: History)
      reads this
    {
      (st == Connected ==> tcpstate == Connected || tcpstate == Broken) &&
      (st == Broken ==> tcpstate == Broken) &&
      (st == Connected && NoHardErrors(world) ==> tcpstate == Connected) &&
      (st == Connected && tcpstate == Connected ==>
         tcprecv == recv && tcprecvSkip == skip && hist.received == h.received && hist.handed == h.handed) &&
      (st != Connected || tcpstate != Connected ==> tcprecvSkip == 0)
    }

    /** Changes the record of a query that is being processed. */
    method Edit(q: QueryId, v: Query, ghost off: set<QueryId>)
      requires Ready(off) && q in off
      requires SameKin(net.queries[q], v) && v.state != Finished && FieldsOk(v, cfg)
      modifies `net
      ensures Ready(off) && net == WithQuery(old(net), q, v)
    {
      hide Consistent, SendOk, RecvOk, RetriesOk, SocketOk, FieldsOk, SameKin;
      QueueFacts(off);
      ghost var n := net;
      EditKeepsConsistent(n, off, cfg, q, v);
      net := WithQuery(net, q, v);
      UntouchedConnOk(n, net);
    }

    method EditHandled(q: QueryId, v: Query, now: Timeval)
      requires Ready({q})
      requires SameKin(net.queries[q], v) && v.state != Finished && FieldsOk(v, cfg) && v.search == net.queries[q].search
      modifies `net
      ensures Ready({q}) && net == WithQuery(old(net), q, v) && Handled(old(net), net, now) && OnlyTouches(old(net), net, {})
    {
      ghost var n := net;
      Edit(q, v, {q});
      EditSettles(n, q, v);
      SettledIsHandled(n, net, now);
      SettledJoins(n, net, {});
    }

    /** LIST_LINK_TAIL for a processed query that does not go to tcpw. */
    method LinkTail(q: QueryId, u: Query, ghost off: set<QueryId>)
      requires Ready(off) && q in off && SameKin(net.queries[q], u) && FieldsOk(u, cfg) && RowOk(u) && u.state != TcpWait
      modifies `net
      ensures Ready(off - {q}) && net == Enqueue(old(net), q, u)
    {
      hide Family, RowsOk, SendOk, RecvOk, RetriesOk, SocketOk, Handled;
      ghost var n := net;
      EnqueueKeepsConsistent(n, off, cfg, q, u);
      net := Enqueue(net, q, u);
      UntouchedConnOk(n, net);
    }

    /** One more datagram of a query: the next server in turn, a deadline for its answer. */
    function UdpSent(u: Query, now: Timeval): Query
      requires Normal(now) && cfg.nservers > 0
    {
      u.(timeout := AddMs(now, UDP_RETRY_MS), udpSent := u.udpSent + {u.udpNextServer},
         udpNextServer := (u.udpNextServer + 1) % cfg.nservers, retries := u.retries + 1)
    }

    /** The last lines of adns__query_send: one datagram to one server. */
    method SendUdp(q: QueryId, now: Timeval, ghost off: set<QueryId>)
      requires Ready(off) && q in off && Sendable(q) && Normal(now)
      requires net.queries[q].retries < UDP_MAX_RETRIES && !net.queries[q].useVc
      requires |net.queries[q].dgram| <= DNS_MAX_UDP
      modifies `net
      ensures Ready(off - {q}) && Posted(old(net), net, q, now)
      ensures net == Enqueue(old(net), q, UdpSent(old(net).queries[q], now))
    {
      ghost var n := net;
      AfterIsMicros(now, AddMs(now, UDP_RETRY_MS));
      var u := UdpSent(net.queries[q], now);
      assert FieldsOk(net.queries[q], cfg);
      LinkTail(q, u, off);
      OnlyRetriesSelf(net);
      EnqueueIsPosted(n, net, q, u, now);
    }

    /** adns__query_send gives up: too many datagrams have been sent. */
    static predicate SendFails(u: Query) {
      !u.useVc && |u.dgram| <= DNS_MAX_UDP && u.retries >= UDP_MAX_RETRIES
    }

    /** A datagram that is sent at network call k goes over UDP. */
    predicate OverUdp(u: Query, k: nat) {
      !u.useVc && |u.dgram| <= DNS_MAX_UDP && !world.oversize(k)
    }

    /** A datagram that sendto() finds too long starts afresh over TCP. */
    static function ForTcp(u: Query): Query {
      if !u.useVc && |u.dgram| <= DNS_MAX_UDP then u.(retries := 0) else u
    }

    /** A datagram that goes over TCP may first have cost a call of sendto(). */
    static function Tried(u: Query, a: Link): Link {
      if !u.useVc && |u.dgram| <= DNS_MAX_UDP then a.(calls := a.calls + 1) else a
    }

    /** What adns__query_send for q, with the record u and on the link a, makes of the net and
        the link: a failure, a place at the end of udpw, or one at the end of tcpw. */
    ghost predicate SentAs(n: Net, m: Net, q: QueryId, u: Query, now: Timeval, a: Link, b: Link)
      requires Normal(now) && cfg.nservers > 0
    {
      if SendFails(u) then m == Fail(WithQuery(n, q, u), q, StTimeout) && b == a
      else if OverUdp(u, a.calls) then m == Enqueue(n, q, UdpSent(u, now)) && b == a.(calls := a.calls + 1)
      else TcpSentAs(Enqueue(n, q, TcpQueued(ForTcp(u), now)), m, q, |u.dgram|, Tried(u, a), b)
    }

    /** Only the last record given to q before it is sent matters. */
    lemma SentOver(n: Net, m: Net, q: QueryId, v: Query, u: Query, now: Timeval, a: Link, b: Link)
      requires Normal(now) && cfg.nservers > 0
      ensures SentAs(WithQuery(n, q, v), m, q, u, now, a, b) <==> SentAs(n, m, q, u, now, a, b)
    {
      EnqueueOver(n, q, v, u);
      EnqueueOver(n, q, v, UdpSent(u, now));
      EnqueueOver(n, q, v, TcpQueued(ForTcp(u), now));
    }

    /** adns__query_send */
    method QuerySend(q: QueryId, now: Timeval, ghost off: set<QueryId>) returns (failed: bool)
      requires Ready(off) && q in off && Sendable(q) && Normal(now) && now.sec >= 0
      requires net.queries[q].retries >= UDP_MAX_RETRIES ==> off == {q}
      modifies `net, `tcpsocket, `tcprecv, `tcprecvSkip, `tcpsend, `hist, `tcpstate, `tcpserver, `tcptimeout, `calls
      ensures failed <==> SendFails(old(net).queries[q])
      ensures SentAs(old(net), net, q, old(net).queries[q], now, old(Wire()), Wire())
      ensures !failed ==> Ready(off - {q}) && Posted(old(net), net, q, now)
      ensures failed ==> Ready({}) && Settled(old(net), net)
      ensures Receiving(old(tcpstate), old(tcprecv), old(tcprecvSkip), old(hist))
      ensures old(net).queries[q].useVc ==> JoinedTcp(old(net), q, old(net).queries[q], old(hist).past, old(tcpstate), now, old(calls))
    {
      hide Consistent, SendOk, RetriesOk, SocketOk, Connects, OnlyRetries, JoinedTcp, Posted, Settled, Fail, TcpSentAs;
      failed := false;
      ghost var n := net;
      EnqueueOver(n, q, n.queries[q], n.queries[q]);
      if net.queries[q].useVc || |net.queries[q].dgram| > DNS_MAX_UDP {
        QueryUseTcp(q, now, off);
        return;
      }
      if net.queries[q].retries >= UDP_MAX_RETRIES {
        FinishFailed(q, StTimeout);
        failed := true;
        return;
      }
      if world.oversize(calls) {
        calls := calls + 1;
        SendOversize(q, now, off);
        return;
      }
      calls := calls + 1;
      SendUdp(q, now, off);
    }

    /** sendto() found the datagram too long. */
    method SendOversize(q: QueryId, now: Timeval, ghost off: set<QueryId>)
      requires Ready(off) && q in off && Sendable(q) && Normal(now) && now.sec >= 0
      modifies `net, `tcpsocket, `tcprecv, `tcprecvSkip, `tcpsend, `hist, `tcpstate, `tcpserver, `tcptimeout, `calls
      ensures Ready(off - {q}) && Posted(old(net), net, q, now)
      ensures TcpSentAs(Enqueue(old(net), q, TcpQueued(old(net).queries[q].(retries := 0), now)), net, q,
                        |old(net).queries[q].dgram|, old(Wire()), Wire())
      ensures Receiving(old(tcpstate), old(tcprecv), old(tcprecvSkip), old(hist))
    {
      hide Family, SendOk, RecvOk, RetriesOk, SocketOk, Connects, OnlyRetries, TcpSentAs;
      ghost var n := net;
      ghost var v := n.queries[q].(retries := 0);
      assert FieldsOk(n.queries[q], cfg);
      Edit(q, net.queries[q].(retries := 0), off);
      ghost var e := net;
      QueryUseTcp(q, now, off);
      EditThenPosted(n, e, net, q, now, v);
      EnqueueOver(n, q, v, TcpQueued(v, now));
    }

    static lemma EditThenPosted(n: Net, e: Net, m: Net, q: QueryId, now: Timeval, v: Query)
      requires q in n.queries && SameKin(n.queries[q], v) && e == WithQuery(n, q, v)
      requires v.state == n.queries[q].state && v.search == n.queries[q].search
      requires q !in n.udpw && q !in n.tcpw && Posted(e, m, q, now)
      ensures Posted(n, m, q, now)
    {
    }

    /** adns__query_send inside the event loop. */
    method SendNow(q: QueryId, now: Timeval)
      requires Ready({q}) && Sendable(q) && Normal(now) && now.sec >= 0
      modifies `net, `tcpsocket, `tcprecv, `tcprecvSkip, `tcpsend, `hist, `tcpstate, `tcpserver, `tcptimeout, `calls
      ensures Ready({}) && Handled(old(net), net, now) && OnlyTouches(old(net), net, {q})
      ensures SentAs(old(net), net, q, old(net).queries[q], now, old(Wire()), Wire())
      ensures Receiving(old(tcpstate), old(tcprecv), old(tcprecvSkip), old(hist))
      ensures old(net).queries[q].useVc ==> JoinedTcp(old(net), q, old(net).queries[q], old(hist).past, old(tcpstate), now, old(calls))
    {
      hide Family, RowsOk, SendOk, RetriesOk, SocketOk, OnlyRetries, Handled, OnlyTouches, SentAs, JoinedTcp;
      ghost var m := net;
      var u := net.queries[q];
      ghost var l := Wire();
      var failed := QuerySend(q, now, {q});
      assert {q} - {q} == {};
      if failed {
        SettledIsHandled(m, net, now);
        SettledJoins(m, net, {q});
      } else {
        PostedIsHandled(m, net, q, now);
        SentJoins(m, net, q, u, now, l, Wire());
      }
    }

    /** A query that is sent is the only one that may join tcpw. */
    lemma SentJoins(n: Net, m: Net, q: QueryId, u: Query, now: Timeval, a: Link, b: Link)
      requires Normal(now) && cfg.nservers > 0 && SentAs(n, m, q, u, now, a, b) && !SendFails(u)
      ensures OnlyTouches(n, m, {q})
    {
      if OverUdp(u, a.calls) {
        OnlyRetriesSelf(m);
        EnqueueJoins(n, m, q, UdpSent(u, now));
      } else {
        var v := TcpQueued(ForTcp(u), now);
        SentRetries(Enqueue(n, q, v), m, q, |u.dgram|, Tried(u, a), b);
        EnqueueJoins(n, m, q, v);
      }
    }

    // ---------- query.c: submission ----------

    /** adns__mkquery, as far as the queues can see it. */
    method MakeQuery() returns (r: MkQuery, id: int)
      modifies `nextid
      ensures nextid == old(nextid) + 1 && id == old(nextid) % 65536 && r == Packet(old(nextid))
    {
      id := nextid % 65536;
      r := Packet(nextid);
      nextid := nextid + 1;
    }

    /** The packet for the k-th name asked for; no packet has an impossible size. */
    function Packet(k: nat): (r: MkQuery)
      ensures r.Made? ==> DNS_HDRSIZE <= |r.dgram| <= MAX_QUERY
      ensures r.Invalid? ==> r.status != StOk
    {
      match world.mk(k)
      case Made(dgram) => if DNS_HDRSIZE <= |dgram| <= MAX_QUERY then Made(dgram) else TooLong
      case TooLong => TooLong
      case Invalid(st) => Invalid(if st == StOk then StOther(0) else st)
    }

    /** adns__mkquery_frdgram cannot fail on a name that was parsed before. */
    method MakeQueryFrDgram() returns (dgram: seq<Byte>, id: int)
      modifies `nextid
      ensures nextid == old(nextid) + 1 && id == old(nextid) % 65536 && dgram == CopiedPacket(old(nextid))
    {
      id := nextid % 65536;
      dgram := CopiedPacket(nextid);
      nextid := nextid + 1;
    }

    function CopiedPacket(k: nat): (dgram: seq<Byte>)
      ensures DNS_HDRSIZE <= |dgram| <= MAX_QUERY
    {
      if DNS_HDRSIZE <= |world.fromDgram(k)| <= MAX_QUERY then world.fromDgram(k) else seq(DNS_HDRSIZE, _ => 0)
    }

    /** A query taken off its queue, or a virgin one, about to be given a datagram. */
    ghost predicate Unsent(q: QueryId)
      reads this
    {
      q in net.queries &&
      var u := net.queries[q];
      u.children == [] && (u.state == ToSend || u.state == TcpWait) &&
      (u.state == ToSend && u.useVc ==> u.retries == 0)
    }

    ghost function NamesLeft(q: QueryId): seq<SearchList.Candidate>
      requires q in net.queries
      reads this
    {
      SearchList.Remaining(net.queries[q].searchPos, net.queries[q].searchDoneAbs, cfg.nsearchlist)
    }

    /** What comes of asking for the packet number k for a name, with left names after it. */
    ghost function WalkName(k: nat, search: bool, left: nat): (w: Walk)
      ensures w.names <= left && (w.end.NoneLeft? ==> w.names == left) && (!search ==> w.names == 0)
      ensures w.end.Packed? ==> 0 <= w.end.id < 65536 && DNS_HDRSIZE <= |w.end.dgram| <= MAX_QUERY
      decreases left, 1
    {
      match Packet(k)
      case Made(dgram) => Walk(0, Packed(dgram, k % 65536))
      case Invalid(st) => Walk(0, Barred(st))
      case TooLong => if search then WalkNext(k + 1, left) else Walk(0, Barred(StOther(1)))
    }

    /** The same, moving on to the next of the names that are left. */
    ghost function WalkNext(k: nat, left: nat): (w: Walk)
      ensures w.names <= left && (w.end.NoneLeft? ==> w.names == left) && (left > 0 ==> w.names > 0)
      ensures w.end.Packed? ==> 0 <= w.end.id < 65536 && DNS_HDRSIZE <= |w.end.dgram| <= MAX_QUERY
      decreases left, 0
    {
      if left == 0 then Walk(0, NoneLeft)
      else
        var w := WalkName(k, true, left - 1);
        Walk(w.names + 1, w.end)
    }

    /** The record of a query that has moved on by k names of its search. */
    ghost function Moved(u: Query, k: nat): Query {
      var a := SearchList.After(u.searchPos, u.searchDoneAbs, cfg.nsearchlist, k);
      if k == 0 then u else u.(searchPos := a.0, searchDoneAbs := a.1, dgram := [])
    }

    /** What a walk makes of the net n for q: a failure with nxdomain when no name is left or
        with the reason why one is refused; or the packet is sent, except that the assertion at
        the top of adns__query_send fails for a query that came from tcpw. */
    ghost predicate WalkedTo(n: Net, m: Net, q: QueryId, w: Walk, aborted: bool, now: Timeval, a: Link, b: Link)
      requires q in n.queries && Normal(now) && cfg.nservers > 0
    {
      var v := Moved(n.queries[q], w.names);
      match w.end
      case NoneLeft => !aborted && m == Fail(WithQuery(n, q, v), q, StNxDomain) && b == a
      case Barred(st) => !aborted && m == Fail(WithQuery(n, q, v), q, st) && b == a
      case Packed(dgram, id) =>
        (aborted <==> v.state != ToSend) && (!aborted ==> SentAs(n, m, q, v.(dgram := dgram, id := id), now, a, b))
    }

    /** How the connection fares when the packet of a walk goes over TCP. */
    ghost predicate WalkJoins(n: Net, q: QueryId, w: Walk, past: map<QueryId, Past>, st: TcpState, now: Timeval, k: nat)
      requires q in n.queries && Normal(now)
      reads this
    {
      w.end.Packed? && n.queries[q].useVc && n.queries[q].state == ToSend ==>
        JoinedTcp(n, q, Moved(n.queries[q], w.names).(dgram := w.end.dgram, id := w.end.id), past, st, now, k)
    }

    /** A walk of one name more. */
    lemma WalkOneMore(n: Net, m: Net, q: QueryId, w: Walk, aborted: bool, now: Timeval, a: Link, b: Link)
      requires q in n.queries && Normal(now) && cfg.nservers > 0
      requires SearchList.Next(n.queries[q].searchPos, n.queries[q].searchDoneAbs, cfg.nsearchlist).Some?
      requires WalkedTo(WithQuery(n, q, Moved(n.queries[q], 1)), m, q, w, aborted, now, a, b)
      ensures WalkedTo(n, m, q, Walk(w.names + 1, w.end), aborted, now, a, b)
    {
      hide Fail, SentAs;
      var u := n.queries[q];
      var v := Moved(u, 1);
      var x := Moved(v, w.names);
      assert x == Moved(u, w.names + 1);
      EnqueueOver(n, q, v, x);
      if w.end.Packed? {
        SentOver(n, m, q, v, x.(dgram := w.end.dgram, id := w.end.id), now, a, b);
      }
    }

    lemma JoinOneMore(n: Net, q: QueryId, w: Walk, past: map<QueryId, Past>, st: TcpState, now: Timeval, k: nat)
      requires q in n.queries && Normal(now)
      requires SearchList.Next(n.queries[q].searchPos, n.queries[q].searchDoneAbs, cfg.nsearchlist).Some?
      requires WalkJoins(WithQuery(n, q, Moved(n.queries[q], 1)), q, w, past, st, now, k)
      ensures WalkJoins(n, q, Walk(w.names + 1, w.end), past, st, now, k)
    {
      hide Connects;
      var u := n.queries[q];
      var v := Moved(u, 1);
      assert Moved(v, w.names) == Moved(u, w.names + 1);
      if w.end.Packed? {
        EnqueueOver(n, q, v, TcpQueued(Moved(v, w.names).(dgram := w.end.dgram, id := w.end.id), now));
      }
    }

    /** A walk without a name more. */
    lemma WalkInPlace(n: Net, m: Net, q: QueryId, end: WalkEnd, aborted: bool, now: Timeval, a: Link, b: Link)
      requires q in n.queries && Normal(now) && cfg.nservers > 0
      requires match end
        case NoneLeft => !aborted && m == Fail(n, q, StNxDomain) && b == a
        case Barred(st) => !aborted && m == Fail(n, q, st) && b == a
        case Packed(dgram, id) =>
          (aborted <==> n.queries[q].state != ToSend) &&
          (!aborted ==> SentAs(n, m, q, n.queries[q].(dgram := dgram, id := id), now, a, b))
      ensures WalkedTo(n, m, q, Walk(0, end), aborted, now, a, b)
    {
      hide Fail, SentAs;
      EnqueueOver(n, q, n.queries[q], n.queries[q]);
    }

    /** query_simple and query_submit: the packet for a name that has been chosen.  A search
        goes on with the next name when this one is too long. */
    method QuerySimple(q: QueryId, now: Timeval) returns (aborted: bool)
      requires Ready({q}) && Unsent(q) && Normal(now) && now.sec >= 0
      modifies `net, `nextid, `tcpsocket, `tcprecv, `tcprecvSkip, `tcpsend, `hist, `tcpstate, `tcpserver, `tcptimeout, `calls
      ensures !aborted ==> Ready({}) && Handled(old(net), net, now) && OnlyTouches(old(net), net, {q})
      ensures !aborted ==> Receiving(old(tcpstate), old(tcprecv), old(tcprecvSkip), old(hist))
      ensures var w := old(WalkName(nextid, net.queries[q].search, |NamesLeft(q)|));
        nextid == old(nextid) + 1 + w.names && WalkedTo(old(net), net, q, w, aborted, now, old(Wire()), Wire()) &&
        WalkJoins(old(net), q, w, old(hist).past, old(tcpstate), now, old(calls))
      decreases SearchList.Left(net.queries[q].searchPos, net.queries[q].searchDoneAbs, cfg.nsearchlist), 1
    {
      hide Consistent, SendOk, RetriesOk, SocketOk, Handled, WalkedTo, SentAs, Fail, JoinedTcp, OnlyTouches;
      aborted := false;
      ghost var n, l := net, Wire();
      var made, id := MakeQuery();
      match made {
        case TooLong =>
          if net.queries[q].search {
            aborted := SearchNext(q, now);
          } else {
            FailReply(q, StOther(1), now);
            WalkInPlace(n, net, q, Barred(StOther(1)), aborted, now, l, Wire());
          }
        case Invalid(st) =>
          FailReply(q, st, now);
          WalkInPlace(n, net, q, Barred(st), aborted, now, l, Wire());
        case Made(dgram) =>
          aborted := net.queries[q].state != ToSend;
          if !aborted {
            SubmitPacket(q, dgram, id, now);
          }
          WalkInPlace(n, net, q, Packed(dgram, id), aborted, now, l, Wire());
      }
    }

    /** adns__search_next: moves on to the next names of the search list, one packet number for
        each, up to the first that is not too long. */
    method SearchNext(q: QueryId, now: Timeval) returns (aborted: bool)
      requires Ready({q}) && Unsent(q) && net.queries[q].search && Normal(now) && now.sec >= 0
      modifies `net, `nextid, `tcpsocket, `tcprecv, `tcprecvSkip, `tcpsend, `hist, `tcpstate, `tcpserver, `tcptimeout, `calls
      ensures !aborted ==> Ready({}) && Handled(old(net), net, now) && OnlyTouches(old(net), net, {q})
      ensures !aborted ==> Receiving(old(tcpstate), old(tcprecv), old(tcprecvSkip), old(hist))
      ensures var w := old(WalkNext(nextid, |NamesLeft(q)|));
        nextid == old(nextid) + w.names && WalkedTo(old(net), net, q, w, aborted, now, old(Wire()), Wire()) &&
        WalkJoins(old(net), q, w, old(hist).past, old(tcpstate), now, old(calls))
      decreases SearchList.Left(net.queries[q].searchPos, net.queries[q].searchDoneAbs, cfg.nsearchlist), 0
    {
      assert FieldsOk(net.queries[q], cfg);
      hide Consistent, SendOk, RecvOk, RetriesOk, SocketOk, Handled, WalkedTo, WalkJoins, SentAs, Fail, OnlyTouches,
        Moved, Receiving, WalkNext;
      var u := net.queries[q];
      var choice := SearchList.Next(u.searchPos, u.searchDoneAbs, cfg.nsearchlist);
      if choice.None? {
        SearchEnds(q, now);
        aborted := false;
      } else {
        aborted := TryName(q, choice.value, now);
      }
    }

    /** No name is left. */
    method SearchEnds(q: QueryId, now: Timeval)
      requires Ready({q}) && Unsent(q) && Normal(now) && now.sec >= 0
      requires SearchList.Next(net.queries[q].searchPos, net.queries[q].searchDoneAbs, cfg.nsearchlist).None?
      modifies `net
      ensures Ready({}) && Handled(old(net), net, now) && OnlyTouches(old(net), net, {q})
      ensures Receiving(tcpstate, tcprecv, tcprecvSkip, hist)
      ensures var w := old(WalkNext(nextid, |NamesLeft(q)|));
        w.names == 0 && WalkedTo(old(net), net, q, w, false, now, Wire(), Wire()) &&
        WalkJoins(old(net), q, w, hist.past, tcpstate, now, calls)
    {
      hide Consistent, SendOk, RetriesOk, SocketOk, Handled, WalkedTo, SentAs, Fail, OnlyTouches;
      ghost var n := net;
      FailHandled(q, StNxDomain, now);
      MoreJoins(n, net, q);
      WalkInPlace(n, net, q, NoneLeft, false, now, Wire(), Wire());
    }

    /** The rest of adns__search_next, for the name that it has chosen. */
    method TryName(q: QueryId, c: SearchList.Choice, now: Timeval) returns (aborted: bool)
      requires Ready({q}) && Unsent(q) && net.queries[q].search && Normal(now) && now.sec >= 0 && c.pos <= cfg.nsearchlist
      requires SearchList.Next(net.queries[q].searchPos, net.queries[q].searchDoneAbs, cfg.nsearchlist) == Some(c)
      modifies `net, `nextid, `tcpsocket, `tcprecv, `tcprecvSkip, `tcpsend, `hist, `tcpstate, `tcpserver, `tcptimeout, `calls
      ensures !aborted ==> Ready({}) && Handled(old(net), net, now) && OnlyTouches(old(net), net, {q})
      ensures !aborted ==> Receiving(old(tcpstate), old(tcprecv), old(tcprecvSkip), old(hist))
      ensures var w := old(WalkNext(nextid, |NamesLeft(q)|));
        nextid == old(nextid) + w.names && WalkedTo(old(net), net, q, w, aborted, now, old(Wire()), Wire()) &&
        WalkJoins(old(net), q, w, old(hist).past, old(tcpstate), now, old(calls))
      decreases SearchList.Left(c.pos, c.doneAbs, cfg.nsearchlist), 2
    {
      hide Consistent, SendOk, RecvOk, RetriesOk, SocketOk, Handled, WalkedTo, WalkJoins, SentAs, Fail, OnlyTouches,
        WalkName, SearchList.Remaining, Moved, Receiving;
      ghost var n, k, l, id, names := net, calls, Wire(), nextid, NamesLeft(q);
      NamesFrom(n.queries[q], c);
      ChooseName(q, c, now);
      ghost var e := net;
      aborted := QuerySimple(q, now);
      ghost var w := WalkName(id, true, |names| - 1);
      WalkOneMore(n, net, q, w, aborted, now, l, Wire());
      JoinOneMore(n, q, w, old(hist).past, old(tcpstate), now, k);
      if !aborted {
        HandledTwice(n, e, net, now);
        JoinsAfter(n, e, net, q);
      }
    }

    /** The names left, by the choice of the next one. */
    lemma NamesFrom(u: Query, c: SearchList.Choice)
      requires SearchList.Next(u.searchPos, u.searchDoneAbs, cfg.nsearchlist) == Some(c)
      ensures var names := SearchList.Remaining(u.searchPos, u.searchDoneAbs, cfg.nsearchlist);
        names != [] && names[0] == c.candidate && SearchList.Remaining(c.pos, c.doneAbs, cfg.nsearchlist) == names[1..]
      ensures Moved(u, 1) == u.(searchPos := c.pos, searchDoneAbs := c.doneAbs, dgram := [])
    {
    }

    /** A query that is being processed is on no queue. */
    lemma NotAside(q: QueryId)
      requires NetOk({q})
      ensures !Aside(net, q)
    {
    }

    /** A query without a search list is none of those. */
    static lemma PlainJoins(n: Net, m: Net, q: QueryId, now: Timeval)
      requires OnlyTouches(n, m, {q}) && Handled(n, m, now) && q in n.queries && !n.queries[q].search && !Aside(n, q)
      ensures OnlyTouches(n, m, {})
    {
    }

    static lemma JoinsAfter(n: Net, e: Net, m: Net, q: QueryId)
      requires OnlyTouches(n, e, {}) && OnlyTouches(e, m, {q})
      ensures OnlyTouches(n, m, {q})
    {
    }

    method FailHandled(q: QueryId, st: Status, now: Timeval)
      requires Ready({q}) && net.queries[q].state != Finished
      modifies `net
      ensures Ready({}) && net == Fail(old(net), q, st) && Handled(old(net), net, now) && OnlyTouches(old(net), net, {})
      ensures TcpUntouched(old(net), net)
    {
      ghost var n := net;
      FinishFailed(q, st);
      SettledIsHandled(n, net, now);
      SettledJoins(n, net, {});
    }

    /** query_submit on a query in state tosend. */
    method SubmitPacket(q: QueryId, dgram: seq<Byte>, id: int, now: Timeval)
      requires Ready({q}) && Unsent(q) && net.queries[q].state == ToSend && Normal(now) && now.sec >= 0
      requires DNS_HDRSIZE <= |dgram| <= MAX_QUERY && 0 <= id < 65536
      modifies `net, `tcpsocket, `tcprecv, `tcprecvSkip, `tcpsend, `hist, `tcpstate, `tcpserver, `tcptimeout, `calls
      ensures Ready({}) && Handled(old(net), net, now) && OnlyTouches(old(net), net, {q})
      ensures SentAs(old(net), net, q, old(net).queries[q].(dgram := dgram, id := id), now, old(Wire()), Wire())
      ensures Receiving(old(tcpstate), old(tcprecv), old(tcprecvSkip), old(hist))
      ensures old(net).queries[q].useVc ==>
        JoinedTcp(old(net), q, old(net).queries[q].(dgram := dgram, id := id), old(hist).past, old(tcpstate), now, old(calls))
    {
      hide Family, SendOk, RecvOk, RetriesOk, SocketOk, Handled, OnlyTouches, SentAs, Connects;
      ghost var n, l := net, Wire();
      ghost var v := n.queries[q].(dgram := dgram, id := id);
      assert FieldsOk(n.queries[q], cfg);
      EditHandled(q, net.queries[q].(dgram := dgram, id := id), now);
      ghost var e := net;
      SendNow(q, now);
      HandledTwice(n, e, net, now);
      JoinsAfter(n, e, net, q);
      SentOver(n, net, q, v, v, now, l, Wire());
      EnqueueOver(n, q, v, TcpQueued(v, now));
    }

    method ChooseName(q: QueryId, c: SearchList.Choice, now: Timeval)
      requires Ready({q}) && Unsent(q) && c.pos <= cfg.nsearchlist
      modifies `net
      ensures Ready({q}) && Unsent(q) && Handled(old(net), net, now) && OnlyTouches(old(net), net, {})
      ensures net == WithQuery(old(net), q, old(net.queries[q]).(searchPos := c.pos, searchDoneAbs := c.doneAbs, dgram := []))
    {
      assert FieldsOk(net.queries[q], cfg);
      EditHandled(q, net.queries[q].(searchPos := c.pos, searchDoneAbs := c.doneAbs, dgram := []), now);
    }

    /** query_alloc */
    static function Virgin(callback: Callback, search: bool, useVc: bool, doneAbs: int, queried: Addr): Query {
      Query(ToSend, None, [], callback, -2, 0, 0, {}, ZERO, useVc, search, 0, doneAbs, [], StOk, [], queried)
    }

    method Alloc(u: Query, ghost off: set<QueryId>) returns (q: QueryId)
      requires Ready(off) && u.parent == None && u.children == [] && FieldsOk(u, cfg)
      modifies `net, `nextQuery
      ensures nextQuery >= old(nextQuery)
      ensures q == old(nextQuery) && nextQuery == q + 1
      ensures q !in old(net).queries && net == WithQuery(old(net), q, u)
      ensures Ready(off + {q})
    {
      hide Consistent, SendOk, RecvOk, RetriesOk, SocketOk, FieldsOk;
      QueueFacts(off);
      ghost var n := net;
      q := nextQuery;
      AllocKeepsConsistent(n, off, cfg, q, u);
      net := WithQuery(net, q, u);
      nextQuery := nextQuery + 1;
      UntouchedConnOk(n, net);
    }

    /** What adns_submit makes of the names of a new query, or of one that is refused. */
    ghost predicate StartedAs(n: Net, m: Net, q: QueryId, bad: Option<Status>, id: nat, now: Timeval, a: Link, b: Link)
      requires q in n.queries && Normal(now) && cfg.nservers > 0
    {
      if bad.Some? then m == Fail(n, q, bad.value) && b == a
      else WalkedTo(n, m, q, FirstWalk(n.queries[q], id), false, now, a, b)
    }

    ghost function FirstWalk(u: Query, id: nat): Walk {
      var left := |SearchList.Remaining(u.searchPos, u.searchDoneAbs, cfg.nsearchlist)|;
      if u.search then WalkNext(id, left) else WalkName(id, false, left)
    }

    /** How many packet numbers adns_submit uses up. */
    ghost function FirstIds(u: Query, bad: Option<Status>, id: nat): nat {
      if bad.Some? then 0 else if u.search then FirstWalk(u, id).names else 1
    }

    ghost predicate StartJoins(n: Net, q: QueryId, bad: Option<Status>, id: nat, past: map<QueryId, Past>, st: TcpState, now: Timeval, k: nat)
      requires q in n.queries && Normal(now)
      reads this
    {
      bad.None? ==> WalkJoins(n, q, FirstWalk(n.queries[q], id), past, st, now, k)
    }

    /** A new query over TCP joins tcpw with the packet for its name, or for its first name. */
    lemma StartedTcp(n: Net, q: QueryId, u: Query, id: nat, past: map<QueryId, Past>, st: TcpState, now: Timeval, k: nat)
      requires Normal(now) && u.useVc && u.state == ToSend && Packet(id).Made?
      requires u.search ==> SearchList.Next(u.searchPos, u.searchDoneAbs, cfg.nsearchlist).Some?
      requires StartJoins(WithQuery(n, q, u), q, None, id, past, st, now, k)
      ensures var v := Moved(u, if u.search then 1 else 0).(dgram := Packet(id).dgram, id := id % 65536);
        Connects(Enqueue(n, q, TcpQueued(v, now)), past[q := Past(0, 0)], st, k)
    {
      hide Connects, Moved, FirstWalk;
      var w := FirstWalk(u, id);
      FirstWalkMade(u, id);
      assert WithQuery(n, q, u).queries[q] == u;
      var v := Moved(u, w.names).(dgram := w.end.dgram, id := w.end.id);
      assert JoinedTcp(WithQuery(n, q, u), q, v, past, st, now, k);
      EnqueueOver(n, q, u, TcpQueued(v, now));
    }

    lemma FirstWalkMade(u: Query, id: nat)
      requires Packet(id).Made? && (u.search ==> SearchList.Next(u.searchPos, u.searchDoneAbs, cfg.nsearchlist).Some?)
      ensures FirstWalk(u, id) == Walk(if u.search then 1 else 0, Packed(Packet(id).dgram, id % 65536))
    {
      var left := |SearchList.Remaining(u.searchPos, u.searchDoneAbs, cfg.nsearchlist)|;
      if u.search {
        assert WalkName(id, true, left - 1) == Walk(0, Packed(Packet(id).dgram, id % 65536));
      }
    }

    /** adns_submit: exactly one query joins those the user waits for, whatever becomes of
        it.  bad is the verdict on the owner name, bareFirst the comparison with ndots. */
    method Submit(search: bool, useVc: bool, bareFirst: bool, bad: Option<Status>, queried: Addr, now: Timeval)
      returns (q: QueryId)
      requires Valid() && Normal(now) && now.sec >= 0
      modifies this
      ensures Valid()
      ensures q == old(nextQuery) && nextQuery == q + 1 && q !in old(net).queries
      ensures Roots(net) == Roots(old(net)) + {q}
      ensures NoNewOverdue(old(net), net, now)
      ensures OnlyTouches(old(net), net, if search then {q} else {})
      ensures StartedAs(WithQuery(old(net), q, Virgin(External, search, useVc, if search && bareFirst then -1 else 0, queried)),
                        net, q, bad, old(nextid), now, old(Wire()), Wire())
      ensures nextid == old(nextid) +
        FirstIds(Virgin(External, search, useVc, if search && bareFirst then -1 else 0, queried), bad, old(nextid))
      ensures StartJoins(WithQuery(old(net), q, Virgin(External, search, useVc, if search && bareFirst then -1 else 0, queried)),
                         q, bad, old(nextid), old(hist).past, old(tcpstate), now, old(calls))
    {
      hide Family, RowsOk, SendOk, RecvOk, RetriesOk, SocketOk, StartedAs, StartJoins, OnlyTouches, Handled;
      ghost var n := net;
      q := Alloc(Virgin(External, search, useVc, if search && bareFirst then -1 else 0, queried), {});
      ghost var a := net;
      assert {} + {q} == {q};
      Start(q, bad, now);
      JoinedOnly(n, a, net, q, search, now);
    }

    /** The new query is a root, and nobody else became one. */
    lemma JoinedOnly(n: Net, a: Net, m: Net, q: QueryId, search: bool, now: Timeval)
      requires q !in n.queries && q in a.queries && a == WithQuery(n, q, a.queries[q]) && a.queries[q].parent == None
      requires forall x | x in n.udpw || x in n.tcpw :: x in n.queries
      requires Handled(a, m, now) && OnlyTouches(a, m, if search then {q} else {})
      ensures Roots(m) == Roots(n) + {q} && NoNewOverdue(n, m, now) && OnlyTouches(n, m, if search then {q} else {})
    {
      assert Roots(a) == Roots(n) + {q};
      assert NoNewOverdue(n, a, now);
      NoNewOverdueTwice(n, a, m, now);
      assert TcpSearches(a) <= TcpSearches(n);
    }

    method Start(q: QueryId, bad: Option<Status>, now: Timeval)
      requires Ready({q}) && Unsent(q) && net.queries[q].state == ToSend && Normal(now) && now.sec >= 0
      requires tcprecvSkip == 0
      modifies `net, `nextid, `tcpsocket, `tcprecv, `tcprecvSkip, `tcpsend, `hist, `tcpstate, `tcpserver, `tcptimeout, `calls
      ensures Valid() && Handled(old(net), net, now)
      ensures OnlyTouches(old(net), net, if old(net).queries[q].search then {q} else {})
      ensures StartedAs(old(net), net, q, bad, old(nextid), now, old(Wire()), Wire())
      ensures nextid == old(nextid) + FirstIds(old(net).queries[q], bad, old(nextid))
      ensures StartJoins(old(net), q, bad, old(nextid), old(hist).past, old(tcpstate), now, old(calls))
    {
      hide Consistent, SendOk, RecvOk, RetriesOk, SocketOk, Handled, WalkedTo, SentAs, Fail, OnlyTouches, Moved,
        WalkNext, Aside;
      ghost var n := net;
      NotAside(q);
      if bad.Some? {
        FailHandled(q, bad.value, now);
        MoreJoins(n, net, q);
      } else {
        var aborted;
        ghost var left := |NamesLeft(q)|;
        if net.queries[q].search {
          aborted := SearchNext(q, now);
          NoAbort(n, net, q, WalkNext(old(nextid), left), aborted, now, old(Wire()), Wire());
        } else {
          aborted := QuerySimple(q, now);
          NoAbort(n, net, q, WalkName(old(nextid), false, left), aborted, now, old(Wire()), Wire());
        }
      }
      if !n.queries[q].search {
        PlainJoins(n, net, q, now);
      }
    }

    /** A query in state tosend never trips the assertion of adns__query_send. */
    lemma NoAbort(n: Net, m: Net, q: QueryId, w: Walk, aborted: bool, now: Timeval, a: Link, b: Link)
      requires q in n.queries && Normal(now) && cfg.nservers > 0
      requires WalkedTo(n, m, q, w, aborted, now, a, b) && n.queries[q].state == ToSend
      ensures !aborted
    {
    }

    /** The queries that the records of a reply call for are numbered from first on; each has
        the parent q and the callback of its record.  Of all others only retry counts differ. */
    ghost predicate Grown(n: Net, m: Net, q: QueryId, kinds: seq<Callback>, first: QueryId) {
      && q in n.queries && q in m.queries && n.queries.Keys <= m.queries.Keys
      && m.queries[q] == n.queries[q].(children := n.queries[q].children + Numbers(first, |kinds|))
      && (forall i | 0 <= i < |kinds| :: ChildAt(m, first + i, q, kinds[i]))
      && (forall x | x in n.queries && x != q :: m.queries[x] == n.queries[x].(retries := m.queries[x].retries))
      && (kinds == [] ==> m == n)
    }

    static predicate ChildAt(n: Net, c: QueryId, p: QueryId, kind: Callback) {
      c in n.queries &&
      var u := n.queries[c];
      u.parent == Some(p) && u.callback == kind && (u.state == ToSend || u.state == TcpWait)
    }

    static function Numbers(first: QueryId, count: nat): (r: seq<QueryId>)
      ensures |r| == count && forall i :: 0 <= i < count ==> r[i] == first + i
    {
      seq(count, i => first + i)
    }

    /** The query u is submitted as c and adopted by p. */
    ghost predicate SentAndAdopted(n: Net, m: Net, p: QueryId, c: QueryId, u: Query, now: Timeval, a: Link, b: Link)
      requires Normal(now) && cfg.nservers > 0
    {
      exists y :: SentAs(WithQuery(n, c, u), y, c, u, now, a, b) && p in y.queries && c in y.queries && m == Adopt(y, p, c)
    }

    /** The record of a query that another one needs; k numbers its packet. */
    function ChildRecord(kind: Callback, k: nat): Query {
      Virgin(kind, false, false, 0, 0).(dgram := CopiedPacket(k), id := k % 65536)
    }

    /** The queries that the records of a reply call for have been submitted and adopted by q
        one after the other, numbered from first on, with packets from the number id on. */
    ghost predicate Spawned(n: Net, m: Net, q: QueryId, kinds: seq<Callback>, first: QueryId, id: nat, now: Timeval, a: Link, b: Link)
      requires Normal(now) && cfg.nservers > 0
      decreases |kinds|
    {
      if kinds == [] then m == n && b == a
      else
        var i := |kinds| - 1;
        exists x, l :: Spawned(n, x, q, kinds[..i], first, id, now, a, l) &&
          SentAndAdopted(x, m, q, first + i, ChildRecord(kinds[i], id + i), now, l, b)
    }

    /** pap_hostaddr and pa_ptr, where they need another query: adns__internal_submit, then
        adoption by the query whose answer is being parsed. */
    method SpawnChild(p: QueryId, kind: Callback, now: Timeval)
      requires Ready({p}) && kind != External && Normal(now) && now.sec >= 0
      modifies `net, `nextid, `nextQuery, `tcpsocket, `tcprecv, `tcprecvSkip, `tcpsend, `hist, `tcpstate, `tcpserver, `tcptimeout, `calls
      ensures nextQuery == old(nextQuery) + 1 && nextid == old(nextid) + 1 && Grown(old(net), net, p, [kind], old(nextQuery))
      ensures SentAndAdopted(old(net), net, p, old(nextQuery), ChildRecord(kind, old(nextid)), now, old(Wire()), Wire())
      ensures Ready({p}) && Handled(old(net), net, now) && OnlyTouches(old(net), net, {})
      ensures Receiving(old(tcpstate), old(tcprecv), old(tcprecvSkip), old(hist))
    {
      hide Consistent, SendOk, RecvOk, RetriesOk, SocketOk, Handled, Grown, OnlyTouches, SentAndAdopted;
      var dgram, id := MakeQueryFrDgram();
      SubmitAndAdopt(p, Virgin(kind, false, false, 0, 0).(dgram := dgram, id := id), now);
    }

    method SubmitAndAdopt(p: QueryId, u: Query, now: Timeval)
      requires Ready({p}) && Normal(now) && now.sec >= 0 && u.callback != External
      requires u == Virgin(u.callback, false, false, 0, u.queried).(dgram := u.dgram, id := u.id)
      requires DNS_HDRSIZE <= |u.dgram| && 0 <= u.id < 65536
      modifies `net, `nextQuery, `tcpsocket, `tcprecv, `tcprecvSkip, `tcpsend, `hist, `tcpstate, `tcpserver, `tcptimeout, `calls
      ensures nextQuery == old(nextQuery) + 1 && Grown(old(net), net, p, [u.callback], old(nextQuery))
      ensures SentAndAdopted(old(net), net, p, old(nextQuery), u, now, old(Wire()), Wire())
      ensures Ready({p}) && Handled(old(net), net, now) && OnlyTouches(old(net), net, {})
      ensures Receiving(old(tcpstate), old(tcprecv), old(tcprecvSkip), old(hist))
    {
      hide Family, RowsOk, SendOk, RecvOk, RetriesOk, SocketOk, Handled, OnlyTouches, Grown, Posted, Aside, SentAs, Adopt;
      ghost var n := net;
      NotAside(p);
      ghost var l := Wire();
      var c := InternalSubmit(p, u, now);
      assert SentAs(WithQuery(n, c, u), net, c, u, now, l, Wire());
      AdoptSubmitted(p, c, u, n, now);
    }

    method AdoptSubmitted(p: QueryId, c: QueryId, u: Query, ghost n: Net, now: Timeval)
      requires Ready({p}) && p < c && c !in n.queries && p in n.queries && !Aside(n, p)
      requires u.parent == None && !u.search && u.callback != External
      requires Posted(WithQuery(n, c, u), net, c, now) && u.children == [] && net.queries[p] == n.queries[p]
      requires OnlyTouches(WithQuery(n, c, u), net, {c})
      requires forall x | x in n.udpw || x in n.tcpw :: x in n.queries
      modifies `net
      ensures c in old(net).queries && p in old(net).queries && net == Adopt(old(net), p, c)
      ensures Ready({p}) && Handled(n, net, now) && OnlyTouches(n, net, {}) && Grown(n, net, p, [u.callback], c)
    {
      hide Consistent, SendOk, RecvOk, RetriesOk, SocketOk, Handled, OnlyTouches, Grown, Aside;
      ghost var m := net;
      assert m.queries[c].parent == None && m.queries[c].callback == u.callback;
      SpawnJoins(n, m, p, c, u, now);
      AdoptedIsGrown(n, m, p, c, u, now);
      assert forall x | x in m.udpw || x in m.tcpw :: x in m.queries;
      AdoptNew(p, c);
      SpawnIsHandled(n, m, p, c, u, now);
    }

    lemma SpawnJoins(n: Net, m: Net, p: QueryId, c: QueryId, u: Query, now: Timeval)
      requires c !in n.queries && p in n.queries && !u.search && p != c && !Aside(n, p)
      requires forall x | x in n.tcpw :: x in n.queries
      requires Posted(WithQuery(n, c, u), m, c, now) && OnlyTouches(WithQuery(n, c, u), m, {c})
      ensures OnlyTouches(n, Adopt(m, p, c), {})
    {
      hide NoNewOverdue, Adopt;
      var a, k := WithQuery(n, c, u), Adopt(m, p, c);
      AllocatedAside(n, c, u);
      AdoptedAside(m, p, c);
      assert !m.queries[c].search;
      forall q | Aside(n, q) ensures Stays(n, k, q) && q !in k.tcpw {
        assert q != p && q != c && Aside(a, q) && Stays(n, a, q) && Stays(a, m, q);
      }
    }

    lemma AllocatedAside(n: Net, c: QueryId, u: Query)
      requires c !in n.queries && forall x | x in n.tcpw :: x in n.queries
      ensures TcpSearches(WithQuery(n, c, u)) <= TcpSearches(n)
      ensures forall q | Aside(n, q) :: Aside(WithQuery(n, c, u), q) && Stays(n, WithQuery(n, c, u), q) && q != c
    {
    }

    lemma AdoptedAside(m: Net, p: QueryId, c: QueryId)
      requires p in m.queries && c in m.queries
      ensures TcpSearches(Adopt(m, p, c)) <= TcpSearches(m) && Adopt(m, p, c).tcpw == m.tcpw
      ensures forall q | q in m.queries && q != p && q != c :: Stays(m, Adopt(m, p, c), q)
    {
    }

    lemma AdoptedIsGrown(n: Net, m: Net, p: QueryId, c: QueryId, u: Query, now: Timeval)
      requires c !in n.queries && p in n.queries && p != c && u.parent == None
      requires Posted(WithQuery(n, c, u), m, c, now) && m.queries[p] == n.queries[p]
      ensures Grown(n, Adopt(m, p, c), p, [u.callback], c)
    {
      var a := WithQuery(n, c, u);
      assert a.queries.Keys == n.queries.Keys + {c};
      assert Numbers(c, 1) == [c];
      forall x | x in n.queries && x != p
        ensures x in Adopt(m, p, c).queries && Adopt(m, p, c).queries[x] == n.queries[x].(retries := Adopt(m, p, c).queries[x].retries)
      {
        assert a.queries[x] == n.queries[x] && x != c;
      }
    }

    /** adns__internal_submit, for the query p that is being processed. */
    method InternalSubmit(p: QueryId, u: Query, now: Timeval) returns (c: QueryId)
      requires Ready({p}) && Normal(now) && now.sec >= 0
      requires u == Virgin(u.callback, false, false, 0, u.queried).(dgram := u.dgram, id := u.id)
      requires DNS_HDRSIZE <= |u.dgram| && 0 <= u.id < 65536
      modifies `net, `nextQuery, `tcpsocket, `tcprecv, `tcprecvSkip, `tcpsend, `hist, `tcpstate, `tcpserver, `tcptimeout, `calls
      ensures c == old(nextQuery) && nextQuery == c + 1
      ensures Ready({p}) && p < c && c !in old(net).queries && c in net.queries
      ensures Posted(WithQuery(old(net), c, u), net, c, now) && net.queries[p] == old(net).queries[p]
      ensures OnlyTouches(WithQuery(old(net), c, u), net, {c})
      ensures SentAs(WithQuery(old(net), c, u), net, c, u, now, old(Wire()), Wire())
      ensures Receiving(old(tcpstate), old(tcprecv), old(tcprecvSkip), old(hist))
    {
      hide Family, RowsOk, SendOk, RecvOk, RetriesOk, SocketOk, OnlyTouches, SentAs;
      c := Alloc(u, {p});
      ghost var a, l := net, Wire();
      var failed := QuerySend(c, now, {p} + {c});
      SentJoins(a, net, c, u, now, l, Wire());
      assert ({p} + {c}) - {c} == {p};
    }

    method AdoptNew(p: QueryId, c: QueryId)
      requires Ready({p}) && c in net.queries && p < c
      requires net.queries[c].parent == None && net.queries[c].state != Finished && net.queries[c].callback != External
      modifies `net
      ensures Ready({p}) && net == Adopt(old(net), p, c)
    {
      hide Family, RowsOk, SendOk, RecvOk, RetriesOk, SocketOk, Handled;
      ghost var n := net;
      AdoptKeepsConsistent(n, {p}, cfg, p, c);
      net := Adopt(net, p, c);
      AdoptConnOk(n, p, c);
    }

    lemma AdoptConnOk(n: Net, p: QueryId, c: QueryId)
      requires 0 < cfg.nservers && tcpserver < cfg.nservers && Apart() && p in n.queries && c in n.queries && p != c
      requires Calm(hist)
      requires SendOk(n, hist, tcpstate, tcpsend, {}) && RecvOk(hist, tcpstate, tcprecv, tcprecvSkip)
      requires RetriesOk(n, hist, tcpstate, cfg.nservers, {}) && SocketOk(n, tcpstate, tcpsocket, tcptimeout, {})
      requires net == Adopt(n, p, c)
      ensures ConnOk({})
    {
      AdoptKeepsConnection(n, hist, tcpstate, tcpsend, cfg.nservers, tcpsocket, tcptimeout, p, c);
    }

    // ---------- reply.c ----------

    /** The tests of adns__procdgram on a candidate query. */
    static predicate Answers(u: Query, dgram: seq<Byte>, id: int, serv: nat, viatcp: bool)
      requires DNS_HDRSIZE <= |dgram|
    {
      && u.id == id
      && DNS_HDRSIZE <= |u.dgram| <= |dgram|
      && dgram[DNS_HDRSIZE..|u.dgram|] == u.dgram[DNS_HDRSIZE..]
      && (viatcp || serv in u.udpSent)
    }

    ghost predicate FirstAnswered(queue: seq<QueryId>, k: nat, dgram: seq<Byte>, id: int, serv: nat, viatcp: bool)
      requires DNS_HDRSIZE <= |dgram| && k < |queue|
      reads this
    {
      && queue[k] in net.queries && Answers(net.queries[queue[k]], dgram, id, serv, viatcp)
      && forall j | 0 <= j < k :: queue[j] in net.queries && !Answers(net.queries[queue[j]], dgram, id, serv, viatcp)
    }

    /** The first query of the queue that the datagram answers. */
    static ghost function AnsweredBy(qs: map<QueryId, Query>, queue: seq<QueryId>, dgram: seq<Byte>, serv: nat, viatcp: bool): Option<QueryId>
      requires DNS_HDRSIZE <= |dgram|
    {
      if queue == [] then None
      else if queue[0] in qs && Answers(qs[queue[0]], dgram, IdOf(dgram), serv, viatcp) then Some(queue[0])
      else AnsweredBy(qs, queue[1..], dgram, serv, viatcp)
    }

    lemma AnsweredFrom(queue: seq<QueryId>, i: nat, dgram: seq<Byte>, serv: nat, viatcp: bool)
      requires DNS_HDRSIZE <= |dgram| && i < |queue|
      ensures AnsweredBy(net.queries, queue[i..], dgram, serv, viatcp) ==
        if queue[i] in net.queries && Answers(net.queries[queue[i]], dgram, IdOf(dgram), serv, viatcp) then Some(queue[i])
        else AnsweredBy(net.queries, queue[i + 1..], dgram, serv, viatcp)
    {
      assert queue[i..][0] == queue[i] && queue[i..][1..] == queue[i + 1..];
    }

    lemma AnsweredEnds(queue: seq<QueryId>, dgram: seq<Byte>, serv: nat, viatcp: bool)
      requires DNS_HDRSIZE <= |dgram|
      ensures queue[0..] == queue && AnsweredBy(net.queries, queue[|queue|..], dgram, serv, viatcp) == None
    {
    }

    /** The matching loop. */
    method FindQuery(dgram: seq<Byte>, serv: nat, viatcp: bool) returns (r: Option<QueryId>)
      requires Ready({}) && DNS_HDRSIZE <= |dgram|
      ensures r == AnsweredBy(net.queries, Waiting(!viatcp), dgram, serv, viatcp)
      ensures var queue := Waiting(!viatcp);
        (r.None? ==> forall q | q in queue :: q in net.queries && !Answers(net.queries[q], dgram, IdOf(dgram), serv, viatcp)) &&
        (r.Some? ==> exists k :: 0 <= k < |queue| && queue[k] == r.value && FirstAnswered(queue, k, dgram, IdOf(dgram), serv, viatcp))
    {
      hide Answers, SendOk, RecvOk, RetriesOk, SocketOk, AnsweredBy, Family, RowsOk;
      var queue := Waiting(!viatcp);
      AnsweredEnds(queue, dgram, serv, viatcp);
      for i := 0 to |queue|
        invariant forall j | 0 <= j < i ::
          queue[j] in net.queries && !Answers(net.queries[queue[j]], dgram, IdOf(dgram), serv, viatcp)
        invariant AnsweredBy(net.queries, queue, dgram, serv, viatcp) == AnsweredBy(net.queries, queue[i..], dgram, serv, viatcp)
      {
        assert queue[i] in queue;
        AnsweredFrom(queue, i, dgram, serv, viatcp);
        if Answers(net.queries[queue[i]], dgram, IdOf(dgram), serv, viatcp) {
          assert FirstAnswered(queue, i, dgram, IdOf(dgram), serv, viatcp);
          return Some(queue[i]);
        }
      }
      r := None;
    }

    /** A query just taken off udpw or tcpw. */
    ghost predicate Wired(q: QueryId)
      reads this
    {
      q in net.queries &&
      var u := net.queries[q];
      (u.state == ToSend || u.state == TcpWait) && 0 <= u.id < 65536 && DNS_HDRSIZE <= |u.dgram| &&
      (u.state == ToSend && u.useVc ==> u.retries == 0)
    }

    method TakeOff(q: QueryId, now: Timeval)
      requires Ready({}) && (q in net.udpw || q in net.tcpw)
      modifies `net
      ensures Ready({q}) && Wired(q) && net.queries[q].children == []
      ensures net == Dequeue(old(net), q) && Handled(old(net), net, now)
    {
      hide SendOk, RecvOk, RetriesOk, SocketOk, Handled;
      ghost var n := net;
      assert RowOk(n.queries[q]);
      DequeueKeepsConsistent(n, {}, cfg, q);
      DequeueIsHandled(n, {}, cfg, q, now);
      UnlinkFacts(n.tcpw, q);
      net := Dequeue(net, q);
      assert {} + {q} == {q};
      UntouchedConnOk(n, net);
    }

    /** From x_restartquery on: the query starts afresh, perhaps for the canonical name. */
    method Restart(q: QueryId, viaCname: bool, useVc: bool, now: Timeval)
      requires Ready({q}) && Wired(q) && net.queries[q].children == [] && Normal(now) && now.sec >= 0
      modifies `net, `nextid, `tcpsocket, `tcprecv, `tcprecvSkip, `tcpsend, `hist, `tcpstate, `tcpserver, `tcptimeout, `calls
      ensures Ready({}) && Handled(old(net), net, now) && OnlyTouches(old(net), net, {q})
      ensures Receiving(old(tcpstate), old(tcprecv), old(tcprecvSkip), old(hist))
      ensures SentAs(old(net), net, q, Renewed(old(net).queries[q], viaCname, useVc, old(nextid)), now, old(Wire()), Wire())
      ensures nextid == old(nextid) + if viaCname then 1 else 0
    {
      hide Consistent, SendOk, RecvOk, RetriesOk, SocketOk, Handled, SentAs, OnlyTouches;
      ghost var n, l := net, Wire();
      ghost var v := Renewed(net.queries[q], viaCname, useVc, nextid);
      Renew(q, viaCname, useVc, now);
      ghost var r := net;
      SendNow(q, now);
      HandledTwice(n, r, net, now);
      JoinsAfter(n, r, net, q);
      SentOver(n, net, q, v, v, now, l, Wire());
    }

    /** The record of a query that starts afresh; k numbers the packet for its new name. */
    function Renewed(u: Query, viaCname: bool, useVc: bool, k: nat): Query {
      u.(dgram := if viaCname then CopiedPacket(k) else u.dgram, id := if viaCname then k % 65536 else u.id,
         state := ToSend, retries := 0, useVc := useVc, addrs := [])
    }

    method Renew(q: QueryId, viaCname: bool, useVc: bool, now: Timeval)
      requires Ready({q}) && Wired(q) && net.queries[q].children == []
      modifies `net, `nextid
      ensures Ready({q}) && Sendable(q) && Handled(old(net), net, now) && OnlyTouches(old(net), net, {})
      ensures net == WithQuery(old(net), q, Renewed(old(net).queries[q], viaCname, useVc, old(nextid)))
      ensures nextid == old(nextid) + if viaCname then 1 else 0
    {
      hide Consistent, SendOk, RecvOk, RetriesOk, SocketOk, Handled, OnlyTouches;
      QueueFacts({q});
      ghost var n := net;
      var u := net.queries[q];
      if viaCname {
        var dgram, id := MakeQueryFrDgram();
        u := u.(dgram := dgram, id := id);
      }
      u := u.(state := ToSend, retries := 0, useVc := useVc);
      EditHandled(q, u, now);
      ghost var e := net;
      ResetPreserved(q, now);
      HandledTwice(n, e, net, now);
      OnlyTouchesTwice(n, e, net, {});
      EnqueueOver(n, q, u, u.(addrs := []));
    }

    /** adns__reset_preserved on a query that is being processed. */
    method ResetPreserved(q: QueryId, now: Timeval)
      requires Ready({q}) && net.queries[q].state != Finished
      modifies `net
      ensures Ready({q}) && Handled(old(net), net, now) && OnlyTouches(old(net), net, {})
      ensures net == WithQuery(Prune(old(net), Kids(old(net), q)), q, old(net).queries[q].(children := [], addrs := []))
      ensures old(net).queries[q].children == [] ==> net == WithQuery(old(net), q, old(net).queries[q].(addrs := []))
    {
      hide Consistent, SendOk, RecvOk, RetriesOk, SocketOk, Handled, OnlyTouches, Prune;
      ghost var n := net;
      CancelAll(q, now);
      ghost var m := net;
      EditOkFields(q);
      EditHandled(q, net.queries[q].(addrs := []), now);
      HandledTwice(n, m, net, now);
      OnlyTouchesTwice(n, m, net, {});
    }

    lemma EditOkFields(q: QueryId)
      requires NetOk({q})
      ensures FieldsOk(net.queries[q].(addrs := []), cfg)
    {
      assert FieldsOk(net.queries[q], cfg);
    }

    method CancelAll(q: QueryId, now: Timeval)
      requires Ready({q})
      modifies `net
      ensures Ready({q}) && Handled(old(net), net, now) && OnlyTouches(old(net), net, {})
      ensures net == Prune(old(net), Kids(old(net), q)) && q in net.queries && net.queries[q] == old(net).queries[q].(children := [])
      ensures old(net).queries[q].children == [] ==> net == old(net)
    {
      hide Consistent, SendOk, RecvOk, RetriesOk, SocketOk, Prune, Settled;
      ghost var n := net;
      QueueFacts({q});
      CancelChildren(q, {q});
      QueueFacts({q});
      CutSettles(n, net, q, now);
      UntouchedConnOk(n, net);
    }

    lemma CutSettles(n: Net, m: Net, q: QueryId, now: Timeval)
      requires Consistent(n, {q}, cfg) && q in n.queries && m == Prune(n, Kids(n, q))
      ensures Handled(n, m, now) && OnlyTouches(n, m, {}) && TcpUntouched(n, m)
      ensures n.queries[q].children == [] ==> m == n
    {
      assert ChildrenPointBack(n, q);
      hide Consistent, Prune;
      PruneSettles(n, {q}, cfg, Kids(n, q));
      SettledIsHandled(n, m, now);
      SettledJoins(n, m, {});
      PruneNothing(n, {q}, cfg);
      assert n.queries[q].children == [] ==> Kids(n, q) == {};
    }

    /** x_truncated: only a reply that says it is truncated leads to TCP. */
    ghost predicate TruncatedAs(n: Net, m: Net, q: QueryId, tc: bool, viaCname: bool, id: nat, now: Timeval, a: Link, b: Link)
      requires q in n.queries && Normal(now) && cfg.nservers > 0
    {
      if tc then SentAs(n, m, q, Renewed(n.queries[q], viaCname, true, id), now, a, b)
      else m == Fail(n, q, StInvalidResponse) && b == a
    }

    method Truncated(q: QueryId, tc: bool, viaCname: bool, now: Timeval)
      requires Ready({q}) && Wired(q) && Normal(now) && now.sec >= 0 && (tc ==> net.queries[q].children == [])
      modifies `net, `nextid, `tcpsocket, `tcprecv, `tcprecvSkip, `tcpsend, `hist, `tcpstate, `tcpserver, `tcptimeout, `calls
      ensures Ready({}) && Handled(old(net), net, now) && OnlyTouches(old(net), net, {q})
      ensures Receiving(old(tcpstate), old(tcprecv), old(tcprecvSkip), old(hist))
      ensures TruncatedAs(old(net), net, q, tc, viaCname, old(nextid), now, old(Wire()), Wire())
      ensures nextid == old(nextid) + if tc && viaCname then 1 else 0
    {
      hide Consistent, SendOk, RetriesOk, SocketOk, Handled, SentAs, Fail;
      if tc {
        Restart(q, viaCname, true, now);
      } else {
        FailHandled(q, StInvalidResponse, now);
      }
    }

    /** Each record of the answer section may need another query, of its own kind. */
    static function Needs(kinds: seq<Callback>): (r: seq<Callback>)
      ensures |r| == |kinds|
    {
      seq(|kinds|, i requires 0 <= i < |kinds| => if kinds[i] == Ptr then Ptr else HostAddr)
    }

    /** The second pass over the answer section. */
    method SpawnChildren(q: QueryId, kinds: seq<Callback>, now: Timeval)
      requires Ready({q}) && Wired(q) && Normal(now) && now.sec >= 0
      modifies `net, `nextid, `nextQuery, `tcpsocket, `tcprecv, `tcprecvSkip, `tcpsend, `hist, `tcpstate, `tcpserver, `tcptimeout, `calls
      ensures nextQuery == old(nextQuery) + |kinds| && nextid == old(nextid) + |kinds|
      ensures Grown(old(net), net, q, Needs(kinds), old(nextQuery))
      ensures Spawned(old(net), net, q, Needs(kinds), old(nextQuery), old(nextid), now, old(Wire()), Wire())
      ensures Ready({q}) && Wired(q) && Handled(old(net), net, now) && OnlyTouches(old(net), net, {})
      ensures Receiving(old(tcpstate), old(tcprecv), old(tcprecvSkip), old(hist))
    {
      hide Consistent, SendOk, RetriesOk, SocketOk, Handled, Grown, OnlyTouches, Spawned, SentAndAdopted, ChildRecord;
      ghost var n, first, all, id, l := net, nextQuery, Needs(kinds), nextid, Wire();
      HandledSelf(n, {q}, cfg, now);
      GrownNone(n, q, first, id, now, l);
      OnlyTouchesSelf(n);
      for i := 0 to |kinds|
        invariant Ready({q}) && Handled(n, net, now) && nextQuery == first + i && nextid == id + i
        invariant Spawned(n, net, q, all[..i], first, id, now, l, Wire())
        invariant Grown(n, net, q, all[..i], first) && OnlyTouches(n, net, {})
        invariant Receiving(old(tcpstate), old(tcprecv), old(tcprecvSkip), old(hist))
      {
        ghost var m, k := net, Wire();
        SpawnChild(q, if kinds[i] == Ptr then Ptr else HostAddr, now);
        HandledTwice(n, m, net, now);
        OnlyTouchesTwice(n, m, net, {});
        GrownOneMore(n, m, net, q, all, i, first);
        SpawnedOneMore(n, m, net, q, all, i, first, id, now, l, k, Wire());
      }
      assert all[..|kinds|] == all;
      GrownIsWired(n, net, q, all, first);
    }

    lemma SpawnedOneMore(n: Net, m: Net, k: Net, q: QueryId, all: seq<Callback>, i: nat, first: QueryId, id: nat, now: Timeval,
                         a: Link, l: Link, b: Link)
      requires Normal(now) && cfg.nservers > 0 && i < |all| && Spawned(n, m, q, all[..i], first, id, now, a, l)
      requires SentAndAdopted(m, k, q, first + i, ChildRecord(all[i], id + i), now, l, b)
      ensures Spawned(n, k, q, all[..i + 1], first, id, now, a, b)
    {
      hide SentAndAdopted, ChildRecord;
      assert all[..i + 1][..i] == all[..i];
    }

    lemma GrownNone(n: Net, q: QueryId, first: QueryId, id: nat, now: Timeval, a: Link)
      requires q in n.queries && Normal(now) && cfg.nservers > 0
      ensures Grown(n, n, q, [], first) && forall s: seq<Callback> :: s[..0] == []
      ensures Spawned(n, n, q, [], first, id, now, a, a)
    {
      assert n.queries[q].children + Numbers(first, 0) == n.queries[q].children;
    }

    lemma GrownOneMore(n: Net, m: Net, k: Net, q: QueryId, all: seq<Callback>, i: nat, first: QueryId)
      requires i < |all| && Grown(n, m, q, all[..i], first) && Grown(m, k, q, [all[i]], first + i)
      requires q < first
      ensures Grown(n, k, q, all[..i + 1], first)
    {
      var kinds := all[..i + 1];
      assert Numbers(first, i) + Numbers(first + i, 1) == Numbers(first, i + 1);
      Assoc(n.queries[q].children, Numbers(first, i), Numbers(first + i, 1));
      forall j | 0 <= j < |kinds| ensures ChildAt(k, first + j, q, kinds[j]) {
        StillChild(n, m, k, q, all, i, first, j);
      }
    }

    lemma StillChild(n: Net, m: Net, k: Net, q: QueryId, all: seq<Callback>, i: nat, first: QueryId, j: nat)
      requires i < |all| && Grown(n, m, q, all[..i], first) && Grown(m, k, q, [all[i]], first + i)
      requires q < first && j <= i
      ensures ChildAt(k, first + j, q, all[j])
    {
      if j < i {
        assert all[..i][j] == all[j] && ChildAt(m, first + j, q, all[j]);
      } else {
        assert [all[i]][0] == all[j] && ChildAt(k, first + i + 0, q, all[j]);
      }
    }

    lemma GrownIsWired(n: Net, m: Net, q: QueryId, kinds: seq<Callback>, first: QueryId)
      requires Grown(n, m, q, kinds, first)
      ensures q in m.queries && m.queries[q] == n.queries[q].(children := m.queries[q].children)
    {
    }

    /** The records have been read: wait for the children, or done. */
    method RecordsRead(q: QueryId, addrs: seq<Addr>, now: Timeval)
      requires Ready({q}) && Wired(q)
      modifies `net
      ensures Ready({}) && Handled(old(net), net, now) && OnlyTouches(old(net), net, {})
      ensures net == Concluded(old(net), q, addrs)
    {
      hide Consistent, SendOk, RecvOk, RetriesOk, SocketOk, Handled, OnlyTouches, Complete;
      ghost var n := net;
      FieldsKept(n, q, addrs);
      EditHandled(q, net.queries[q].(addrs := addrs), now);
      ghost var e := net;
      if net.queries[q].children != [] {
        WaitForChildren(q, now);
      } else {
        FinishDone(q);
        SettledIsHandled(e, net, now);
        SettledJoins(e, net, {});
      }
      HandledTwice(n, e, net, now);
      OnlyTouchesTwice(n, e, net, {});
    }

    lemma FieldsKept(n: Net, q: QueryId, addrs: seq<Addr>)
      requires Consistent(n, {q}, cfg)
      ensures FieldsOk(n.queries[q].(addrs := addrs), cfg)
    {
      assert FieldsOk(n.queries[q], cfg);
    }

    /** A query whose records have been read: it waits for its children, or is done. */
    ghost function Concluded(n: Net, q: QueryId, addrs: seq<Addr>): Net
      requires q in n.queries
    {
      var u := n.queries[q].(addrs := addrs);
      if u.children == [] then Complete(WithQuery(n, q, u), q) else Enqueue(WithQuery(n, q, u), q, u.(state := ChildWait))
    }

    method WaitForChildren(q: QueryId, now: Timeval)
      requires Ready({q}) && Wired(q) && net.queries[q].children != []
      modifies `net
      ensures Ready({}) && Handled(old(net), net, now) && OnlyTouches(old(net), net, {})
      ensures net == Enqueue(old(net), q, old(net).queries[q].(state := ChildWait))
    {
      hide SendOk, RecvOk, RetriesOk, SocketOk, Handled;
      ghost var n := net;
      var u := net.queries[q].(state := ChildWait);
      EnqueueChildwIsHandled(n, q, u, now);
      assert FieldsOk(n.queries[q], cfg);
      LinkTail(q, u, {q});
      assert {q} - {q} == {};
      assert q !in n.tcpw;
    }

    /** Some name that is left yields a packet before any name is refused. */
    ghost predicate NameFound(u: Query, id: nat) {
      WalkNext(id, |SearchList.Remaining(u.searchPos, u.searchDoneAbs, cfg.nsearchlist)|).end.Packed?
    }

    /** A reply that trips the assertion of adns__query_send: nxdomain over TCP for a query
        with a search list, one of whose names left yields a packet. */
    ghost predicate Fatal(u: Query, nxdomain: bool, tc: bool, reply: Reply, id: nat) {
      u.state == TcpWait && u.search && nxdomain && !tc && (reply.Absent? || reply.Referral?) && NameFound(u, id)
    }

    /** What a reply with rcode noerror or nxdomain makes of the query q: its failure, a new
        start over TCP, the records with a child for each that needs one, the next name of its
        search list, or a new start for the canonical name. */
    ghost predicate RepliedAs(n: Net, m: Net, q: QueryId, nxdomain: bool, tc: bool, reply: Reply, aliased: bool,
                              aborted: bool, id: nat, first: QueryId, now: Timeval, a: Link, b: Link)
      requires q in n.queries && Normal(now) && cfg.nservers > 0
    {
      var u := n.queries[q];
      if reply.Unreadable? then m == Fail(n, q, reply.status) && b == a
      else if tc || reply.Short? then TruncatedAs(n, m, q, tc, aliased, id, now, a, b)
      else if reply.Records? then RecordsAs(n, m, q, reply, first, id, now, a, b)
      else if nxdomain && u.search then
        WalkedTo(n, m, q, WalkNext(id, |SearchList.Remaining(u.searchPos, u.searchDoneAbs, cfg.nsearchlist)|), aborted, now, a, b)
      else if nxdomain then m == Fail(n, q, StNxDomain) && b == a
      else if reply.Absent? then m == Fail(n, q, StNoData) && b == a
      else if reply.viaCname then SentAs(n, m, q, Renewed(u, true, u.useVc, id), now, a, b)
      else m == Fail(n, q, reply.refused) && b == a
    }

    /** How many packet numbers a reply uses up: one for every name that is moved on to, for a
        copied name and for every query that its records call for. */
    ghost function IdsFor(u: Query, nxdomain: bool, tc: bool, reply: Reply, aliased: bool, id: nat): nat {
      if reply.Unreadable? then 0
      else if tc || reply.Short? then if tc && aliased then 1 else 0
      else if reply.Records? then |reply.kinds|
      else if nxdomain then
        if u.search then WalkNext(id, |SearchList.Remaining(u.searchPos, u.searchDoneAbs, cfg.nsearchlist)|).names else 0
      else if reply.Referral? && reply.viaCname then 1
      else 0
    }

    /** How many queries a reply adds. */
    static function KidsFor(tc: bool, reply: Reply): nat {
      if reply.Records? && !tc then |reply.kinds| else 0
    }

    ghost predicate RecordsAs(n: Net, m: Net, q: QueryId, reply: Reply, first: QueryId, id: nat, now: Timeval, a: Link, b: Link)
      requires q in n.queries && reply.Records? && Normal(now) && cfg.nservers > 0
    {
      exists s :: Spawned(n, s, q, Needs(reply.kinds), first, id, now, a, b) && q in s.queries && m == RecordsEnd(s, q, reply)
    }

    /** The records have been read, but for those that make the query fail. */
    ghost function RecordsEnd(s: Net, q: QueryId, reply: Reply): Net
      requires q in s.queries && reply.Records?
    {
      if reply.bad.Some? then Fail(s, q, reply.bad.value)
      else if reply.cut then Fail(s, q, StInvalidResponse)
      else Concluded(s, q, reply.addrs)
    }

    /** The part of adns__procdgram that follows the header of a reply with rcode noerror or
        nxdomain. */
    method HandleReply(q: QueryId, nxdomain: bool, tc: bool, reply: Reply, aliased: bool, now: Timeval) returns (aborted: bool)
      requires Ready({q}) && Wired(q) && net.queries[q].children == [] && Normal(now) && now.sec >= 0
      modifies `net, `nextid, `nextQuery, `tcpsocket, `tcprecv, `tcprecvSkip, `tcpsend, `hist, `tcpstate, `tcpserver, `tcptimeout, `calls
      ensures nextQuery == old(nextQuery) + KidsFor(tc, reply)
      ensures nextid == old(nextid) + IdsFor(old(net).queries[q], nxdomain, tc, reply, aliased, old(nextid))
      ensures aborted <==> Fatal(old(net).queries[q], nxdomain, tc, reply, old(nextid))
      ensures !aborted ==> Ready({}) && Handled(old(net), net, now) && OnlyTouches(old(net), net, {q})
      ensures !aborted ==> Receiving(old(tcpstate), old(tcprecv), old(tcprecvSkip), old(hist))
      ensures RepliedAs(old(net), net, q, nxdomain, tc, reply, aliased, aborted, old(nextid), old(nextQuery), now, old(Wire()), Wire())
    {
      hide Consistent, SendOk, RetriesOk, SocketOk, Handled, Fail, SentAs, TruncatedAs, RecordsAs, WalkedTo, Renewed,
        OnlyTouches;
      ghost var n := net;
      aborted := false;
      if reply.Unreadable? {
        FailReply(q, reply.status, now);
      } else if tc || reply.Short? {
        Truncated(q, tc, aliased, now);
      } else if reply.Records? {
        HandleRecords(q, reply, now);
      } else if nxdomain {
        if net.queries[q].search {
          ghost var w := WalkNext(nextid, |NamesLeft(q)|);
          aborted := SearchNext(q, now);
          AbortIff(n, net, q, w, aborted, now, old(Wire()), Wire());
        } else {
          FailReply(q, StNxDomain, now);
        }
      } else if reply.Absent? {
        FailReply(q, StNoData, now);
      } else if reply.viaCname {
        Restart(q, true, net.queries[q].useVc, now);
      } else {
        FailReply(q, reply.refused, now);
      }
    }

    method FailReply(q: QueryId, st: Status, now: Timeval)
      requires Ready({q}) && net.queries[q].state != Finished
      modifies `net
      ensures Ready({}) && net == Fail(old(net), q, st) && Handled(old(net), net, now) && OnlyTouches(old(net), net, {q})
      ensures Receiving(tcpstate, tcprecv, tcprecvSkip, hist)
    {
      hide Consistent, SendOk, RetriesOk, SocketOk, Handled, Fail;
      ghost var n := net;
      FailHandled(q, st, now);
      MoreJoins(n, net, q);
    }

    lemma AbortIff(n: Net, m: Net, q: QueryId, w: Walk, aborted: bool, now: Timeval, a: Link, b: Link)
      requires q in n.queries && Normal(now) && cfg.nservers > 0 && WalkedTo(n, m, q, w, aborted, now, a, b)
      ensures aborted <==> w.end.Packed? && n.queries[q].state != ToSend
    {
    }

    /** From the allocation of the records on. */
    method HandleRecords(q: QueryId, reply: Reply, now: Timeval)
      requires Ready({q}) && Wired(q) && net.queries[q].children == [] && Normal(now) && now.sec >= 0 && reply.Records?
      modifies `net, `nextid, `nextQuery, `tcpsocket, `tcprecv, `tcprecvSkip, `tcpsend, `hist, `tcpstate, `tcpserver, `tcptimeout, `calls
      ensures nextQuery == old(nextQuery) + |reply.kinds| && nextid == old(nextid) + |reply.kinds|
      ensures Ready({}) && Handled(old(net), net, now) && OnlyTouches(old(net), net, {q})
      ensures Receiving(old(tcpstate), old(tcprecv), old(tcprecvSkip), old(hist))
      ensures RecordsAs(old(net), net, q, reply, old(nextQuery), old(nextid), now, old(Wire()), Wire())
    {
      hide Consistent, SendOk, RecvOk, RetriesOk, SocketOk, Handled, Grown, OnlyTouches, Spawned, RecordsEnd;
      ghost var n, first, id, l := net, nextQuery, nextid, Wire();
      SpawnChildren(q, reply.kinds, now);
      ghost var m := net;
      EndRecords(q, reply, now);
      HandledTwice(n, m, net, now);
      JoinsAfter(n, m, net, q);
      assert Spawned(n, m, q, Needs(reply.kinds), first, id, now, l, Wire());
    }

    method EndRecords(q: QueryId, reply: Reply, now: Timeval)
      requires Ready({q}) && Wired(q) && Normal(now) && now.sec >= 0 && reply.Records?
      modifies `net
      ensures Ready({}) && Handled(old(net), net, now) && OnlyTouches(old(net), net, {q})
      ensures net == RecordsEnd(old(net), q, reply)
    {
      hide Consistent, SendOk, RecvOk, RetriesOk, SocketOk, Handled, Fail, Concluded, OnlyTouches, Receiving;
      ghost var m := net;
      if reply.bad.Some? {
        FailReply(q, reply.bad.value, now);
      } else if reply.cut {
        FailReply(q, StInvalidResponse, now);   // x_truncated, but the flag is clear
      } else {
        RecordsRead(q, reply.addrs, now);
        MoreJoins(m, net, q);
      }
    }

    static lemma MoreJoins(n: Net, m: Net, q: QueryId)
      requires OnlyTouches(n, m, {})
      ensures OnlyTouches(n, m, {q})
    {
    }

    /** A datagram that can be an answer: a reply to a standard query with one question. */
    static predicate Proper(dgram: seq<Byte>) {
      DNS_HDRSIZE <= |dgram| && dgram[2] >= 128 && (dgram[2] / 8) % 16 == 0 && dgram[4] == 0 && dgram[5] == 1
    }

    static function IdOf(dgram: seq<Byte>): int
      requires DNS_HDRSIZE <= |dgram|
    {
      (dgram[0] as int) * 256 + dgram[1]
    }

    /** What a datagram makes of the first query that it answers. */
    ghost predicate TakenAs(n: Net, m: Net, q: QueryId, dgram: seq<Byte>, aborted: bool, id: nat, first: QueryId, now: Timeval, a: Link, b: Link)
      requires q in n.queries && DNS_HDRSIZE <= |dgram| && Normal(now) && cfg.nservers > 0
    {
      var u := n.queries[q];
      if dgram[3] % 16 !in {0, 3} then m == Fail(Dequeue(n, q), q, StOther(dgram[3] % 16)) && b == a
      else RepliedAs(Dequeue(n, q), m, q, dgram[3] % 16 == 3, Truncates(dgram), world.parse(u, dgram), world.aliased(u, dgram),
                     aborted, id, first, now, a, b)
    }

    static predicate Truncates(dgram: seq<Byte>)
      requires DNS_HDRSIZE <= |dgram|
    {
      (dgram[2] / 2) % 2 == 1
    }

    /** The datagram dgram, for the query u that it answers, trips the assertion. */
    ghost predicate FatalFor(u: Query, dgram: seq<Byte>, id: nat)
      requires DNS_HDRSIZE <= |dgram|
    {
      dgram[3] % 16 == 3 && Fatal(u, true, Truncates(dgram), world.parse(u, dgram), id)
    }

    /** How many packet numbers and queries a datagram uses up at the query u that it answers. */
    ghost function IdsUsed(u: Query, dgram: seq<Byte>, id: nat): nat
      requires DNS_HDRSIZE <= |dgram|
    {
      if dgram[3] % 16 !in {0, 3} then 0
      else IdsFor(u, dgram[3] % 16 == 3, Truncates(dgram), world.parse(u, dgram), world.aliased(u, dgram), id)
    }

    function KidsUsed(u: Query, dgram: seq<Byte>): nat
      requires DNS_HDRSIZE <= |dgram|
    {
      if dgram[3] % 16 !in {0, 3} then 0 else KidsFor(Truncates(dgram), world.parse(u, dgram))
    }

    /** What adns__procdgram may read and change. */
    ghost function Now(): Snapshot
      reads this
    {
      Snapshot(net, nextid, nextQuery, Wire())
    }

    /** The query that a datagram answers. */
    static ghost function Answerer(n: Net, dgram: seq<Byte>, serv: nat, viatcp: bool): Option<QueryId> {
      if Proper(dgram) then AnsweredBy(n.queries, if viatcp then n.tcpw else n.udpw, dgram, serv, viatcp) else None
    }

    /** A datagram that arrives over TCP trips the assertion. */
    ghost predicate FatalIn(s: Snapshot, dgram: seq<Byte>, serv: nat) {
      var q := Answerer(s.net, dgram, serv, true);
      q.Some? && q.value in s.net.queries && FatalFor(s.net.queries[q.value], dgram, s.nextid)
    }

    /** adns__procdgram leads from s to t: a datagram that answers no query changes nothing, and
        one that does leaves the others that wait over UDP or are finished alone. */
    ghost predicate Processed(s: Snapshot, t: Snapshot, dgram: seq<Byte>, serv: nat, viatcp: bool, aborted: bool, now: Timeval)
      requires Normal(now) && cfg.nservers > 0
    {
      var q := Answerer(s.net, dgram, serv, viatcp);
      (aborted <==> viatcp && FatalIn(s, dgram, serv)) &&
      if q.None? then t == s
      else
        q.value in s.net.queries && s.net.queries[q.value].state == (if viatcp then TcpWait else ToSend) &&
        TakenBy(s, t, q.value, dgram, aborted, now)
    }

    ghost predicate TakenBy(s: Snapshot, t: Snapshot, q: QueryId, dgram: seq<Byte>, aborted: bool, now: Timeval)
      requires q in s.net.queries && DNS_HDRSIZE <= |dgram| && Normal(now) && cfg.nservers > 0
    {
      var u := s.net.queries[q];
      && TakenAs(s.net, t.net, q, dgram, aborted, s.nextid, s.nextQuery, now, s.link, t.link)
      && t.nextid == s.nextid + IdsUsed(u, dgram, s.nextid) && t.nextQuery == s.nextQuery + KidsUsed(u, dgram)
      && (!aborted ==> OnlyTouches(s.net, t.net, {q}))
    }

    /** The link after adns__query_send for the record u, unless a connection has to be opened. */
    function LinkSent(u: Query, a: Link): Link {
      if SendFails(u) then a
      else if OverUdp(u, a.calls) then a.(calls := a.calls + 1)
      else Framed(Tried(u, a), |u.dgram|)
    }

    /** The link after the queries that the records of a reply call for. */
    function LinkSpawned(kinds: seq<Callback>, id: nat, a: Link): Link {
      if kinds == [] then a
      else
        var i := |kinds| - 1;
        LinkSent(ChildRecord(kinds[i], id + i), LinkSpawned(kinds[..i], id, a))
    }

    /** The link after a reply over TCP to a query with the record u. */
    function LinkReplied(u: Query, nxdomain: bool, tc: bool, reply: Reply, aliased: bool, id: nat, a: Link): Link {
      if reply.Unreadable? then a
      else if tc then LinkSent(Renewed(u, aliased, true, id), a)
      else if reply.Records? then LinkSpawned(Needs(reply.kinds), id, a)
      else if reply.Referral? && reply.viaCname && !nxdomain then LinkSent(Renewed(u, true, u.useVc, id), a)
      else a
    }

    function LinkTaken(u: Query, dgram: seq<Byte>, id: nat, a: Link): Link
      requires DNS_HDRSIZE <= |dgram|
    {
      if dgram[3] % 16 !in {0, 3} then a
      else LinkReplied(u, dgram[3] % 16 == 3, Truncates(dgram), world.parse(u, dgram), world.aliased(u, dgram), id, a)
    }

    /** A message over TCP breaks the connection: a query has to be sent for it over TCP, no
        bytes are queued, and writev() fails for good. */
    ghost predicate Breaks(s: Snapshot, dgram: seq<Byte>) {
      var q := Answerer(s.net, dgram, 0, true);
      q.Some? && q.value in s.net.queries && LinkTaken(s.net.queries[q.value], dgram, s.nextid, s.link).tcp != Connected
    }

    lemma SentLink(n: Net, m: Net, q: QueryId, u: Query, now: Timeval, a: Link, b: Link)
      requires Normal(now) && cfg.nservers > 0 && SentAs(n, m, q, u, now, a, b) && a.tcp != Disconnected
      ensures b == LinkSent(u, a) && b.tcp != Disconnected
    {
      hide Fail, Charged;
    }

    lemma {:induction false} SpawnedLink(n: Net, m: Net, q: QueryId, kinds: seq<Callback>, first: QueryId, id: nat,
                                         now: Timeval, a: Link, b: Link)
      requires Normal(now) && cfg.nservers > 0 && Spawned(n, m, q, kinds, first, id, now, a, b) && a.tcp != Disconnected
      ensures b == LinkSpawned(kinds, id, a) && b.tcp != Disconnected
      decreases |kinds|
    {
      hide SentAndAdopted, LinkSent, ChildRecord;
      if kinds != [] {
        var i := |kinds| - 1;
        var x, l :| Spawned(n, x, q, kinds[..i], first, id, now, a, l) &&
          SentAndAdopted(x, m, q, first + i, ChildRecord(kinds[i], id + i), now, l, b);
        SpawnedLink(n, x, q, kinds[..i], first, id, now, a, l);
        AdoptedLink(x, m, q, first + i, ChildRecord(kinds[i], id + i), now, l, b);
      }
    }

    lemma AdoptedLink(n: Net, m: Net, p: QueryId, c: QueryId, u: Query, now: Timeval, a: Link, b: Link)
      requires Normal(now) && cfg.nservers > 0 && SentAndAdopted(n, m, p, c, u, now, a, b) && a.tcp != Disconnected
      ensures b == LinkSent(u, a) && b.tcp != Disconnected
    {
      hide SentAs, LinkSent, Adopt;
      var y :| SentAs(WithQuery(n, c, u), y, c, u, now, a, b);
      SentLink(WithQuery(n, c, u), y, c, u, now, a, b);
    }

    /** The link after a message over TCP that is not fatal. */
    lemma RepliedLink(n: Net, m: Net, q: QueryId, nxdomain: bool, tc: bool, reply: Reply, aliased: bool, id: nat,
                      first: QueryId, now: Timeval, a: Link, b: Link)
      requires q in n.queries && Normal(now) && cfg.nservers > 0 && n.queries[q].state == TcpWait && a.tcp != Disconnected
      requires RepliedAs(n, m, q, nxdomain, tc, reply, aliased, false, id, first, now, a, b)
      ensures b == LinkReplied(n.queries[q], nxdomain, tc, reply, aliased, id, a)
    {
      hide SentAs, LinkSent, Fail, Spawned, LinkSpawned, Renewed, RecordsEnd, WalkNext, SearchList.Remaining, Moved;
      var u := n.queries[q];
      if tc && !reply.Unreadable? {
        SentLink(n, m, q, Renewed(u, aliased, true, id), now, a, b);
      } else if reply.Records? {
        var s :| Spawned(n, s, q, Needs(reply.kinds), first, id, now, a, b);
        SpawnedLink(n, s, q, Needs(reply.kinds), first, id, now, a, b);
      } else if reply.Referral? && reply.viaCname && !nxdomain {
        SentLink(n, m, q, Renewed(u, true, u.useVc, id), now, a, b);
      } else if nxdomain && u.search && (reply.Absent? || reply.Referral?) {
        WalkedLink(n, m, q, WalkNext(id, |SearchList.Remaining(u.searchPos, u.searchDoneAbs, cfg.nsearchlist)|), now, a, b);
      }
    }

    lemma WalkedLink(n: Net, m: Net, q: QueryId, w: Walk, now: Timeval, a: Link, b: Link)
      requires q in n.queries && Normal(now) && cfg.nservers > 0 && n.queries[q].state == TcpWait
      requires WalkedTo(n, m, q, w, false, now, a, b)
      ensures b == a
    {
      hide SentAs, Fail;
    }

    /** adns__procdgram: the header, the match, and the way into the cases above.  A datagram
        that answers no query changes nothing; one with an error code fails exactly the first
        query that it answers; any other has the outcome of a reply to that query. */
    method ProcDgram(dgram: seq<Byte>, serv: nat, viatcp: bool, now: Timeval) returns (aborted: bool)
      requires Ready({}) && Normal(now) && now.sec >= 0
      modifies `net, `nextid, `nextQuery, `tcpsocket, `tcprecv, `tcprecvSkip, `tcpsend, `hist, `tcpstate, `tcpserver, `tcptimeout, `calls
      ensures nextQuery >= old(nextQuery)
      ensures Processed(old(Now()), Now(), dgram, serv, viatcp, aborted, now)
      ensures aborted ==> TcpSearches(old(net)) != {}
      ensures !aborted ==> Ready({}) && Handled(old(net), net, now) && (viatcp ==> OnlyTouches(old(net), net, {}))
      ensures !aborted ==> Receiving(old(tcpstate), old(tcprecv), old(tcprecvSkip), old(hist))
      ensures old(Answerer(net, dgram, serv, viatcp)).None? ==> unchanged(this)
    {
      hide SendOk, RetriesOk, SocketOk, Handled, TakenBy, FatalFor, AnsweredBy, Answers, FirstAnswered, OnlyTouches;
      ghost var n := net;
      aborted := false;
      HandledSelf(n, {}, cfg, now);
      OnlyTouchesSelf(n);
      if !Proper(dgram) {
        return;
      }
      var found := FindQuery(dgram, serv, viatcp);
      if found.None? {
        return;
      }
      assert found.value in Waiting(!viatcp);
      aborted := Matched(found.value, dgram, viatcp, now);
    }

    /** The rest of adns__procdgram, for the query that the datagram answers. */
    method Matched(q: QueryId, dgram: seq<Byte>, viatcp: bool, now: Timeval) returns (aborted: bool)
      requires Ready({}) && q in Waiting(!viatcp) && Normal(now) && now.sec >= 0 && DNS_HDRSIZE <= |dgram|
      modifies `net, `nextid, `nextQuery, `tcpsocket, `tcprecv, `tcprecvSkip, `tcpsend, `hist, `tcpstate, `tcpserver, `tcptimeout, `calls
      ensures q in old(net).queries && nextQuery >= old(nextQuery)
      ensures aborted <==> viatcp && old(FatalFor(net.queries[q], dgram, nextid))
      ensures aborted ==> q in TcpSearches(old(net))
      ensures !aborted ==> Ready({}) && Handled(old(net), net, now) && OnlyTouches(old(net), net, if viatcp then {} else {q})
      ensures !aborted ==> Receiving(old(tcpstate), old(tcprecv), old(tcprecvSkip), old(hist))
      ensures TakenBy(old(Now()), Now(), q, dgram, aborted, now)
    {
      hide Family, RowsOk, SendOk, RecvOk, RetriesOk, SocketOk, Handled, Fail, RepliedAs, NameFound, OnlyTouches,
        IdsFor, KidsFor, Receiving;
      ghost var n := net;
      assert n.queries[q].state == if viatcp then TcpWait else ToSend;
      aborted := false;
      TakeOff(q, now);
      ghost var m := net;
      var rcode := dgram[3] % 16;
      if rcode == 0 || rcode == 3 {
        var u := net.queries[q];
        aborted := HandleReply(q, rcode == 3, Truncates(dgram), world.parse(u, dgram), world.aliased(u, dgram), now);
      } else {
        FailReply(q, StOther(rcode), now);
      }
      if !aborted {
        HandledTwice(n, m, net, now);
        TakenJoins(n, m, net, q, now);
      }
    }

    /** A query that came off tcpw may go back there without joining it. */
    lemma TakenJoins(n: Net, m: Net, k: Net, q: QueryId, now: Timeval)
      requires Consistent(n, {}, cfg) && q in n.queries && m == Dequeue(n, q) && OnlyTouches(m, k, {q}) && Handled(n, k, now)
      ensures OnlyTouches(n, k, {q})
      ensures q in n.tcpw ==> OnlyTouches(n, k, {})
    {
      DequeueJoins(n, q);
      OnlyTouchesTwice(n, m, k, {q});
      if q in n.tcpw {
        BackOnTcpw(n, k, q, now);
      }
    }

    lemma DequeueJoins(n: Net, q: QueryId)
      requires Consistent(n, {}, cfg) && q in n.queries
      ensures OnlyTouches(n, Dequeue(n, q), {q})
    {
      UnlinkFacts(n.tcpw, q);
      UnlinkFacts(n.udpw, q);
      UnlinkFacts(n.output, q);
    }

    lemma BackOnTcpw(n: Net, k: Net, q: QueryId, now: Timeval)
      requires q in n.queries && q in n.tcpw && OnlyTouches(n, k, {q}) && Handled(n, k, now)
      ensures OnlyTouches(n, k, {})
    {
      if n.queries[q].search {
        assert q in TcpSearches(n);
      } else {
        PlainJoins(n, k, q, now);
      }
    }

    // ---------- event.c: timeouts ----------

    function Waiting(udp: bool): seq<QueryId>
      reads this
    {
      if udp then net.udpw else net.tcpw
    }

    /** The body of timeouts_queue for a query whose time is up: over UDP one more datagram, as
        long as there may be one; over TCP it fails. */
    method TimeOut(q: QueryId, udp: bool, now: Timeval)
      requires Ready({}) && q in Waiting(udp) && Normal(now) && now.sec >= 0
      modifies `net, `tcpsocket, `tcprecv, `tcprecvSkip, `tcpsend, `hist, `tcpstate, `tcpserver, `tcptimeout, `calls
      ensures q in old(net).queries && Ready({}) && Handled(old(net), net, now)
      ensures Overdue(net, Waiting(udp), now) <= Overdue(old(net), old(Waiting(udp)), now) - {q}
      ensures !udp ==> net == Fail(Dequeue(old(net), q), q, StTimeout)
      ensures udp ==> SentAs(Dequeue(old(net), q), net, q, old(net).queries[q], now, old(Wire()), Wire())
      ensures OnlyTouches(old(net), net, if udp then {q} else {})
      ensures tcprecvSkip == 0 || tcprecvSkip == old(tcprecvSkip)
    {
      hide Consistent, SendOk, RecvOk, RetriesOk, SocketOk, Handled, Fail, SentAs, OnlyTouches, Overdue, JoinedTcp, Dequeue;
      ghost var n := net;
      Expired(q, udp);
      TakeOff(q, now);
      ghost var m := net;
      if net.queries[q].state != ToSend {
        FailReply(q, StTimeout, now);
      } else {
        SendNow(q, now);
      }
      SkipStays(old(tcpstate), old(tcprecv), old(tcprecvSkip), old(hist));
      ExpiredIsGone(n, m, net, q, udp, now);
      TakenJoins(n, m, net, q, now);
    }

    lemma Expired(q: QueryId, udp: bool)
      requires NetOk({}) && q in Waiting(udp)
      ensures q in net.queries && net.queries[q].state == if udp then ToSend else TcpWait
      ensures udp ==> !net.queries[q].useVc && |net.queries[q].dgram| <= DNS_MAX_UDP
    {
      assert RowOk(net.queries[q]);
    }

    lemma SkipStays(st: TcpState, recv: seq<Byte>, skip: nat, h: History)
      requires Receiving(st, recv, skip, h) || (tcpstate == st && tcprecvSkip == skip)
      ensures tcprecvSkip == 0 || tcprecvSkip == skip
    {
    }

    lemma ExpiredIsGone(n: Net, m: Net, k: Net, q: QueryId, udp: bool, now: Timeval)
      requires Consistent(n, {}, cfg) && q in (if udp then n.udpw else n.tcpw) && m == Dequeue(n, q)
      requires Handled(n, m, now) && Handled(m, k, now)
      ensures Handled(n, k, now)
      ensures Overdue(k, if udp then k.udpw else k.tcpw, now) <= Overdue(n, if udp then n.udpw else n.tcpw, now) - {q}
    {
      assert NoDup(n.udpw) && NoDup(n.tcpw) && n.queries[q].state == if udp then ToSend else TcpWait;
      hide Consistent, Overdue;
      HandledTwice(n, m, k, now);
      NotOverdueHandled(m, k, now);
      OverdueShrinks(n, m, k, q, udp, now);
    }

    static lemma NotOverdueHandled(n: Net, m: Net, now: Timeval)
      requires Handled(n, m, now)
      ensures NoNewOverdue(n, m, now)
    {
    }

    static lemma OverdueShrinks(n: Net, m: Net, k: Net, q: QueryId, udp: bool, now: Timeval)
      requires q in n.queries && m == Dequeue(n, q) && NoNewOverdue(m, k, now)
      requires q in (if udp then n.udpw else n.tcpw) && NoDup(n.udpw) && NoDup(n.tcpw)
      requires n.queries[q].state == if udp then ToSend else TcpWait
      ensures Overdue(k, if udp then k.udpw else k.tcpw, now) <= Overdue(n, if udp then n.udpw else n.tcpw, now) - {q}
    {
      UnlinkFacts(n.udpw, q);
      UnlinkFacts(n.tcpw, q);
    }

    /** timeouts_queue with act set: afterwards nothing on the queue is overdue.  The sweep
        restarts at the head after each expiry and still ends, because every expiry takes
        its query out of the overdue ones and makes no other query overdue. */
    method TimeoutsQueue(udp: bool, now: Timeval)
      requires Valid() && Normal(now) && now.sec >= 0
      modifies `net, `tcpsocket, `tcprecv, `tcprecvSkip, `tcpsend, `hist, `tcpstate, `tcpserver, `tcptimeout, `calls
      ensures Valid() && Handled(old(net), net, now)
      ensures Overdue(net, Waiting(udp), now) == {}
      ensures if udp then TimedAll(old(net), net, now) else OnlyTouches(old(net), net, {})
      ensures old(Overdue(net, Waiting(udp), now)) == {} ==> unchanged(this)
    {
      hide Consistent, SendOk, RecvOk, RetriesOk, SocketOk, Handled, OnlyTouches, Overdue, Current, TimingAll, TimedAll;
      ghost var n := net;
      HandledNow(now);
      TimingNone(n, now);
      var i: nat := 0;
      NobodyChecked(udp, now);
      while i < |Waiting(udp)|
        invariant Valid() && Handled(n, net, now) && Current(udp, i, now) && i <= |Waiting(udp)|
        invariant if udp then TimingAll(n, net, now) else OnlyTouches(n, net, {})
        invariant old(Overdue(net, Waiting(udp), now)) == {} ==> unchanged(this)
        decreases Overdue(net, Waiting(udp), now), |Waiting(udp)| - i
      {
        ghost var m := net;
        i := Advance(udp, i, now, n);
        HandledTwice(n, m, net, now);
        if !udp {
          OnlyTouchesTwice(n, m, net, {});
        }
      }
      AllChecked(udp, i, now);
      if udp {
        TimingDone(n, net, now);
      }
    }

    lemma NobodyChecked(udp: bool, now: Timeval)
      ensures Current(udp, 0, now)
    {
    }

    lemma AllChecked(udp: bool, i: nat, now: Timeval)
      requires Current(udp, i, now) && i == |Waiting(udp)|
      ensures Overdue(net, Waiting(udp), now) == {}
    {
    }

    // ---------- what a sweep of udpw does to one query ----------

    /** No datagram is too long for sendto(). */
    ghost predicate SendsFit() {
      forall k: nat :: !world.oversize(k)
    }

    /** The record of a query that has run out of datagrams. */
    static function GivenUp(u: Query): Query {
      u.(children := [], status := StTimeout, addrs := [], state := Finished, id := -1)
    }

    /** One more datagram for q, as long as there may be one. */
    ghost predicate Resent(n: Net, m: Net, q: QueryId, now: Timeval)
      requires q in n.queries && Normal(now) && cfg.nservers > 0
    {
      var u := n.queries[q];
      && q in m.queries && q !in m.tcpw
      && if u.retries >= UDP_MAX_RETRIES then m.queries[q] == GivenUp(u) && q in m.output
         else m.queries[q] == UdpSent(u, now) && q in m.udpw
    }

    /** The deadline of q, which waits over UDP, has passed. */
    static predicate Late(n: Net, q: QueryId, now: Timeval) {
      q in n.udpw && q in n.queries && After(now, n.queries[q].timeout)
    }

    static ghost predicate LeftAlone(n: Net, m: Net, q: QueryId)
      requires q in n.queries
    {
      Stays(n, m, q) && q !in m.tcpw
    }

    /** In the course of the sweep a query of the user without children, whose deadline has
        passed, is where it was or has had its turn; any other is where it was. */
    ghost predicate TimingAll(n: Net, m: Net, now: Timeval)
      requires Normal(now) && cfg.nservers > 0
    {
      forall q | Aside(n, q) :: LeftAlone(n, m, q) || (Late(n, q, now) && (SendsFit() ==> Resent(n, m, q, now)))
    }

    /** After the sweep all of them have had their turn, each once. */
    ghost predicate TimedAll(n: Net, m: Net, now: Timeval)
      requires Normal(now) && cfg.nservers > 0
    {
      forall q | Aside(n, q) ::
        if Late(n, q, now) then SendsFit() ==> Resent(n, m, q, now) else LeftAlone(n, m, q)
    }

    lemma TimingNone(n: Net, now: Timeval)
      requires Normal(now) && cfg.nservers > 0
      ensures TimingAll(n, n, now)
    {
    }

    lemma TimingDone(n: Net, m: Net, now: Timeval)
      requires Normal(now) && cfg.nservers > 0 && TimingAll(n, m, now) && Overdue(m, m.udpw, now) == {}
      ensures TimedAll(n, m, now)
    {
      hide Resent;
      forall q | Aside(n, q)
        ensures if Late(n, q, now) then SendsFit() ==> Resent(n, m, q, now) else LeftAlone(n, m, q)
      {
        assert Late(m, q, now) ==> q in Overdue(m, m.udpw, now);
      }
    }

    /** One who has had its turn, or whose deadline has not passed, is left alone. */
    lemma TurnIsKept(n: Net, m: Net, k: Net, q: QueryId, s: set<QueryId>, now: Timeval)
      requires Normal(now) && cfg.nservers > 0 && Aside(n, q) && OnlyTouches(m, k, s) && q !in s
      ensures LeftAlone(n, m, q) ==> LeftAlone(n, k, q)
      ensures Resent(n, m, q, now) ==> Resent(n, k, q, now)
    {
      if LeftAlone(n, m, q) || Resent(n, m, q, now) {
        assert Aside(m, q);
      }
    }

    /** The sweep goes on: the query p, which is overdue in m, has its turn. */
    lemma TimingGoesOn(n: Net, m: Net, k: Net, p: QueryId, now: Timeval, a: Link, b: Link)
      requires Normal(now) && cfg.nservers > 0 && TimingAll(n, m, now) && Consistent(m, {}, cfg) && Late(m, p, now)
      requires OnlyTouches(m, k, {p}) && SentAs(Dequeue(m, p), k, p, m.queries[p], now, a, b)
      ensures TimingAll(n, k, now)
    {
      hide Consistent, OnlyTouches, SentAs, Resent, LeftAlone;
      forall q | Aside(n, q)
        ensures LeftAlone(n, k, q) || (Late(n, q, now) && (SendsFit() ==> Resent(n, k, q, now)))
      {
        if q != p {
          TurnIsKept(n, m, k, q, {p}, now);
        } else {
          FirstTurn(n, m, q, now);
          if SendsFit() {
            TakesTurn(m, k, q, now, a, b);
            SameTurn(n, m, k, q, now);
          }
        }
      }
    }

    /** What comes after the sweep of udpw leaves all this alone. */
    lemma TimedOn(n: Net, m: Net, k: Net, now: Timeval)
      requires Normal(now) && cfg.nservers > 0 && TimedAll(n, m, now) && OnlyTouches(m, k, {})
      ensures TimedAll(n, k, now)
    {
      hide Resent, LeftAlone, OnlyTouches;
      forall q | Aside(n, q)
        ensures if Late(n, q, now) then SendsFit() ==> Resent(n, k, q, now) else LeftAlone(n, k, q)
      {
        TurnIsKept(n, m, k, q, {}, now);
      }
    }

    lemma SameTurn(n: Net, m: Net, k: Net, q: QueryId, now: Timeval)
      requires Normal(now) && cfg.nservers > 0 && q in n.queries && Stays(n, m, q) && Resent(m, k, q, now)
      ensures Resent(n, k, q, now)
    {
    }

    /** Nobody is overdue twice. */
    lemma FirstTurn(n: Net, m: Net, q: QueryId, now: Timeval)
      requires Normal(now) && cfg.nservers > 0 && Aside(n, q) && TimingAll(n, m, now) && Late(m, q, now) && Consistent(m, {}, cfg)
      ensures Late(n, q, now)
      ensures SendsFit() ==> Stays(n, m, q) && Aside(m, q)
    {
      hide Resent;
      assert q in m.udpw ==> q !in m.output;
      if Late(n, q, now) && SendsFit() && Resent(n, m, q, now) {
        TurnIsOver(n, m, q, now);
      }
    }

    lemma TurnIsOver(n: Net, m: Net, q: QueryId, now: Timeval)
      requires Normal(now) && cfg.nservers > 0 && q in n.queries && Resent(n, m, q, now) && Consistent(m, {}, cfg)
      ensures !Late(m, q, now)
    {
      AfterIsMicros(now, AddMs(now, UDP_RETRY_MS));
      assert q in m.udpw ==> q !in m.output;
    }

    lemma TakesTurn(m: Net, k: Net, q: QueryId, now: Timeval, a: Link, b: Link)
      requires Normal(now) && cfg.nservers > 0 && Consistent(m, {}, cfg) && q in m.udpw && m.queries[q].parent.None? && SendsFit()
      requires SentAs(Dequeue(m, q), k, q, m.queries[q], now, a, b)
      ensures Resent(m, k, q, now)
    {
      WaitsOverUdp(m, q);
      var d, u := Dequeue(m, q), m.queries[q];
      hide Consistent, Fail, Dequeue, Enqueue, UdpSent, Aside;
      if u.retries >= UDP_MAX_RETRIES {
        FailedRoot(m, q, u, StTimeout);
      } else {
        SentRoot(m, q, UdpSent(u, now));
        assert UdpSent(u, now).state == ToSend;
      }
    }

    lemma WaitsOverUdp(n: Net, q: QueryId)
      requires Consistent(n, {}, cfg) && q in n.udpw
      ensures q in n.queries && FieldsOk(n.queries[q], cfg) && n.queries[q].state == ToSend
      ensures !n.queries[q].useVc && |n.queries[q].dgram| <= DNS_MAX_UDP && n.queries[q].udpSent != {}
    {
      assert RowOk(n.queries[q]);
    }

    lemma SentRoot(n: Net, q: QueryId, u: Query)
      requires Consistent(n, {}, cfg) && q in n.udpw && q in n.queries && u.state == ToSend
      ensures var m := Enqueue(Dequeue(n, q), q, u);
        q in m.queries && m.queries[q] == u && q in m.udpw && q !in m.tcpw
    {
      DequeueKeepsConsistent(n, {}, cfg, q);
      assert {} + {q} == {q};
      SentOff(Dequeue(n, q), q, u);
    }

    /** Sending and failing a query of the user that is being processed in d, with the record u. */
    lemma SentOff(d: Net, q: QueryId, u: Query)
      requires Consistent(d, {q}, cfg) && u.state == ToSend
      ensures var m := Enqueue(d, q, u);
        q in m.queries && m.queries[q] == u && q in m.udpw && q !in m.tcpw
    {
    }

    lemma FailedOff(d: Net, q: QueryId, u: Query, st: Status)
      requires Consistent(d, {q}, cfg) && u.parent.None? && u.state == ToSend
      requires SameKin(d.queries[q], u) && FieldsOk(u, cfg)
      ensures var m := Fail(WithQuery(d, q, u), q, st);
        q in m.queries && m.queries[q] == u.(children := [], status := st, addrs := [], state := Finished, id := -1) &&
        q in m.output && q !in m.tcpw && q !in m.udpw
    {
      hide Consistent, Fail, Prune;
      var e := WithQuery(d, q, u);
      EditKeepsConsistent(d, {q}, cfg, q, u);
      FailRoot(e, cfg, q, st);
      FailKeepsConsistent(e, cfg, q, st);
      FinishedPlace(Fail(e, q, st), q);
    }

    /** Failing a query of the user that has just been taken off udpw, with the record u. */
    lemma FailedRoot(n: Net, q: QueryId, u: Query, st: Status)
      requires Consistent(n, {}, cfg) && q in n.udpw && u.parent.None? && u.state == ToSend
      requires SameKin(n.queries[q], u) && FieldsOk(u, cfg)
      ensures var m := Fail(WithQuery(Dequeue(n, q), q, u), q, st);
        q in m.queries && m.queries[q] == u.(children := [], status := st, addrs := [], state := Finished, id := -1) &&
        q in m.output && q !in m.tcpw && q !in m.udpw
    {
      assert q in n.queries && n.queries[q].state == ToSend;
      hide Consistent, Fail, Dequeue;
      DequeueKeepsConsistent(n, {}, cfg, q);
      assert {} + {q} == {q};
      FailedOff(Dequeue(n, q), q, u, st);
    }

    lemma FinishedPlace(n: Net, q: QueryId)
      requires Consistent(n, {}, cfg) && q in n.queries && n.queries[q].state == Finished
      ensures q in n.output && q !in n.tcpw && q !in n.udpw
    {
    }

    /** The first i queries of the queue are not overdue. */
    ghost predicate Current(udp: bool, i: nat, now: Timeval)
      reads this
    {
      i <= |Waiting(udp)| &&
      forall j | 0 <= j < i :: Waiting(udp)[j] in net.queries && !After(now, net.queries[Waiting(udp)[j]].timeout)
    }

    method Advance(udp: bool, i: nat, now: Timeval, ghost n: Net) returns (i': nat)
      requires Valid() && Current(udp, i, now) && i < |Waiting(udp)| && Normal(now) && now.sec >= 0
      requires udp ==> TimingAll(n, net, now)
      modifies `net, `tcpsocket, `tcprecv, `tcprecvSkip, `tcpsend, `hist, `tcpstate, `tcpserver, `tcptimeout, `calls
      ensures Valid() && Handled(old(net), net, now) && Current(udp, i', now) && i' <= |Waiting(udp)|
      ensures if udp then TimingAll(n, net, now) else OnlyTouches(old(net), net, {})
      ensures old(Overdue(net, Waiting(udp), now)) == {} ==> unchanged(this)
      ensures Overdue(net, Waiting(udp), now) < old(Overdue(net, Waiting(udp), now)) ||
        (Overdue(net, Waiting(udp), now) == old(Overdue(net, Waiting(udp), now)) && |Waiting(udp)| - i' < old(|Waiting(udp)|) - i)
    {
      hide Consistent, SendOk, RetriesOk, SocketOk, Handled, Fail, SentAs, Overdue, OnlyTouches, TimingAll;
      var q := Waiting(udp)[i];
      assert q in Waiting(udp);
      QueueFacts({});
      if !After(now, net.queries[q].timeout) {
        HandledNow(now);
        i' := i + 1;
      } else {
        IsOverdue(q, udp, now);
        ghost var m, l := net, Wire();
        TimeOut(q, udp, now);
        if udp {
          TimingGoesOn(n, m, net, q, now, l, Wire());
        }
        i' := 0;
      }
    }

    lemma IsOverdue(q: QueryId, udp: bool, now: Timeval)
      requires q in Waiting(udp) && q in net.queries && After(now, net.queries[q].timeout)
      ensures q in Overdue(net, Waiting(udp), now)
    {
    }

    /** timeouts_queue with act clear: the wait reported ends no later than any deadline on
        the queue.  It stops early only when it has found that there is nothing to wait for. */
    method FirstTimeoutOf(udp: bool, w: Wait, now: Timeval) returns (r: Wait)
      requires Valid() && WaitOk(w) && Normal(now)
      ensures WaitOk(r) && Tighter(r, w)
      ensures forall q | q in Waiting(udp) :: q in net.queries && WakesBy(r, Until(now, net.queries[q].timeout))
    {
      hide Consistent, SendOk, RecvOk, RetriesOk, SocketOk, WakesBy, Tighter, Until, WokenUpTo;
      QueueFacts({});
      r := w;
      var queue := Waiting(udp);
      NobodyWoken(w, now, queue);
      for i := 0 to |queue|
        invariant WaitOk(r) && Tighter(r, w) && WokenUpTo(r, now, queue, i)
      {
        var q := queue[i];
        assert q in queue;
        var r' := WakeFor(r, now, net.queries[q].timeout);
        OneMoreWoken(r', r, w, now, queue, i);
        r := r';
        if After(now, net.queries[q].timeout) {
          WokenAtOnce(r, now);
          return;
        }
      }
      AllWoken(r, now, queue);
    }

    /** The wait r is within the deadlines of the first i queries. */
    ghost predicate WokenUpTo(r: Wait, now: Timeval, queue: seq<QueryId>, i: nat)
      reads this
    {
      i <= |queue| && forall j | 0 <= j < i :: queue[j] in net.queries && WakesBy(r, Until(now, net.queries[queue[j]].timeout))
    }

    lemma NobodyWoken(w: Wait, now: Timeval, queue: seq<QueryId>)
      ensures Tighter(w, w) && WokenUpTo(w, now, queue, 0)
    {
    }

    lemma OneMoreWoken(r': Wait, r: Wait, w: Wait, now: Timeval, queue: seq<QueryId>, i: nat)
      requires Tighter(r', r) && Tighter(r, w) && WokenUpTo(r, now, queue, i) && i < |queue|
      requires queue[i] in net.queries && WakesBy(r', Until(now, net.queries[queue[i]].timeout))
      ensures Tighter(r', w) && WokenUpTo(r', now, queue, i + 1)
    {
      hide Until;
      forall j | 0 <= j < i ensures WakesBy(r', Until(now, net.queries[queue[j]].timeout)) {
        TighterWakes(r', r, Until(now, net.queries[queue[j]].timeout));
      }
    }

    lemma AllWoken(r: Wait, now: Timeval, queue: seq<QueryId>)
      requires WokenUpTo(r, now, queue, |queue|)
      ensures forall q | q in queue :: q in net.queries && WakesBy(r, Until(now, net.queries[q].timeout))
    {
    }

    lemma WokenAtOnce(r: Wait, now: Timeval)
      requires WakesBy(r, 0) && Ready({})
      ensures forall q | q in net.udpw || q in net.tcpw :: q in net.queries && WakesBy(r, Until(now, net.queries[q].timeout))
    {
    }

    // ---------- event.c: tcp_events ----------

    /** One token for every retry that a query on tcpw may still make. */
    static ghost function Tokens(n: Net, nservers: nat): set<(QueryId, nat)> {
      set q, k: nat | q in n.tcpw && q in n.queries && n.queries[q].retries <= k <= nservers + 1 :: (q, k)
    }

    ghost function Members(): set<QueryId>
      reads this
    {
      OnTcpw(net)
    }

    ghost function Budget(): set<(QueryId, nat)>
      reads this
    {
      Tokens(net, cfg.nservers)
    }

    /** Some query on tcpw will be failed by the next sweep. */
    ghost predicate Exhausted()
      reads this
    {
      UsedUp(net, cfg.nservers)
    }

    static ghost predicate UsedUp(n: Net, nservers: nat) {
      exists q :: q in n.tcpw && q in n.queries && n.queries[q].retries > nservers
    }

    ghost function TimedOut(now: Timeval): nat
      reads this
    {
      if tcpstate == Connecting && After(now, tcptimeout) then 1 else 0
    }

    /** How many calls of connect() the loop of tcp_events may still have to make. */
    ghost function Away(): nat
      reads this
    {
      if tcpstate == Connected || tcpstate == Connecting || (tcpstate == Broken && Exhausted()) then 0
      else 1 + if GoodAfter(world, calls) then NextGood(world, calls) - calls else 0
    }

    /** Calls that were all bad bring the next good one closer. */
    lemma BadCallsCount(i: nat, j: nat)
      requires i < j && GoodAfter(world, i) && forall k | i <= k < j :: !Good(world, k)
      ensures GoodAfter(world, j) && NextGood(world, j) == NextGood(world, i)
    {
      assert NextGood(world, i) >= j;
    }

    /** The sweep of tcp_events over a broken connection: queries that have used up their
        retries fail; nothing else on tcpw is touched. */
    method Sweep(now: Timeval)
      requires Valid() && tcpstate == Broken
      modifies `net, `tcpstate, `hist
      ensures Valid() && tcpstate == Disconnected && Handled(old(net), net, now) && OnlyTouches(old(net), net, {})
      ensures TcpUntouched(old(net), net) && hist == old(hist).(refusals := 0)
      ensures forall q | q in net.tcpw :: q in net.queries && net.queries[q].retries <= cfg.nservers
      ensures !UsedUp(old(net), cfg.nservers) ==> net == old(net)
      ensures SparesLoners(old(net), net, cfg.nservers)
    {
      hide Consistent, SendOk, RecvOk, RetriesOk, Handled, TcpUntouched, UsedUp, OnlyTouches, SparesLoners;
      SweepQueue(now);
      SweptKeepsConnection(net, hist, tcpsend, tcprecv, tcprecvSkip, cfg.nservers);
      tcpstate := Disconnected;
      hist := hist.(refusals := 0);
    }

    method SweepQueue(now: Timeval)
      requires Valid() && tcpstate == Broken
      modifies `net
      ensures Valid() && Handled(old(net), net, now) && OnlyTouches(old(net), net, {}) && TcpUntouched(old(net), net)
      ensures forall q | q in net.tcpw :: q in net.queries && net.queries[q].retries <= cfg.nservers
      ensures !UsedUp(old(net), cfg.nservers) ==> net == old(net)
      ensures SparesLoners(old(net), net, cfg.nservers)
    {
      hide Consistent, SendOk, RecvOk, RetriesOk, SocketOk, Handled, TcpUntouched, UsedUp, OnlyTouches, SparesLoners;
      ghost var n := net;
      SparesSelf(n, cfg.nservers);
      HandledNow(now);
      UntouchedSelf();
      var i: nat := 0;
      while i < |net.tcpw|
        invariant Valid() && Handled(n, net, now) && OnlyTouches(n, net, {}) && TcpUntouched(n, net) && Spared(i)
        invariant !UsedUp(n, cfg.nservers) ==> net == n
        invariant SparesLoners(n, net, cfg.nservers)
        decreases Members(), |net.tcpw| - i
      {
        ghost var m := net;
        i := SweepOne(i, now);
        TcpUntouchedTwice(n, m, net);
        HandledTwice(n, m, net, now);
        OnlyTouchesTwice(n, m, net, {});
        SparesTwice(n, m, net, cfg.nservers);
      }
    }

    /** The queries of the user without children that have retries left still wait for TCP. */
    static ghost predicate SparesLoners(n: Net, m: Net, k: nat) {
      forall q | Loner(n, q) && q in n.tcpw && n.queries[q].retries <= k :: Stays(n, m, q)
    }

    static lemma SparesSelf(n: Net, k: nat)
      ensures SparesLoners(n, n, k)
    {
    }

    static lemma SparesTwice(n: Net, m: Net, l: Net, k: nat)
      requires SparesLoners(n, m, k) && SparesLoners(m, l, k)
      ensures SparesLoners(n, l, k)
    {
      forall q | Loner(n, q) && q in n.tcpw && n.queries[q].retries <= k ensures Stays(n, l, q) {
        assert Stays(n, m, q) && Loner(m, q);
      }
    }

    static lemma SparesOthers(n: Net, m: Net, l: Net, q: QueryId, k: nat)
      requires q in n.tcpw && NoDup(n.tcpw) && q in n.queries && n.queries[q].state == TcpWait && n.queries[q].retries > k
      requires m == Dequeue(n, q) && LonersKept(m, l)
      ensures SparesLoners(n, l, k)
    {
      UnlinkFacts(n.tcpw, q);
      forall x | Loner(n, x) && x in n.tcpw && n.queries[x].retries <= k ensures Stays(n, l, x) {
        assert Loner(m, x) && Stays(m, l, x);
      }
    }

    ghost predicate Spared(i: nat)
      reads this
    {
      i <= |net.tcpw| &&
      forall j | 0 <= j < i :: net.tcpw[j] in net.queries && net.queries[net.tcpw[j]].retries <= cfg.nservers
    }

    method SweepOne(i: nat, now: Timeval) returns (i': nat)
      requires Valid() && Spared(i) && i < |net.tcpw|
      modifies `net
      ensures Valid() && Handled(old(net), net, now) && OnlyTouches(old(net), net, {}) && TcpUntouched(old(net), net) && Spared(i')
      ensures Members() < old(Members()) || (net == old(net) && i' == i + 1)
      ensures SparesLoners(old(net), net, cfg.nservers)
      ensures !UsedUp(old(net), cfg.nservers) ==> net == old(net)
    {
      hide Consistent, SendOk, RecvOk, RetriesOk, SocketOk, Handled, TcpUntouched, OnlyTouches, SparesLoners;
      QueueFacts({});
      UntouchedSelf();
      SparesSelf(net, cfg.nservers);
      var q := net.tcpw[i];
      assert q in net.tcpw;
      if net.queries[q].retries > cfg.nservers {
        FailWaiting(q, now);
        i' := 0;
      } else {
        HandledNow(now);
        i' := i + 1;
      }
    }

    lemma UntouchedSelf()
      requires NetOk({})
      ensures TcpUntouched(net, net)
    {
    }

    static lemma TcpUntouchedTwice(n: Net, m: Net, k: Net)
      requires TcpUntouched(n, m) && TcpUntouched(m, k)
      ensures TcpUntouched(n, k)
    {
    }

    method FailWaiting(q: QueryId, now: Timeval)
      requires Ready({}) && q in net.tcpw
      modifies `net
      ensures q in old(net).queries && Ready({}) && Handled(old(net), net, now) && OnlyTouches(old(net), net, {})
      ensures TcpUntouched(old(net), net) && Members() < old(Members())
      ensures old(net).queries[q].retries > cfg.nservers ==> SparesLoners(old(net), net, cfg.nservers)
    {
      hide Family, RowsOk, SendOk, RecvOk, RetriesOk, SocketOk, Handled, OnlyTouches, LonersKept, SparesLoners;
      assert q in Members();
      ghost var n := net;
      TakeOff(q, now);
      ghost var m := net;
      UnlinkFacts(n.tcpw, q);
      FinishFailed(q, StAllServFail);
      SettledIsHandled(m, net, now);
      HandledTwice(n, m, net, now);
      SettledJoins(m, net, {});
      MoreJoins(m, net, q);
      TakenJoins(n, m, net, q, now);
      if n.queries[q].retries > cfg.nservers {
        SparesOthers(n, m, net, q, cfg.nservers);
      }
    }

    /** Opens the connection for what waits on tcpw; every way this can end brings the loop
        of tcp_events closer to its end. */
    method Reconnect(now: Timeval)
      requires Valid() && tcpstate == Disconnected && net.tcpw != [] && Normal(now) && now.sec >= 0
      modifies `net, `tcpsocket, `tcprecv, `tcprecvSkip, `tcpsend, `hist, `tcpstate, `tcpserver, `tcptimeout, `calls
      ensures Valid() && Handled(old(net), net, now) && net.tcpw == old(net).tcpw && calls > old(calls)
      ensures OnlyTouches(old(net), net, {})
      ensures Members() == old(Members()) && Budget() <= old(Budget())
      ensures tcpstate == Connecting ==> !After(now, tcptimeout)
      ensures tcpstate == Broken ==> Budget() < old(Budget()) || Exhausted()
      ensures tcpstate == Disconnected && GoodAfter(world, old(calls)) ==>
        GoodAfter(world, calls) && calls > old(calls) && NextGood(world, calls) == NextGood(world, old(calls))
      ensures !GoodAfter(world, old(calls)) ==> tcpstate == Disconnected
      ensures world.connect(old(calls)) == InProgress ==>
        tcpstate == Connecting && net == old(net) && hist == old(hist) && calls == old(calls) + 1
    {
      hide Family, RowsOk, SendOk, RecvOk, RetriesOk, SocketOk, Handled, HeadFailed, OnlyTouches;
      ghost var n := net;
      ghost var b := Budget();
      TryConnect(now);
      OnlyRetriesJoins(n, net, {});
      OnlyRetriesIsHandled(n, net, now);
      OnlyRetriesKeepsConsistent(n, net, {}, cfg);
      if tcpstate == Broken {
        var q := n.tcpw[0];
        assert q in net.tcpw;
        if n.queries[q].retries <= cfg.nservers + 1 {
          assert (q, n.queries[q].retries) in b && (q, n.queries[q].retries) !in Budget();
        }
      }
      if tcpstate == Disconnected && GoodAfter(world, old(calls)) {
        BadCallsCount(old(calls), calls);
      }
    }

    /** The connection attempt took too long. */
    method GiveUpConnecting(now: Timeval)
      requires Valid() && tcpstate == Connecting
      modifies `net, `tcpsocket, `tcprecv, `tcprecvSkip, `tcpsend, `hist, `tcpstate, `tcpserver
      ensures Valid() && tcpstate == Broken && Handled(old(net), net, now) && OnlyTouches(old(net), net, {})
      ensures Members() == old(Members()) && Budget() <= old(Budget())
    {
      hide Consistent, SendOk, RecvOk, RetriesOk, SocketOk, Handled, Charged, Broke, OnlyRetries, Tokens, OnTcpw, OnlyTouches;
      ghost var n := net;
      QueueFacts({});
      ConnTimer();
      TcpBroken({});
      Charging(n, now);
      FewerTokens(n, net);
    }

    lemma ConnTimer()
      requires ConnOk({})
      ensures TimerOk(tcptimeout)
    {
    }

    /** Nothing but retry counts have changed, and there is no open connection. */
    lemma Charging(n: Net, now: Timeval)
      requires OnlyRetries(n, net) && Consistent(n, {}, cfg) && ConnOk({}) && tcpstate != Connected
      requires forall x | x in n.queries :: x < nextQuery
      ensures Valid() && Handled(n, net, now) && OnlyTouches(n, net, {})
    {
      assert tcprecvSkip == 0;
      hide Consistent, SendOk, RecvOk, RetriesOk, SocketOk, OnlyRetries, Handled, OnlyTouches;
      UpOrDown(n, now);
    }

    lemma FewerTokens(n: Net, m: Net)
      requires OnlyRetries(n, m)
      ensures OnTcpw(m) == OnTcpw(n) && Tokens(m, cfg.nservers) <= Tokens(n, cfg.nservers)
    {
    }

    /** The branch of tcp_events for an open connection: an idle one is closed in time. */
    method IdleConnection(now: Timeval)
      requires Valid() && tcpstate == Connected && net.tcpw == [] && Normal(now) && now.sec >= 0
      modifies `tcpsocket, `tcprecv, `tcprecvSkip, `tcpsend, `hist, `tcpstate, `tcptimeout
      ensures Valid() && tcptimeout.sec > 0 && (tcpstate == Connected || tcpstate == Disconnected)
      ensures tcpstate == Disconnected <==> old(tcptimeout.sec) != 0 && After(now, old(tcptimeout))
    {
      if tcptimeout.sec == 0 {
        tcptimeout := AddMs(now, TCP_IDLE_MS);
        AfterIsMicros(now, tcptimeout);
      }
      if After(now, tcptimeout) {
        TcpClose();
        tcpstate := Disconnected;
        ClosedIsOk(net, hist.refusals, hist.past, Disconnected, {});
      }
    }

    /** tcp_events with act set.  As long as connect() is not bad for ever the loop ends: every
        round makes a bad call, uses up a retry, fails a query or gets a connection under way.
        Afterwards nobody waits for TCP without a connection being open or on its way. */
    method TcpEvents(now: Timeval)
      requires Valid() && Normal(now) && now.sec >= 0 && Answering(world)
      modifies `net, `tcpsocket, `tcprecv, `tcprecvSkip, `tcpsend, `hist, `tcpstate, `tcpserver, `tcptimeout, `calls
      ensures Valid() && Handled(old(net), net, now) && OnlyTouches(old(net), net, {})
      ensures net.tcpw != [] ==> tcpstate == Connected || tcpstate == Connecting
      ensures tcpstate != Broken
      ensures old(tcpstate) == Broken && world.connect(old(calls)) == InProgress ==>
        Redialled(old(net), old(hist).past, old(calls), now)
    {
      hide Consistent, SendOk, RecvOk, RetriesOk, SocketOk, Handled, OnlyTouches, SparesLoners, TcpUntouched;
      ghost var n := net;
      HandledNow(now);
      var going := true;
      while going
        invariant Valid() && Handled(n, net, now) && OnlyTouches(n, net, {})
        invariant !going ==> tcpstate != Broken && (net.tcpw != [] ==> tcpstate == Connected || tcpstate == Connecting)
        invariant old(tcpstate) == Broken && world.connect(old(calls)) == InProgress ==>
          (going && unchanged(this)) || (Redialled(old(net), old(hist).past, old(calls), now) && (going ==> net.tcpw != []))
        decreases going, TimedOut(now), Members(), Budget(), Away()
      {
        ghost var m := net;
        going := TcpEventsRound(now);
        HandledTwice(n, m, net, now);
        OnlyTouchesTwice(n, m, net, {});
      }
    }

    /** The measure that one round lowers. */
    twostate predicate Closer(now: Timeval)
      reads this
    {
      || TimedOut(now) < old(TimedOut(now))
      || (TimedOut(now) == old(TimedOut(now)) && Members() < old(Members()))
      || (TimedOut(now) == old(TimedOut(now)) && Members() == old(Members()) && Budget() < old(Budget()))
      || (TimedOut(now) == old(TimedOut(now)) && Members() == old(Members()) && Budget() == old(Budget()) && Away() < old(Away()))
    }

    /** One round of the loop of tcp_events.  With a bad connect() for ever, a round that
        starts disconnected ends as it began. */
    method TcpEventsRound(now: Timeval) returns (going: bool)
      requires Valid() && Normal(now) && now.sec >= 0
      modifies `net, `tcpsocket, `tcprecv, `tcprecvSkip, `tcpsend, `hist, `tcpstate, `tcpserver, `tcptimeout, `calls
      ensures Valid() && Handled(old(net), net, now) && OnlyTouches(old(net), net, {})
      ensures !going ==> tcpstate != Broken && (net.tcpw != [] ==> tcpstate == Connected || tcpstate == Connecting)
      ensures going && GoodAfter(world, old(calls)) ==> Closer(now)
      ensures old(tcpstate) == Broken && world.connect(old(calls)) == InProgress ==>
        Redialled(old(net), old(hist).past, old(calls), now) && (going ==> net.tcpw != [])
      ensures old(tcpstate) == Connecting && !After(now, old(tcptimeout)) ==> unchanged(this) && !going
      ensures old(tcpstate) == Disconnected && old(net).tcpw != [] ==>
        going && net.tcpw == old(net).tcpw && calls > old(calls)
      ensures old(tcpstate) == Disconnected && old(net).tcpw != [] && !GoodAfter(world, old(calls)) ==> tcpstate == Disconnected
      ensures old(tcpstate) == Disconnected && tcpstate == Disconnected && going && GoodAfter(world, old(calls)) ==>
        GoodAfter(world, calls) && calls > old(calls) && NextGood(world, calls) == NextGood(world, old(calls))
    {
      hide OnlyTouches;
      going := false;
      HandledNow(now);
      match tcpstate {
        case Broken =>
          going := BrokenRound(now);
        case Disconnected =>
          if net.tcpw != [] {
            going := true;
            Reconnect(now);
          }
        case Connected =>
          if net.tcpw == [] {
            IdleConnection(now);
          }
        case Connecting =>
          if After(now, tcptimeout) {
            going := true;
            GiveUpConnecting(now);
          }
      }
    }

    /** A broken connection has been swept, and dialled again for whoever is left. */
    ghost predicate Redialled(n: Net, past: map<QueryId, Past>, k: nat, now: Timeval)
      reads this
    {
      && TcpUntouched(n, net) && SparesLoners(n, net, cfg.nservers) && hist.past == past && tcpstate != Broken
      && (forall q | q in net.tcpw :: q in net.queries && net.queries[q].retries <= cfg.nservers)
      && (!UsedUp(n, cfg.nservers) ==> net == n)
      && (net.tcpw != [] ==> tcpstate == Connecting && !After(now, tcptimeout) && calls == k + 1)
    }

    method BrokenRound(now: Timeval) returns (going: bool)
      requires Valid() && Normal(now) && now.sec >= 0 && tcpstate == Broken
      modifies `net, `tcpsocket, `tcprecv, `tcprecvSkip, `tcpsend, `hist, `tcpstate, `tcpserver, `tcptimeout, `calls
      ensures Valid() && Handled(old(net), net, now) && OnlyTouches(old(net), net, {})
      ensures if going then net.tcpw != [] else tcpstate == Disconnected && net.tcpw == []
      ensures world.connect(old(calls)) == InProgress ==> Redialled(old(net), old(hist).past, old(calls), now)
      ensures going && GoodAfter(world, old(calls)) ==> Closer(now)
    {
      hide Consistent, SendOk, RecvOk, RetriesOk, SocketOk, Handled, TcpUntouched, OnlyTouches, SparesLoners;
      ghost var n := net;
      ghost var ms := Members();
      Sweep(now);
      ghost var m := net;
      FewerWait(n, m);
      ghost var a := Away();
      going := net.tcpw != [];
      if going {
        SweptNobody(n, m);
        assert Members() == ms ==> !old(Exhausted());
        assert Members() == ms ==> old(Away()) == a;
        Reconnect(now);
        HandledTwice(n, m, net, now);
        OnlyTouchesTwice(n, m, net, {});
      }
    }

    /** What the sweep leaves can make no more retries than before. */
    lemma FewerWait(n: Net, m: Net)
      requires TcpUntouched(n, m)
      ensures OnTcpw(m) <= OnTcpw(n) && Tokens(m, cfg.nservers) <= Tokens(n, cfg.nservers)
    {
    }

    lemma SweptNobody(n: Net, m: Net)
      requires TcpUntouched(n, m) && forall q | q in m.tcpw :: q in m.queries && m.queries[q].retries <= cfg.nservers
      ensures OnTcpw(m) == OnTcpw(n) ==> !UsedUp(n, cfg.nservers)
    {
      if OnTcpw(m) == OnTcpw(n) {
        forall q | q in n.tcpw && q in n.queries ensures n.queries[q].retries <= cfg.nservers {
          assert q in OnTcpw(n);
        }
      }
    }

    /** The loop of tcp_events for one who waits: it gets away from the disconnected state if
        and only if some connect() to come is good.  This is the half where there is one. */
    method DialUntilUp(now: Timeval)
      requires Valid() && tcpstate == Disconnected && net.tcpw != [] && Normal(now) && now.sec >= 0
      requires GoodAfter(world, calls)
      modifies `net, `tcpsocket, `tcprecv, `tcprecvSkip, `tcpsend, `hist, `tcpstate, `tcpserver, `tcptimeout, `calls
      ensures Valid() && tcpstate != Disconnected && net.tcpw == old(net).tcpw
    {
      while tcpstate == Disconnected
        invariant Valid() && net.tcpw == old(net).tcpw && (tcpstate == Disconnected ==> GoodAfter(world, calls))
        decreases tcpstate == Disconnected, if tcpstate == Disconnected then NextGood(world, calls) - calls else 0
      {
        var going := TcpEventsRound(now);
      }
    }

    /** The other half: without one, the loop is where it was after any number of rounds. */
    method DialForever(now: Timeval, rounds: nat)
      requires Valid() && tcpstate == Disconnected && net.tcpw != [] && Normal(now) && now.sec >= 0
      requires !GoodAfter(world, calls)
      modifies `net, `tcpsocket, `tcprecv, `tcprecvSkip, `tcpsend, `hist, `tcpstate, `tcpserver, `tcptimeout, `calls
      ensures Valid() && tcpstate == Disconnected && net.tcpw == old(net).tcpw && calls >= old(calls) + rounds
    {
      for i := 0 to rounds
        invariant Valid() && tcpstate == Disconnected && net.tcpw == old(net).tcpw
        invariant calls >= old(calls) + i && !GoodAfter(world, calls)
      {
        var going := TcpEventsRound(now);
        assert going;
      }
    }

    /** Nobody who waits is overdue. */
    static ghost predicate OnTime(n: Net, now: Timeval) {
      Overdue(n, n.udpw, now) == {} && Overdue(n, n.tcpw, now) == {}
    }

    /** adns_processtimeouts */
    method ProcessTimeouts(now: Timeval)
      requires Valid() && Normal(now) && now.sec >= 0 && Answering(world)
      modifies `net, `tcpsocket, `tcprecv, `tcprecvSkip, `tcpsend, `hist, `tcpstate, `tcpserver, `tcptimeout, `calls
      ensures Valid() && Roots(net) == Roots(old(net)) && SearchKept(old(net), net)
      ensures TimedAll(old(net), net, now)
      ensures old(tcpstate) == Broken && world.connect(old(calls)) == InProgress && old(OnTime(net, now)) ==>
        Redialled(old(net), old(hist).past, old(calls), now)
      ensures Overdue(net, net.udpw, now) == {} && Overdue(net, net.tcpw, now) == {}
      ensures net.tcpw != [] ==> tcpstate == Connected || tcpstate == Connecting
    {
      hide Consistent, SendOk, RecvOk, RetriesOk, SocketOk, OnlyTouches, TimedAll, Redialled;
      ghost var n := net;
      TimeoutsQueue(true, now);
      ghost var a := net;
      TimeoutsQueue(false, now);
      ghost var b := net;
      TcpEvents(now);
      HandledTwice(a, b, net, now);
      OnlyTouchesTwice(a, b, net, {});
      TimedOn(n, a, net, now);
    }

    /** adns_firsttimeout: sleeping no longer than the answer misses no deadline, neither of a
        query nor of the connection. */
    method FirstTimeout(w: Wait, now: Timeval) returns (r: Wait)
      requires Valid() && WaitOk(w) && Normal(now) && now.sec >= 0
      modifies `tcptimeout
      ensures Valid() && WaitOk(r) && Tighter(r, w)
      ensures forall q | q in net.udpw || q in net.tcpw :: q in net.queries && WakesBy(r, Until(now, net.queries[q].timeout))
      ensures tcpstate == Connecting || (tcpstate == Connected && net.tcpw == []) ==>
        WakesBy(r, Until(now, tcptimeout))
      ensures tcpstate == Broken || (tcpstate == Disconnected && net.tcpw != []) ==> WakesBy(r, 0)
    {
      var u := FirstTimeoutOf(true, w, now);
      var t := FirstTimeoutOf(false, u, now);
      r := FirstTcpTimeout(t, now);
      forall q | q in net.udpw || q in net.tcpw
        ensures q in net.queries && WakesBy(r, Until(now, net.queries[q].timeout))
      {
        if q in net.udpw {
          TighterWakes(t, u, Until(now, net.queries[q].timeout));
        }
        TighterWakes(r, t, Until(now, net.queries[q].timeout));
      }
    }

    /** tcp_events with act clear. */
    method FirstTcpTimeout(w: Wait, now: Timeval) returns (r: Wait)
      requires Valid() && WaitOk(w) && Normal(now) && now.sec >= 0
      modifies `tcptimeout
      ensures Valid() && WaitOk(r) && Tighter(r, w)
      ensures tcpstate == Connecting || (tcpstate == Connected && net.tcpw == []) ==>
        WakesBy(r, Until(now, tcptimeout))
      ensures tcpstate == Broken || (tcpstate == Disconnected && net.tcpw != []) ==> WakesBy(r, 0)
    {
      r := w;
      match tcpstate {
        case Broken => r := Immediately(w);
        case Disconnected =>
          if net.tcpw != [] {
            r := Immediately(w);
          }
        case Connected =>
          if net.tcpw == [] {
            if tcptimeout.sec == 0 {
              tcptimeout := AddMs(now, TCP_IDLE_MS);
            }
            r := NoLaterThan(w, now, tcptimeout);
          }
        case Connecting => r := NoLaterThan(w, now, tcptimeout);
      }
    }

    // ---------- event.c: the file descriptors ----------

    /** What is in the buffer and has not been handed over. */
    ghost function Unread(): seq<Byte>
      requires tcprecvSkip <= |tcprecv|
      reads this
    {
      tcprecv[tcprecvSkip..]
    }

    /** One pass of the receive loop of adns_processreadable without a read: the message at
        the skip offset, if it is complete, goes to adns__procdgram. */
    method TakeMessage(now: Timeval) returns (took: bool, aborted: bool)
      requires Ready({}) && tcpstate == Connected && Normal(now) && now.sec >= 0
      modifies `net, `nextid, `nextQuery, `tcpsocket, `tcprecv, `tcprecvSkip, `tcpsend, `hist, `tcpstate, `tcpserver, `tcptimeout, `calls
      ensures nextQuery >= old(nextQuery)
      ensures took <==> old(WholeAt(tcprecv, tcprecvSkip))
      ensures !took ==> unchanged(this) && !aborted
      ensures took ==> Processed(old(Now()), Now(), MessageAt(old(tcprecv), old(tcprecvSkip)), 0, true, aborted, now)
      ensures aborted ==> TcpSearches(old(net)) != {}
      ensures !aborted ==> Ready({}) && Handled(old(net), net, now) && OnlyTouches(old(net), net, {})
      ensures took && !aborted && tcpstate == Connected ==>
        tcprecv == old(tcprecv) && tcprecvSkip == old(tcprecvSkip + 2 + LengthAt(tcprecv, tcprecvSkip)) &&
        hist.received == old(hist.received) && hist.handed == old(hist.handed) + [MessageAt(old(tcprecv), old(tcprecvSkip))]
      ensures tcpstate != Connected && !aborted ==> tcprecvSkip == 0 && tcpstate == Broken && !NoHardErrors(world)
    {
      hide Consistent, SendOk, RetriesOk, SocketOk, Handled, Processed, OnlyTouches;
      took, aborted := false, false;
      HandledSelf(net, {}, cfg, now);
      OnlyTouchesSelf(net);
      if |tcprecv| >= tcprecvSkip + 2 {
        var dgramlen := LengthAt(tcprecv, tcprecvSkip);
        if |tcprecv| >= tcprecvSkip + 2 + dgramlen {
          var oldSkip := tcprecvSkip;
          HandOver();
          ghost var s, m, serv := Now(), MessageAt(tcprecv, oldSkip), tcpserver;
          aborted := ProcDgram(tcprecv[oldSkip + 2..oldSkip + 2 + dgramlen], tcpserver, true, now);
          AnyServer(s, Now(), m, serv, aborted, now);
          took := true;
        }
      }
    }

    /** Over TCP the answer may come from any server. */
    lemma AnyServer(s: Snapshot, t: Snapshot, dgram: seq<Byte>, serv: nat, aborted: bool, now: Timeval)
      requires Normal(now) && cfg.nservers > 0 && Processed(s, t, dgram, serv, true, aborted, now)
      ensures Processed(s, t, dgram, 0, true, aborted, now)
    {
      hide TakenBy, FatalFor, Answers;
      if Proper(dgram) {
        AnsweredByAny(s.net.queries, s.net.tcpw, dgram, serv);
      }
    }

    static lemma {:induction false} AnsweredByAny(qs: map<QueryId, Query>, queue: seq<QueryId>, dgram: seq<Byte>, serv: nat)
      requires DNS_HDRSIZE <= |dgram|
      ensures AnsweredBy(qs, queue, dgram, serv, true) == AnsweredBy(qs, queue, dgram, 0, true)
    {
      if queue != [] {
        AnsweredByAny(qs, queue[1..], dgram, serv);
      }
    }

    /** Steps over the complete message at the skip offset. */
    method HandOver()
      requires Ready({}) && tcpstate == Connected && WholeAt(tcprecv, tcprecvSkip)
      modifies `tcprecvSkip, `hist
      ensures Ready({}) && tcprecvSkip == old(tcprecvSkip) + 2 + LengthAt(tcprecv, old(tcprecvSkip))
      ensures hist == old(hist).(handed := old(hist).handed + [MessageAt(tcprecv, old(tcprecvSkip))])
    {
      ghost var h := hist.(handed := hist.handed + [MessageAt(tcprecv, tcprecvSkip)]);
      HandOverKeepsRecv(hist, tcprecv, tcprecvSkip);
      SendSideOnly(net, hist, h, tcpstate, tcpsend, cfg.nservers);
      tcprecvSkip := tcprecvSkip + 2 + LengthAt(tcprecv, tcprecvSkip);
      hist := h;
    }

    /** Moves the unread bytes to the front of the buffer, and makes room for want bytes. */
    method Compact(want: nat) returns (avail: nat)
      requires Ready({}) && tcpstate == Connected && |tcprecv| - tcprecvSkip < want
      modifies `tcprecv, `tcprecvSkip
      ensures Ready({}) && tcprecvSkip == 0 && tcprecv == old(tcprecv[tcprecvSkip..])
      ensures |tcprecv| < avail
    {
      CompactKeepsRecv(hist, tcprecv, tcprecvSkip);
      tcprecv := tcprecv[tcprecvSkip..];
      tcprecvSkip := 0;
      avail :| avail >= want;
    }

    /** read() delivered got. */
    method Received(got: seq<Byte>)
      requires Ready({}) && tcpstate == Connected && tcprecvSkip == 0
      modifies `tcprecv, `hist
      ensures Ready({}) && tcprecv == old(tcprecv) + got
      ensures hist == old(hist).(received := old(hist).received + got)
    {
      ghost var h := hist.(received := hist.received + got);
      ReceiveKeepsRecv(hist, tcprecv, got);
      SendSideOnly(net, hist, h, tcpstate, tcpsend, cfg.nservers);
      tcprecv := tcprecv + got;
      hist := h;
    }

    /** Messages handed over one after the other, each from the state that the one before it
        led to, where the connection is up; an assertion fails exactly at one that is fatal where
        it is handed over, which is then the last. */
    ghost predicate HandedOver(run: seq<Snapshot>, msgs: seq<seq<Byte>>, aborted: bool, now: Timeval)
      requires Normal(now) && cfg.nservers > 0
    {
      && |run| == |msgs| + 1 && (aborted ==> msgs != [])
      && forall i | 0 <= i < |msgs| ::
           run[i].link.tcp == Connected && Processed(run[i], run[i + 1], msgs[i], 0, true, aborted && i == |msgs| - 1, now)
    }

    static ghost function RunOn(run: seq<Snapshot>, taken: seq<seq<Byte>>, t: Snapshot): seq<Snapshot> {
      if taken == [] then run else run + [t]
    }

    /** At most one message more. */
    ghost predicate HandedOn(s: Snapshot, t: Snapshot, taken: seq<seq<Byte>>, aborted: bool, now: Timeval)
      requires Normal(now) && cfg.nservers > 0
    {
      |taken| <= 1 &&
      if taken == [] then t == s && !aborted else s.link.tcp == Connected && Processed(s, t, taken[0], 0, true, aborted, now)
    }

    lemma OneMoreHanded(run: seq<Snapshot>, msgs: seq<seq<Byte>>, taken: seq<seq<Byte>>, t: Snapshot, aborted: bool, now: Timeval)
      requires Normal(now) && cfg.nservers > 0 && HandedOver(run, msgs, false, now)
      requires HandedOn(run[|msgs|], t, taken, aborted, now)
      ensures HandedOver(RunOn(run, taken, t), msgs + taken, aborted, now)
      ensures RunOn(run, taken, t)[|msgs + taken|] == t && RunOn(run, taken, t)[0] == run[0]
    {
      hide Processed;
      var on := RunOn(run, taken, t);
      if taken == [] {
        assert msgs + taken == msgs;
      } else {
        forall i | 0 <= i < |msgs| + 1
          ensures on[i].link.tcp == Connected
          ensures Processed(on[i], on[i + 1], (msgs + taken)[i], 0, true, aborted && i == |msgs|, now)
        {
          if i < |msgs| {
            assert run[i].link.tcp == Connected && Processed(run[i], run[i + 1], msgs[i], 0, true, false, now);
          }
        }
      }
    }

    /** The branch of adns_processreadable for the open connection.  However the stream is cut
        into reads, what was buffered and what was read are the messages handed over and then
        the rest.  These are all the messages there are, also when the peer closes, if and only
        if none before the last is fatal or breaks the connection; and the loop never has to go
        round on a full buffer. */
    method ReadTcp(input: seq<Read>, now: Timeval)
      returns (aborted: bool, broke: bool, ghost got: seq<Byte>, ghost msgs: seq<seq<Byte>>, ghost run: seq<Snapshot>)
      requires Valid() && tcpstate == Connected && Normal(now) && now.sec >= 0
      modifies `net, `nextid, `nextQuery, `tcpsocket, `tcprecv, `tcprecvSkip, `tcpsend, `hist, `tcpstate, `tcpserver, `tcptimeout, `calls
      ensures nextQuery >= old(nextQuery)
      ensures HandedOver(run, msgs, aborted, now) && run[0] == old(Now())
      ensures StreamRead(old(tcprecv), input, aborted, broke, got, msgs, run)
      ensures broke ==> !aborted && tcpstate == Broken
      ensures Now() == if !aborted && !broke && HangsUp(input) then Hung(run[|msgs|]) else run[|msgs|]
      ensures aborted ==> TcpSearches(old(net)) != {}
      ensures !aborted ==> Valid() && Handled(old(net), net, now) && OnlyTouches(old(net), net, {})
      ensures !aborted && tcpstate == Connected ==>
        hist.received == old(hist).received + got && hist.handed == old(hist).handed + msgs &&
        tcprecv == Leftover(old(tcprecv) + got)
      ensures !aborted && !broke ==> (tcpstate == Connected <==> !HangsUp(input))
    {
      hide Consistent, SendOk, RecvOk, RetriesOk, SocketOk, Handled, WholeAt, OnlyTouches, HandedOver, HandedOn,
        NoHardErrors, SplitSo, ReadSo, StreamRead, Delivered, HangsUp, Leftover, Hung;
      ghost var n, start, rest, s := net, tcprecv, tcprecv, Now();
      ghost var at := s;
      var script := input;
      aborted, broke, got, msgs, run := false, false, [], [], [s];
      HandledNow(now);
      ReadNothing(s, start, input, now);
      while tcpstate == Connected
        invariant !aborted && Ready({}) && Handled(n, net, now) && OnlyTouches(n, net, {}) && nextQuery >= old(nextQuery)
        invariant ReadSo(s, at, start, input, script, got, msgs, rest, run, false, now)
        invariant Now() == if tcpstate == Connected || broke then at else Hung(at)
        invariant tcpstate != Connected ==> tcprecvSkip == 0
        invariant tcpstate == Connected ==> tcprecvSkip <= |tcprecv| && rest == Unread()
        invariant tcpstate == Connected ==> hist.received == old(hist).received + got && hist.handed == old(hist).handed + msgs
        invariant tcpstate == Connected ==> HangsUp(script) == HangsUp(input) && !broke
        invariant broke ==> msgs != [] && !NoHardErrors(world) && tcpstate == Broken
        invariant tcpstate != Connected && !broke ==> !WholeAt(rest, 0) && HangsUp(input) && Delivered(script) == []
        decreases tcpstate == Connected, |script|, FirstChunk(script), |tcprecv| - tcprecvSkip
      {
        ghost var m, before := net, script;
        var took, stop;
        ghost var more, taken, left, t := [], [], [], at;
        aborted, took, stop, script, more, taken, left := ReceiveStep(script, now);
        at := if took then Now() else at;
        ReadGoesOn(s, t, at, start, input, before, script, got, msgs, rest, run, more, taken, left, aborted, now);
        Assoc(old(hist).received, got, more);
        Assoc(old(hist).handed, msgs, taken);
        run, msgs, got, rest := RunOn(run, taken, at), msgs + taken, got + more, left;
        if aborted {
          SearchWasThere(n, m);
          break;
        }
        HandledTwice(n, m, net, now);
        OnlyTouchesTwice(n, m, net, {});
        broke := took && tcpstate != Connected;
        if stop {
          break;
        }
        SkipWithin(hist, tcpstate, tcprecv, tcprecvSkip);
      }
      ReadConcludes(s, at, start, input, script, got, msgs, rest, run, aborted, broke, now);
    }

    /** How far the receive loop has come: the stream is split into messages and a rest, the
        script into what was read and what is to come, and the messages led from s to t. */
    ghost predicate ReadSo(s: Snapshot, t: Snapshot, start: seq<Byte>, input: seq<Read>, script: seq<Read>, got: seq<Byte>,
                           msgs: seq<seq<Byte>>, rest: seq<Byte>, run: seq<Snapshot>, aborted: bool, now: Timeval)
      requires Normal(now) && cfg.nservers > 0
    {
      && SplitSo(start, got, msgs, rest) && Delivered(input) == got + Delivered(script)
      && |run| == |msgs| + 1 && HandedOver(run, msgs, aborted, now) && run[0] == s && run[|msgs|] == t
    }

    lemma ReadNothing(s: Snapshot, start: seq<Byte>, input: seq<Read>, now: Timeval)
      requires Normal(now) && cfg.nservers > 0
      ensures ReadSo(s, s, start, input, input, [], [], start, [s], false, now) && start[0..] == start
      ensures hist.received + [] == hist.received && hist.handed + [] == hist.handed
    {
      NothingTaken(start);
    }

    lemma ReadGoesOn(s: Snapshot, t: Snapshot, t': Snapshot, start: seq<Byte>, input: seq<Read>, script: seq<Read>, script': seq<Read>,
                     got: seq<Byte>, msgs: seq<seq<Byte>>, rest: seq<Byte>, run: seq<Snapshot>, more: seq<Byte>,
                     taken: seq<seq<Byte>>, left: seq<Byte>, aborted: bool, now: Timeval)
      requires Normal(now) && cfg.nservers > 0 && ReadSo(s, t, start, input, script, got, msgs, rest, run, false, now)
      requires SplitSo(rest, more, taken, left) && Delivered(script) == more + Delivered(script') && HandedOn(t, t', taken, aborted, now)
      ensures ReadSo(s, t', start, input, script', got + more, msgs + taken, left, RunOn(run, taken, t'), aborted, now)
    {
      hide SplitSo, HandedOver, HandedOn, Delivered;
      OneMoreHanded(run, msgs, taken, t', aborted, now);
      SplitGoesOn(start, got, msgs, rest, more, taken, left);
      Assoc(got, more, Delivered(script'));
      HandedLength(RunOn(run, taken, t'), msgs + taken, aborted, now);
    }

    lemma HandedLength(run: seq<Snapshot>, msgs: seq<seq<Byte>>, aborted: bool, now: Timeval)
      requires Normal(now) && cfg.nservers > 0 && HandedOver(run, msgs, aborted, now)
      ensures |run| == |msgs| + 1
    {
    }

    lemma ReadConcludes(s: Snapshot, t: Snapshot, start: seq<Byte>, input: seq<Read>, script: seq<Read>, got: seq<Byte>,
                        msgs: seq<seq<Byte>>, rest: seq<Byte>, run: seq<Snapshot>, aborted: bool, broke: bool, now: Timeval)
      requires Normal(now) && cfg.nservers > 0 && ReadSo(s, t, start, input, script, got, msgs, rest, run, aborted, now)
      requires broke ==> msgs != [] && !NoHardErrors(world) && t.link.tcp == Broken && !aborted
      requires !aborted && !broke ==> !WholeAt(rest, 0) && Delivered(script) == []
      ensures StreamRead(start, input, aborted, broke, got, msgs, run)
      ensures !aborted && !broke ==> rest == Leftover(start + got)
      ensures HandedOver(run, msgs, aborted, now) && |run| == |msgs| + 1 && run[0] == s && run[|msgs|] == t
    {
      hide SplitSo, HandedOver, Delivered, NoHardErrors, Unharmed;
      assert got + [] == got;
      SplitIsMessages(start, got, msgs, rest);
      MessagesGrow(start + got, Delivered(script));
      Assoc(start, got, Delivered(script));
      HandedUnless(run, msgs, Messages(start + Delivered(input)), aborted, broke, now);
    }

    /** No message before the last of all is fatal or breaks the connection. */
    ghost predicate Unharmed(run: seq<Snapshot>, msgs: seq<seq<Byte>>, all: seq<seq<Byte>>)
      requires |msgs| <= |run|
    {
      forall i | 0 <= i < |msgs| && i < |all| - 1 :: !FatalIn(run[i], msgs[i], 0) && !Breaks(run[i], msgs[i])
    }

    lemma HandedUnless(run: seq<Snapshot>, msgs: seq<seq<Byte>>, all: seq<seq<Byte>>, aborted: bool, broke: bool, now: Timeval)
      requires Normal(now) && cfg.nservers > 0 && HandedOver(run, msgs, aborted, now) && msgs <= all
      requires broke ==> msgs != [] && run[|msgs|].link.tcp == Broken && !aborted
      requires !aborted && !broke ==> msgs == all
      ensures msgs == all <==> Unharmed(run, msgs, all)
    {
      hide Processed, FatalIn, Breaks;
      forall i | 0 <= i < |msgs| - 1 ensures !FatalIn(run[i], msgs[i], 0) && !Breaks(run[i], msgs[i]) {
        HandedAt(run[i], run[i + 1], msgs[i], false, now);
        assert run[i + 1].link.tcp == Connected;
      }
      if msgs != [] {
        var i := |msgs| - 1;
        assert Processed(run[i], run[i + 1], msgs[i], 0, true, aborted && i == |msgs| - 1, now);
        HandedAt(run[i], run[i + 1], msgs[i], aborted, now);
        assert msgs != all ==> i < |all| - 1;
      }
    }

    lemma HandedAt(s: Snapshot, t: Snapshot, msg: seq<Byte>, aborted: bool, now: Timeval)
      requires Normal(now) && cfg.nservers > 0 && s.link.tcp == Connected && Processed(s, t, msg, 0, true, aborted, now)
      ensures FatalIn(s, msg, 0) <==> aborted
      ensures !aborted ==> (Breaks(s, msg) <==> t.link.tcp != Connected)
    {
      hide TakenAs, FatalIn, LinkTaken, IdsUsed, KidsUsed, OnlyTouches;
      var q := Answerer(s.net, msg, 0, true);
      if q.Some? && !aborted {
        TakenLink(s, t, q.value, msg, now);
      }
    }

    lemma TakenLink(s: Snapshot, t: Snapshot, q: QueryId, msg: seq<Byte>, now: Timeval)
      requires Normal(now) && cfg.nservers > 0 && s.link.tcp == Connected && Answerer(s.net, msg, 0, true) == Some(q)
      requires q in s.net.queries && s.net.queries[q].state == TcpWait && DNS_HDRSIZE <= |msg| && TakenBy(s, t, q, msg, false, now)
      ensures t.link == LinkTaken(s.net.queries[q], msg, s.nextid, s.link)
    {
      hide RepliedAs, Fail, LinkReplied, OnlyTouches, AnsweredBy, IdsFor, KidsFor;
      if msg[3] % 16 in {0, 3} {
        var u := s.net.queries[q];
        RepliedLink(Dequeue(s.net, q), t.net, q, msg[3] % 16 == 3, Truncates(msg), world.parse(u, msg), world.aliased(u, msg),
                    s.nextid, s.nextQuery, now, s.link, t.link);
      }
    }

    static ghost predicate SplitSo(start: seq<Byte>, got: seq<Byte>, msgs: seq<seq<Byte>>, rest: seq<Byte>) {
      start + got == Frames(msgs) + rest && forall m | m in msgs :: |m| < 65536
    }

    static lemma SplitGoesOn(start: seq<Byte>, got: seq<Byte>, msgs: seq<seq<Byte>>, rest: seq<Byte>,
                             more: seq<Byte>, taken: seq<seq<Byte>>, left: seq<Byte>)
      requires SplitSo(start, got, msgs, rest) && SplitSo(rest, more, taken, left)
      ensures SplitSo(start, got + more, msgs + taken, left)
    {
      StreamGoesOn(start + got, msgs, rest, more, taken, left);
      Assoc(start, got, more);
    }

    static lemma SplitIsMessages(start: seq<Byte>, got: seq<Byte>, msgs: seq<seq<Byte>>, rest: seq<Byte>)
      requires SplitSo(start, got, msgs, rest)
      ensures msgs <= Messages(start + got)
      ensures !WholeAt(rest, 0) ==> msgs == Messages(start + got) && rest == Leftover(start + got)
    {
      SplitUnique(start + got, msgs, rest);
    }

    static lemma SkipWithin(h: History, st: TcpState, recv: seq<Byte>, skip: nat)
      requires RecvOk(h, st, recv, skip)
      ensures skip <= |recv|
    {
    }

    static lemma SearchWasThere(n: Net, m: Net)
      requires OnlyTouches(n, m, {}) && TcpSearches(m) != {}
      ensures TcpSearches(n) != {}
    {
      var q :| q in TcpSearches(m);
      assert q in TcpSearches(n);
    }

    /** Once round the receive loop: a message is handed over, or read() is called. */
    method ReceiveStep(script: seq<Read>, now: Timeval)
      returns (aborted: bool, took: bool, stop: bool, rest: seq<Read>, ghost more: seq<Byte>, ghost taken: seq<seq<Byte>>, ghost left: seq<Byte>)
      requires Ready({}) && tcpstate == Connected && Normal(now) && now.sec >= 0 && tcprecvSkip <= |tcprecv|
      modifies `net, `nextid, `nextQuery, `tcpsocket, `tcprecv, `tcprecvSkip, `tcpsend, `hist, `tcpstate, `tcpserver, `tcptimeout, `calls
      ensures nextQuery >= old(nextQuery)
      ensures SplitSo(old(Unread()), more, taken, left) && Delivered(script) == more + Delivered(rest)
      ensures HandedOn(old(Now()), if took then Now() else old(Now()), taken, aborted, now) && (took <==> taken != [])
      ensures !took ==> Now() == if tcpstate == Connected then old(Now()) else Hung(old(Now()))
      ensures took && !aborted ==> tcpstate == Connected || tcpstate == Broken
      ensures aborted ==> took
      ensures aborted ==> TcpSearches(old(net)) != {}
      ensures !aborted ==> Ready({}) && Handled(old(net), net, now) && OnlyTouches(old(net), net, {})
      ensures !aborted && tcpstate != Connected ==> tcprecvSkip == 0 && if took then !NoHardErrors(world) else !WholeAt(left, 0)
      ensures !aborted && tcpstate == Connected ==>
        tcprecvSkip <= |tcprecv| && left == Unread() &&
        hist.received == old(hist).received + more && hist.handed == old(hist).handed + taken
      ensures stop ==> tcpstate == Connected && !WholeAt(left, 0) && tcprecvSkip == 0 && !took && Delivered(rest) == [] && !HangsUp(script)
      ensures !aborted && tcpstate == Connected && !stop ==> HangsUp(rest) == HangsUp(script)
      ensures !aborted && tcpstate != Connected && !took ==> HangsUp(script) && Delivered(rest) == []
      ensures !aborted && !stop && tcpstate == Connected ==>
        |rest| < |script| ||
        (|rest| == |script| && FirstChunk(rest) < FirstChunk(script)) ||
        (rest == script && |tcprecv| - tcprecvSkip < old(|tcprecv| - tcprecvSkip))
    {
      hide Consistent, SendOk, RecvOk, RetriesOk, SocketOk, Handled, OnlyTouches, Processed, NoHardErrors;
      stop, rest, more, taken, left := false, script, [], [], Unread();
      NothingTaken(left);
      ghost var buffer, skip, r, h, s := tcprecv, tcprecvSkip, hist.received, hist.handed, Now();
      took, aborted := TakeMessage(now);
      assert r + [] == r && h + [] == h;
      if took {
        taken, left := [MessageAt(buffer, skip)], buffer[skip + 2 + LengthAt(buffer, skip)..];
        TakenFrame(buffer, skip);
      } else {
        StillPartial(buffer, skip);
        rest, stop, more := ReadOnce(script, now);
        left := left + more;
        NothingTaken(left);
      }
    }

    static lemma NothingTaken(s: seq<Byte>)
      ensures SplitSo(s, [], [], s) && forall m: seq<Byte> :: SplitSo(s, m, [], s + m)
    {
      assert forall m: seq<Byte> :: Frames([]) + (s + m) == s + m;
      assert s + [] == s;
    }

    static lemma TakenFrame(s: seq<Byte>, skip: nat)
      requires WholeAt(s, skip)
      ensures SplitSo(s[skip..], [], [MessageAt(s, skip)], s[skip + 2 + LengthAt(s, skip)..])
    {
      WholeIsFrame(s, skip);
      FramesAppend([], MessageAt(s, skip));
      assert [] + [MessageAt(s, skip)] == [MessageAt(s, skip)];
      assert s[skip..] + [] == s[skip..];
    }

    /** The part of the receive loop that calls read(). */
    method ReadOnce(script: seq<Read>, now: Timeval) returns (rest: seq<Read>, stop: bool, ghost more: seq<Byte>)
      requires Ready({}) && tcpstate == Connected && !WholeAt(tcprecv, tcprecvSkip) && tcprecvSkip <= |tcprecv|
      modifies `net, `tcpsocket, `tcprecv, `tcprecvSkip, `tcpsend, `hist, `tcpstate, `tcpserver
      ensures Ready({}) && Handled(old(net), net, now) && OnlyTouches(old(net), net, {}) && tcprecvSkip == 0
      ensures Now() == if tcpstate == Connected then old(Now()) else Hung(old(Now()))
      ensures |rest| < |script| || (|rest| == |script| && FirstChunk(rest) < FirstChunk(script)) || stop
      ensures stop ==> tcpstate == Connected && Delivered(rest) == [] && !HangsUp(script)
      ensures tcpstate != Connected ==> HangsUp(script) && Delivered(rest) == []
      ensures tcpstate == Connected && !stop ==> HangsUp(rest) == HangsUp(script)
      ensures more == [] || tcpstate == Connected
      ensures tcpstate != Connected || stop ==> more == []
      ensures Delivered(script) == more + Delivered(rest)
      ensures tcpstate == Connected ==>
        hist.received == old(hist).received + more && hist.handed == old(hist).handed && tcprecv == old(Unread()) + more
    {
      hide Consistent, SendOk, RecvOk, RetriesOk, SocketOk, Handled, OnlyTouches;
      HandledSelf(net, {}, cfg, now);
      OnlyTouchesSelf(net);
      rest, stop, more := script, false, [];
      var want := if |tcprecv| >= tcprecvSkip + 2 then 2 + LengthAt(tcprecv, tcprecvSkip) else 2;
      StillPartial(tcprecv, tcprecvSkip);
      ghost var unread := Unread();
      assert unread + [] == unread && hist.received + [] == hist.received;
      var avail := Compact(want);
      if script == [] || script[0] == NoResources {
        stop := true;
        return;
      }
      match script[0] {
        case Interrupted =>
          rest := script[1..];
        case Closed =>
          rest := [];
          Hangup(now);
        case Data(bytes) =>
          var got;
          rest, got := Deliver(script, avail - |tcprecv|);
          more := got;
          Received(got);
      }
    }

    /** The peer has closed the connection. */
    static function Hung(s: Snapshot): Snapshot {
      s.(link := Link(Broken, true, s.link.calls))
    }

    /** read() takes at most room bytes; what does not fit waits for the next call. */
    static method Deliver(script: seq<Read>, room: nat) returns (rest: seq<Read>, got: seq<Byte>)
      requires script != [] && script[0].Data? && room > 0
      ensures Delivered(script) == got + Delivered(rest)
      ensures |rest| < |script| || (|rest| == |script| && FirstChunk(rest) < FirstChunk(script))
      ensures HangsUp(rest) == HangsUp(script)
    {
      var bytes := script[0].bytes;
      if |bytes| <= room {
        return script[1..], bytes;
      }
      rest, got := [Data(bytes[room..])] + script[1..], bytes[..room];
      assert rest[1..] == script[1..] && bytes == got + bytes[room..];
      assert got + (bytes[room..] + Delivered(script[1..])) == bytes + Delivered(script[1..]);
    }

    static lemma StillPartial(s: seq<Byte>, skip: nat)
      requires skip <= |s| && !WholeAt(s, skip)
      ensures !WholeAt(s[skip..], 0)
      ensures |s| - skip < if |s| >= skip + 2 then 2 + LengthAt(s, skip) else 2
    {
    }

    /** adns__tcp_broken on the open connection. */
    method Hangup(now: Timeval)
      requires Ready({}) && (tcpstate == Connected || tcpstate == Connecting)
      modifies `net, `tcpsocket, `tcprecv, `tcprecvSkip, `tcpsend, `hist, `tcpstate, `tcpserver
      ensures Ready({}) && tcpstate == Broken && Handled(old(net), net, now) && OnlyTouches(old(net), net, {})
      ensures net == if old(tcpstate) == Connecting then Charged(old(net), OnTcpw(old(net))) else old(net)
      ensures tcprecvSkip == 0 && tcpsend == [] && hist.past == Broke(old(hist).past, old(net).tcpw, {})
      ensures tcpserver == (old(tcpserver) + 1) % cfg.nservers
    {
      hide Consistent, SendOk, RecvOk, RetriesOk, SocketOk, Broke, Charged, OnlyRetries, Handled, OnlyTouches;
      ghost var n := net;
      QueueFacts({});
      ConnTimer();
      TcpBroken({});
      Charging(n, now);
    }

    /** Datagrams taken from the UDP socket one after the other; those of strangers are passed
        over. */
    ghost predicate TakenIn(s: Snapshot, t: Snapshot, p: Datagram, now: Timeval)
      requires Normal(now) && cfg.nservers > 0
    {
      if p.server.Some? then Processed(s, t, p.bytes, p.server.value, false, false, now) else t == s
    }

    ghost predicate AllReceived(run: seq<Snapshot>, inbox: seq<Datagram>, now: Timeval)
      requires Normal(now) && cfg.nservers > 0
    {
      |run| == |inbox| + 1 && forall i | 0 <= i < |inbox| :: TakenIn(run[i], run[i + 1], inbox[i], now)
    }

    /** The branch of adns_processreadable for the UDP socket. */
    method ReadUdp(inbox: seq<Datagram>, now: Timeval) returns (ghost run: seq<Snapshot>)
      requires Valid() && Normal(now) && now.sec >= 0
      modifies `net, `nextid, `nextQuery, `tcpsocket, `tcprecv, `tcprecvSkip, `tcpsend, `hist, `tcpstate, `tcpserver, `tcptimeout, `calls
      ensures nextQuery >= old(nextQuery)
      ensures Valid() && Handled(old(net), net, now)
      ensures AllReceived(run, inbox, now) && run[0] == old(Now()) && run[|inbox|] == Now()
    {
      hide Consistent, SendOk, RetriesOk, SocketOk, Handled, TakenIn;
      ghost var n := net;
      HandledNow(now);
      run := [Now()];
      for i := 0 to |inbox|
        invariant Valid() && Handled(n, net, now) && nextQuery >= old(nextQuery)
        invariant AllReceived(run, inbox[..i], now) && run[0] == old(Now()) && run[i] == Now()
      {
        ghost var m := net;
        ReceiveOne(inbox[i], now);
        HandledTwice(n, m, net, now);
        OneMoreReceived(run, inbox, i, Now(), now);
        run := run + [Now()];
      }
      assert inbox[..|inbox|] == inbox;
    }

    method ReceiveOne(p: Datagram, now: Timeval)
      requires Valid() && Normal(now) && now.sec >= 0
      modifies `net, `nextid, `nextQuery, `tcpsocket, `tcprecv, `tcprecvSkip, `tcpsend, `hist, `tcpstate, `tcpserver, `tcptimeout, `calls
      ensures nextQuery >= old(nextQuery)
      ensures Valid() && Handled(old(net), net, now) && TakenIn(old(Now()), Now(), p, now)
    {
      hide Consistent, SendOk, RetriesOk, SocketOk, Handled, Processed;
      HandledNow(now);
      if p.server.Some? {
        ghost var s := Now();
        var aborted := ProcDgram(p.bytes, p.server.value, false, now);
        UdpNeverAborts(s, Now(), p, aborted, now);
      }
    }

    lemma UdpNeverAborts(s: Snapshot, t: Snapshot, p: Datagram, aborted: bool, now: Timeval)
      requires Normal(now) && cfg.nservers > 0 && p.server.Some?
      requires Processed(s, t, p.bytes, p.server.value, false, aborted, now)
      ensures !aborted
    {
      hide TakenBy, FatalIn;
    }

    lemma HandledNow(now: Timeval)
      requires Ready({})
      ensures Handled(net, net, now) && OnlyTouches(net, net, {})
    {
      HandledSelf(net, {}, cfg, now);
    }

    lemma OneMoreReceived(run: seq<Snapshot>, inbox: seq<Datagram>, i: nat, t: Snapshot, now: Timeval)
      requires Normal(now) && cfg.nservers > 0 && i < |inbox|
      requires AllReceived(run, inbox[..i], now) && TakenIn(run[i], t, inbox[i], now)
      ensures AllReceived(run + [t], inbox[..i + 1], now)
    {
      hide TakenIn;
      var more, taken := run + [t], inbox[..i + 1];
      forall k | 0 <= k < i + 1 ensures TakenIn(more[k], more[k + 1], taken[k], now) {
        if k < i {
          assert TakenIn(run[k], run[k + 1], inbox[..i][k], now);
        }
      }
    }

    /** What one readiness of the connection came to: how far the stream was read, which of its
        messages were handed over, and through which states that led. */
    ghost predicate StreamRead(buffer: seq<Byte>, input: seq<Read>, aborted: bool, broke: bool,
                               got: seq<Byte>, msgs: seq<seq<Byte>>, run: seq<Snapshot>) {
      && msgs <= Messages(buffer + got) && got <= Delivered(input)
      && (!aborted && !broke ==> msgs == Messages(buffer + got) && got == Delivered(input))
      && (broke ==> msgs != [] && !NoHardErrors(world))
      && AllHanded(buffer + Delivered(input), msgs, run)
    }

    /** All messages of the stream are handed over, if and only if none of them before the last
        is fatal or breaks the connection. */
    ghost predicate AllHanded(stream: seq<Byte>, msgs: seq<seq<Byte>>, run: seq<Snapshot>) {
      |msgs| <= |run| && msgs <= Messages(stream) && (msgs == Messages(stream) <==> Unharmed(run, msgs, Messages(stream)))
    }

    /** adns_processreadable.  It aborts only at a message over TCP that is fatal where it is
        handed over. */
    method ProcessReadable(fd: int, input: seq<Read>, inbox: seq<Datagram>, now: Timeval)
      returns (aborted: bool, broke: bool, ghost got: seq<Byte>, ghost msgs: seq<seq<Byte>>, ghost run: seq<Snapshot>)
      requires Valid() && Normal(now) && now.sec >= 0
      modifies `net, `nextid, `nextQuery, `tcpsocket, `tcprecv, `tcprecvSkip, `tcpsend, `hist, `tcpstate, `tcpserver, `tcptimeout, `calls
      ensures nextQuery >= old(nextQuery)
      ensures aborted ==> old(Streaming(fd)) && TcpSearches(old(net)) != {}
      ensures !aborted ==> Valid() && Handled(old(net), net, now)
      ensures !aborted && fd != udpsocket ==> OnlyTouches(old(net), net, {})
      ensures old(Streaming(fd)) ==>
        HandedOver(run, msgs, aborted, now) && run[0] == old(Now()) &&
        StreamRead(old(tcprecv), input, aborted, broke, got, msgs, run) && (broke ==> tcpstate == Broken) &&
        Now() == if !aborted && !broke && HangsUp(input) then Hung(run[|msgs|]) else run[|msgs|]
      ensures !old(Streaming(fd)) && fd == udpsocket ==>
        AllReceived(run, inbox, now) && run[0] == old(Now()) && run[|inbox|] == Now()
      ensures !old(Streaming(fd)) && fd != udpsocket ==> unchanged(this)
    {
      hide Consistent, SendOk, RecvOk, RetriesOk, SocketOk, Handled, OnlyTouches, HandedOver, AllReceived, StreamRead;
      aborted, broke, got, msgs, run := false, false, [], [], [];
      HandledNow(now);
      if tcpstate == Connected && fd == tcpsocket {
        aborted, broke, got, msgs, run := ReadTcp(input, now);
      } else if fd == udpsocket {
        run := ReadUdp(inbox, now);
      }
    }

    predicate Streaming(fd: int)
      reads this
    {
      tcpstate == Connected && fd == tcpsocket
    }

    /** How many queued bytes a script of writes takes, and whether it ends in an error. */
    static function Drained(output: seq<Write>, queued: nat): (r: (nat, bool))
      ensures r.0 <= queued
    {
      if output == [] || queued == 0 then (0, false)
      else
        match output[0]
        case WriteInterrupted => Drained(output[1..], queued)
        case WriteNoResources => (0, false)
        case WriteFailed => (0, true)
        case Wrote(count) =>
          var c := if count <= queued then count else queued;
          var more := Drained(output[1..], queued - c);
          (c + more.0, more.1)
    }

    /** The write loop of adns_processwriteable: queued bytes move to the wire, in order. */
    method Flush(output: seq<Write>, now: Timeval)
      requires Valid() && tcpstate == Connected
      modifies `net, `tcpsocket, `tcprecv, `tcprecvSkip, `tcpsend, `hist, `tcpstate, `tcpserver
      ensures Valid() && Handled(old(net), net, now) && OnlyTouches(old(net), net, {}) && net == old(net)
      ensures tcpstate == if Drained(output, |old(tcpsend)|).1 then Broken else Connected
      ensures tcpstate == Connected ==> FlushedTo(old(hist), old(tcpsend), Drained(output, |old(tcpsend)|).0)
      ensures tcpstate == Broken ==> Fell(old(tcpserver), old(hist).past, old(net).tcpw)
    {
      hide Consistent, SendOk, RecvOk, RetriesOk, SocketOk, Handled, OnlyTouches, Drained, Broke, FlushedTo;
      HandledNow(now);
      var k := 0;
      ghost var send, c: nat := tcpsend, 0;
      NothingFlushed(output);
      while tcpsend != [] && k < |output|
        invariant Valid() && tcpstate == Connected && net == old(net) && tcpserver == old(tcpserver)
        invariant k <= |output| && FlushedTo(old(hist), send, c) && c + |tcpsend| == |send| && hist.past == old(hist).past
        invariant Drained(output, |send|) == More(c, Drained(output[k..], |send| - c))
        decreases |output| - k
      {
        DrainedStep(output, k, |send| - c);
        match output[k] {
          case WriteInterrupted =>
          case WriteNoResources => return;
          case WriteFailed =>
            Hangup(now);
            return;
          case Wrote(count) =>
            var wr := if count <= |tcpsend| then count else |tcpsend|;
            MoveToWire(wr, old(hist), send, c);
            c := c + wr;
        }
        k := k + 1;
      }
      DrainedEnd(output, k, |send| - c);
    }

    lemma NothingFlushed(output: seq<Write>)
      ensures FlushedTo(hist, tcpsend, 0) && output[0..] == output
    {
      assert hist.written + tcpsend[..0] == hist.written;
    }

    static function More(c: nat, d: (nat, bool)): (nat, bool) {
      (c + d.0, d.1)
    }

    static lemma DrainedStep(output: seq<Write>, k: nat, queued: nat)
      requires k < |output| && queued > 0
      ensures Drained(output[k..], queued) ==
        match output[k]
        case WriteInterrupted => Drained(output[k + 1..], queued)
        case WriteNoResources => (0, false)
        case WriteFailed => (0, true)
        case Wrote(count) =>
          var c := if count <= queued then count else queued;
          More(c, Drained(output[k + 1..], queued - c))
    {
      assert output[k..][0] == output[k] && output[k..][1..] == output[k + 1..];
    }

    static lemma DrainedEnd(output: seq<Write>, k: nat, queued: nat)
      requires k <= |output| && (queued == 0 || k == |output|)
      ensures Drained(output[k..], queued) == (0, false)
    {
    }

    /** The first c of the bytes that were queued have gone out. */
    ghost predicate FlushedTo(h: History, send: seq<Byte>, c: nat)
      reads this
    {
      c <= |send| && tcpsend == send[c..] && hist == h.(written := h.written + send[..c])
    }

    /** The connection fell: the next server is the one to try, and one cycle is over for all
        who wait. */
    ghost predicate Fell(server: nat, past: map<QueryId, Past>, waiting: seq<QueryId>)
      requires cfg.nservers > 0
      reads this
    {
      tcpstate == Broken && tcpserver == (server + 1) % cfg.nservers && hist.past == Broke(past, waiting, {})
    }

    method MoveToWire(wr: nat, ghost h: History, ghost send: seq<Byte>, ghost c: nat)
      requires Valid() && tcpstate == Connected && wr <= |tcpsend| && FlushedTo(h, send, c)
      modifies `tcpsend, `hist
      ensures Valid() && FlushedTo(h, send, c + wr) && |tcpsend| == old(|tcpsend|) - wr && hist.past == old(hist).past
    {
      hide Consistent, RecvOk, SentIffUp, StreamFramed, Frames, RetriesOk, SocketOk;
      ghost var moved := hist.(written := hist.written + tcpsend[..wr]);
      OneWrite(h.written, send, c, wr);
      MovedOk(hist, moved, wr);
      hist := moved;
      tcpsend := tcpsend[wr..];
    }

    static lemma OneWrite(written: seq<Byte>, send: seq<Byte>, c: nat, wr: nat)
      requires c + wr <= |send|
      ensures send[c..][wr..] == send[c + wr..]
      ensures (written + send[..c]) + send[c..][..wr] == written + send[..c + wr]
    {
      assert send[..c] + send[c..][..wr] == send[..c + wr];
      Assoc(written, send[..c], send[c..][..wr]);
    }

    lemma MovedOk(h: History, moved: History, wr: nat)
      requires SendOk(net, h, Connected, tcpsend, {}) && RecvOk(h, Connected, tcprecv, tcprecvSkip) && wr <= |tcpsend|
      requires RetriesOk(net, h, Connected, cfg.nservers, {}) && Calm(h) && moved == h.(written := h.written + tcpsend[..wr])
      ensures SendOk(net, moved, Connected, tcpsend[wr..], {}) && RecvOk(moved, Connected, tcprecv, tcprecvSkip)
      ensures RetriesOk(net, moved, Connected, cfg.nservers, {}) && Calm(moved)
    {
      StreamMoves(h, tcpsend, wr);
      SameLogSameSent(net, h, moved);
    }

    static lemma StreamMoves(h: History, send: seq<Byte>, c: nat)
      requires StreamFramed(h, send) && c <= |send|
      ensures StreamFramed(h.(written := h.written + send[..c]), send[c..])
    {
      Assoc(h.written, send[..c], send[c..]);
      assert send[..c] + send[c..] == send;
    }

    static lemma SameLogSameSent(n: Net, h: History, h': History)
      requires SentIffUp(n, h, true, {}) && h'.log == h.log && h'.joined == h.joined
      ensures SentIffUp(n, h', true, {})
    {
      forall q | q in n.tcpw ensures q in n.queries && SentOnce(n, h', q, 1) {
        assert SentOnce(n, h, q, 1);
      }
    }

    /** adns_processwriteable.  A connection on its way is up once the one-byte read finds
        neither data nor an error: then everything that waits is sent, until a write fails.  On
        an open connection queued bytes go out. */
    method ProcessWriteable(fd: int, probe: Probe, output: seq<Write>, now: Timeval)
      requires Valid() && Normal(now)
      modifies `net, `tcpsocket, `tcprecv, `tcprecvSkip, `tcpsend, `hist, `tcpstate, `tcpserver, `tcptimeout, `calls
      ensures Valid() && Handled(old(net), net, now) && OnlyTouches(old(net), net, {})
      ensures fd == old(tcpsocket) && old(tcpstate) == Connecting && probe == NothingYet ==>
        OnlyRetries(old(net), net) && (tcpstate == Connected || (tcpstate == Broken && HeadCharged(old(net)))) &&
        tcprecv == [] && (NoHardErrors(world) ==> tcpstate == Connected) &&
        Wire() == FramedAll(old(net), 0, Link(Connected, true, old(calls))) &&
        (old(net).tcpw != [] && world.writev(old(calls)) == HardError ==> HeadFailed(old(net), old(hist)) && calls == old(calls) + 1)
      ensures fd == old(tcpsocket) && old(tcpstate) == Connecting && (probe == EarlyData || probe == ProbeFailed) ==>
        Fell(old(tcpserver), old(hist).past, old(net).tcpw) && net == Charged(old(net), OnTcpw(old(net)))
      ensures fd == old(tcpsocket) && old(tcpstate) == Connected ==>
        net == old(net) && tcpstate == if Drained(output, |old(tcpsend)|).1 then Broken else Connected
      ensures fd == old(tcpsocket) && old(tcpstate) == Connected && tcpstate == Connected ==>
        FlushedTo(old(hist), old(tcpsend), Drained(output, |old(tcpsend)|).0)
      ensures fd == old(tcpsocket) && old(tcpstate) == Connected && tcpstate == Broken ==>
        Fell(old(tcpserver), old(hist).past, old(net).tcpw)
      ensures fd != old(tcpsocket) || old(Idle(probe)) ==> unchanged(this)
    {
      hide Consistent, SendOk, RecvOk, RetriesOk, SocketOk, Handled, OnlyTouches, Drained, Charged, Broke, OnlyRetries,
        FramedAll;
      HandledNow(now);
      if fd == tcpsocket {
        if tcpstate == Connecting {
          match probe {
            case NothingYet => ConnectionUp(now);
            case ProbeNoResources =>
            case EarlyData => Hangup(now);
            case ProbeFailed => Hangup(now);
          }
        } else if tcpstate == Connected {
          Flush(output, now);
        }
      }
    }

    predicate Idle(probe: Probe)
      reads this
    {
      tcpstate == Disconnected || tcpstate == Broken || (tcpstate == Connecting && probe == ProbeNoResources)
    }

    method ConnectionUp(now: Timeval)
      requires Valid() && tcpstate == Connecting
      modifies `net, `tcpsocket, `tcprecv, `tcprecvSkip, `tcpsend, `hist, `tcpstate, `tcpserver, `tcptimeout, `calls
      ensures Valid() && Handled(old(net), net, now) && OnlyTouches(old(net), net, {}) && OnlyRetries(old(net), net)
      ensures tcpstate == Connected || (tcpstate == Broken && HeadCharged(old(net)))
      ensures tcprecv == [] && (NoHardErrors(world) ==> tcpstate == Connected)
      ensures old(net).tcpw != [] && world.writev(old(calls)) == HardError ==>
        HeadFailed(old(net), old(hist)) && calls == old(calls) + 1
      ensures Wire() == FramedAll(old(net), 0, Link(Connected, true, old(calls)))
    {
      hide Consistent, SendOk, RecvOk, RetriesOk, SocketOk, Handled, HeadFailed, HeadCharged, OnlyRetries, FramedAll;
      ghost var n := net;
      QueueFacts({});
      DiallingNow();
      TcpConnected();
      UpOrDown(n, now);
    }

    lemma DiallingNow()
      requires ConnOk({}) && tcpstate == Connecting
      ensures Dialling()
    {
    }

    lemma UpOrDown(n: Net, now: Timeval)
      requires OnlyRetries(n, net) && Consistent(n, {}, cfg) && ConnOk({}) && tcprecvSkip == 0
      requires forall x | x in n.queries :: x < nextQuery
      ensures Valid() && Handled(n, net, now) && OnlyTouches(n, net, {})
    {
      assert forall x | x in n.udpw || x in n.tcpw :: x in n.queries;
      hide Consistent, SendOk, RecvOk, RetriesOk, SocketOk;
      OnlyRetriesIsHandled(n, net, now);
      OnlyRetriesJoins(n, net, {});
      OnlyRetriesKeepsConsistent(n, net, {}, cfg);
      SameNumbers(n, net);
    }

    static lemma SameNumbers(n: Net, m: Net)
      requires OnlyRetries(n, m)
      ensures m.queries.Keys == n.queries.Keys
    {
    }

    /** adns_processexceptional: the connection, open or on its way, has broken. */
    method ProcessExceptional(fd: int, now: Timeval)
      requires Valid()
      modifies `net, `tcpsocket, `tcprecv, `tcprecvSkip, `tcpsend, `hist, `tcpstate, `tcpserver
      ensures Valid() && Handled(old(net), net, now) && OnlyTouches(old(net), net, {})
      ensures fd == old(tcpsocket) && (old(tcpstate) == Connecting || old(tcpstate) == Connected) ==>
        Fell(old(tcpserver), old(hist).past, old(net).tcpw) &&
        net == if old(tcpstate) == Connecting then Charged(old(net), OnTcpw(old(net))) else old(net)
      ensures fd != old(tcpsocket) || old(tcpstate) == Disconnected || old(tcpstate) == Broken ==> unchanged(this)
    {
      hide Consistent, SendOk, RecvOk, RetriesOk, SocketOk, Handled, OnlyTouches, Charged, Broke;
      HandledNow(now);
      if (tcpstate == Connecting || tcpstate == Connected) && fd == tcpsocket {
        Hangup(now);
      }
    }

    // ---------- the user's side ----------

    /** adns__internal_check.  Asked for any query, it says that there is none only when none
        is outstanding, although it never looks at childw. */
    method Check(wanted: Option<QueryId>) returns (r: CheckResult)
      requires Valid() && (wanted.Some? ==> wanted.value in Roots(net))
      modifies `net
      ensures Valid()
      ensures r.Answered? ==>
        old(r.query in net.queries && net.queries[r.query].state == Finished) &&
        net == Free(Dequeue(old(net), r.query), r.query) &&
        (wanted.Some? ==> r.query == wanted.value) && (wanted.None? ==> r.query == old(net).output[0])
      ensures !r.Answered? ==> net == old(net)
      ensures wanted.Some? ==> (r.Answered? <==> old(net).queries[wanted.value].state == Finished)
      ensures wanted.None? && old(net).output != [] ==> r.Answered?
      ensures r == NoSuchQuery <==> wanted.None? && old(net).queries == map[]
    {
      var q: QueryId;
      if wanted.None? {
        if net.output == [] {
          if net.udpw != [] || net.tcpw != [] {
            SomethingWaits();
            return TryAgain;
          }
          NothingOutstanding();
          return NoSuchQuery;
        }
        q := net.output[0];
        assert q in net.output;
      } else {
        q := wanted.value;
        if net.queries[q].id >= 0 {
          assert RowOk(net.queries[q]);
          return TryAgain;
        }
        assert RowOk(net.queries[q]);
      }
      Collect(q);
      r := Answered(q);
    }

    lemma SomethingWaits()
      requires Valid() && (net.udpw != [] || net.tcpw != [])
      ensures net.queries != map[]
    {
      if net.udpw != [] {
        assert net.udpw[0] in net.udpw;
      } else {
        assert net.tcpw[0] in net.tcpw;
      }
    }

    lemma NothingOutstanding()
      requires Valid() && net.output == [] && net.udpw == [] && net.tcpw == []
      ensures net.queries == map[]
    {
      NothingWaitsForChildren(net, cfg);
      forall q | q in net.queries
        ensures q in net.udpw || q in net.tcpw || q in net.childw || q in net.output
      {
        OnSomeQueue(net, cfg, q);
      }
      assert net.queries.Keys == {};
    }

    /** Unlinks a finished query from the output queue and frees it. */
    method Collect(q: QueryId)
      requires Valid() && q in net.queries && net.queries[q].state == Finished
      modifies `net
      ensures Valid() && net == Free(Dequeue(old(net), q), q)
    {
      hide Consistent, SendOk, RecvOk, RetriesOk, SocketOk, TcpUntouched;
      ghost var n := net;
      CollectKeepsConsistent(n, cfg, q);
      net := Free(Dequeue(net, q), q);
      UntouchedConnOk(n, net);
    }

    /** adns_cancel as the user may call it. */
    method UserCancel(q: QueryId)
      requires Valid() && q in Roots(net)
      modifies `net
      ensures Valid() && net == Prune(old(net), {q})
      ensures Roots(net) == Roots(old(net)) - {q} && OnlyTouches(old(net), net, {q})
    {
      hide Consistent, SendOk, RecvOk, RetriesOk, SocketOk, Prune;
      ghost var n := net;
      Cancel(q, {});
      CancelledRoot(n, q);
      UntouchedConnOk(n, net);
    }

    lemma CancelledRoot(n: Net, q: QueryId)
      requires Consistent(n, {}, cfg) && q in n.queries && n.queries[q].parent == None
      ensures TcpUntouched(n, Prune(n, {q})) && OnlyTouches(n, Prune(n, {q}), {q})
      ensures Roots(Prune(n, {q})) == Roots(n) - {q}
    {
      PruneLeavesWaiters(n, {}, cfg, {q});
      PruneRoots(n, q);
      PruneTouches(n, q);
    }

    static lemma PruneTouches(n: Net, q: QueryId)
      requires TcpUntouched(n, Prune(n, {q}))
      ensures OnlyTouches(n, Prune(n, {q}), {q})
    {
      var keys := Survivors(n.queries, {q});
      KeptFacts(n.udpw, keys);
      KeptFacts(n.tcpw, keys);
      KeptFacts(n.output, keys);
    }

    /** What one call of the user does to those outstanding: a submission adds one query with a
        new number, a cancellation takes out the one named, a check takes out a finished one.
        An assertion fails only in a read, at a message that is fatal where it is handed over. */
    ghost predicate Step(s: Snapshot, e: Event, o: Outcome, t: Snapshot, now: Timeval)
      requires Normal(now) && cfg.nservers > 0
    {
      && t.nextQuery >= s.nextQuery && Departures(o) <= Roots(s.net)
      && (!e.DoSubmit? && !e.DoReadable? ==> t.nextid == s.nextid && t.nextQuery == s.nextQuery)
      && match o
         case Failed => e.DoReadable? && TcpSearches(s.net) != {} && Fatally(s, t, now)
         case Quiet => !e.DoSubmit? && Passed(s, e, o, t, now)
         case Submitted(q) =>
           e.DoSubmit? && q == s.nextQuery < t.nextQuery && q !in s.net.queries && Passed(s, e, o, t, now) && Started(s, e, q, t, now)
         case Cancelled(q) => e == DoCancel(q) && Passed(s, e, o, t, now)
         case Collected(q) =>
           e.DoCheck? && (e.wanted.Some? ==> e.wanted.value == q) && s.net.queries[q].state == Finished && Passed(s, e, o, t, now)
    }

    /** The sweep of adns_processtimeouts gives every query of the user on udpw its turn, and the
        datagrams of a read are taken one after the other.  Otherwise a search-list query joins
        tcpw only when it is submitted, and the queries of the user that wait over UDP or are
        finished stay as they are, but for the one that leaves. */
    ghost predicate Passed(s: Snapshot, e: Event, o: Outcome, t: Snapshot, now: Timeval)
      requires Normal(now) && cfg.nservers > 0
    {
      && Roots(t.net) == Roots(s.net) + Arrivals(o) - Departures(o)
      && match e
         case DoTimeouts => TimedAll(s.net, t.net, now)
         case DoReadable(fd, _, inbox) =>
           if fd == udpsocket then Arrived(s, t, inbox, now) else OnlyTouches(s.net, t.net, {})
         case DoSubmit(search, _, _, _, _) => OnlyTouches(s.net, t.net, if search then Arrivals(o) else {})
         case _ => OnlyTouches(s.net, t.net, Departures(o))
    }

    /** The datagrams of the inbox lead from s to t. */
    ghost predicate Arrived(s: Snapshot, t: Snapshot, inbox: seq<Datagram>, now: Timeval)
      requires Normal(now) && cfg.nservers > 0
    {
      exists run :: AllReceived(run, inbox, now) && run[0] == s && run[|inbox|] == t
    }

    static function Fresh(e: Event): Query
      requires e.DoSubmit?
    {
      Virgin(External, e.search, e.useVc, if e.search && e.bareFirst then -1 else 0, e.queried)
    }

    /** The new query q has been sent, or has failed, as its names call for. */
    ghost predicate Started(s: Snapshot, e: Event, q: QueryId, t: Snapshot, now: Timeval)
      requires e.DoSubmit? && Normal(now) && cfg.nservers > 0
    {
      StartedAs(WithQuery(s.net, q, Fresh(e)), t.net, q, e.bad, s.nextid, now, s.link, t.link) &&
      t.nextid == s.nextid + FirstIds(Fresh(e), e.bad, s.nextid)
    }

    static function Arrivals(o: Outcome): set<QueryId> {
      if o.Submitted? then {o.query} else {}
    }

    static function Departures(o: Outcome): set<QueryId> {
      if o.Cancelled? || o.Collected? then {o.query} else {}
    }

    static function Came(os: seq<Outcome>): set<QueryId> {
      set o | o in os && o.Submitted? :: o.query
    }

    static function Went(os: seq<Outcome>): set<QueryId> {
      set o | o in os && (o.Cancelled? || o.Collected?) :: o.query
    }

    static function Submissions(events: seq<(Event, Timeval)>): nat {
      if events == [] then 0
      else Submissions(events[..|events| - 1]) + if events[|events| - 1].0.DoSubmit? then 1 else 0
    }

    /** One call of the user.  Cancelling or checking a query that is not outstanding is an
        error of the caller and is left out. */
    method Perform(e: Event, now: Timeval) returns (o: Outcome)
      requires Valid() && Normal(now) && now.sec >= 0 && (e.DoTimeouts? ==> Answering(world))
      modifies this
      ensures Step(old(Now()), e, o, Now(), now)
      ensures !o.Failed? ==> Valid() && WithinRetries()
      ensures e.DoCancel? && e.query in Roots(old(net)) ==> o.Cancelled?
      ensures e.DoCheck? && e.wanted.None? && old(net).output != [] ==> o == Collected(old(net).output[0])
      ensures e.DoCheck? && e.wanted.Some? && e.wanted.value in Roots(old(net)) ==>
        (o.Collected? <==> old(net).queries[e.wanted.value].state == Finished)
    {
      hide Consistent, SendOk, RecvOk, RetriesOk, SocketOk, StartedAs, StartJoins, OnlyTouches, Handled, Fell,
        WithinRetries, Drained, HeadCharged, OnlyRetries, Charged, Step, Roots, TimedAll, FirstIds;
      ghost var s := Now();
      o := Quiet;
      match e {
        case DoSubmit(search, useVc, bareFirst, bad, queried) =>
          var q := Submit(search, useVc, bareFirst, bad, queried, now);
          o := Submitted(q);
          SubmitStep(s, e, q, Now(), now);
        case DoCancel(q) =>
          o := PerformCancel(q, now);
        case DoTimeouts =>
          ProcessTimeouts(now);
          QuietStep(s, e, Now(), now);
        case DoFirstTimeout =>
          var w := FirstTimeout(Unbounded, now);
          OnlyTouchesSelf(net);
          QuietStep(s, e, Now(), now);
        case DoReadable(fd, input, inbox) =>
          o := PerformRead(fd, input, inbox, now);
        case DoWriteable(fd, probe, output) =>
          ProcessWriteable(fd, probe, output, now);
          RootsHandled(s.net, net, now);
          QuietStep(s, e, Now(), now);
        case DoExceptional(fd) =>
          ProcessExceptional(fd, now);
          RootsHandled(s.net, net, now);
          QuietStep(s, e, Now(), now);
        case DoCheck(wanted) =>
          o := PerformCheck(wanted, now);
      }
      if !o.Failed? {
        RetryBound();
      }
    }

    static lemma RootsHandled(n: Net, m: Net, now: Timeval)
      requires Handled(n, m, now)
      ensures Roots(m) == Roots(n)
    {
    }

    lemma QuietStep(s: Snapshot, e: Event, t: Snapshot, now: Timeval)
      requires Normal(now) && cfg.nservers > 0 && !e.DoSubmit? && t.nextQuery >= s.nextQuery
      requires !e.DoReadable? ==> t.nextid == s.nextid && t.nextQuery == s.nextQuery
      requires Roots(t.net) == Roots(s.net)
      requires match e
        case DoTimeouts => TimedAll(s.net, t.net, now)
        case DoReadable(fd, _, inbox) =>
          if fd == udpsocket then Arrived(s, t, inbox, now) else OnlyTouches(s.net, t.net, {})
        case _ => OnlyTouches(s.net, t.net, {})
      ensures Step(s, e, Quiet, t, now)
    {
      hide Roots, OnlyTouches, Fatally, TimedAll, Arrived;
    }

    lemma SubmitStep(s: Snapshot, e: Event, q: QueryId, t: Snapshot, now: Timeval)
      requires Normal(now) && cfg.nservers > 0 && e.DoSubmit? && q == s.nextQuery < t.nextQuery && q !in s.net.queries
      requires Roots(t.net) == Roots(s.net) + {q} && OnlyTouches(s.net, t.net, if e.search then {q} else {})
      requires Started(s, e, q, t, now)
      ensures Step(s, e, Submitted(q), t, now)
    {
      hide Roots, OnlyTouches, Fatally, Started;
    }

    method PerformCancel(q: QueryId, now: Timeval) returns (o: Outcome)
      requires Valid() && Normal(now)
      modifies `net
      ensures Valid() && Step(old(Now()), DoCancel(q), o, Now(), now)
      ensures o == if q in Roots(old(net)) then Cancelled(q) else Quiet
    {
      hide Consistent, SendOk, RecvOk, RetriesOk, SocketOk, OnlyTouches, Fatally;
      o := Quiet;
      OnlyTouchesSelf(net);
      if q in net.queries && net.queries[q].parent.None? {
        UserCancel(q);
        o := Cancelled(q);
      }
    }

    method PerformRead(fd: int, input: seq<Read>, inbox: seq<Datagram>, now: Timeval) returns (o: Outcome)
      requires Valid() && Normal(now) && now.sec >= 0
      modifies `net, `nextid, `nextQuery, `tcpsocket, `tcprecv, `tcprecvSkip, `tcpsend, `hist, `tcpstate, `tcpserver, `tcptimeout, `calls
      ensures Step(old(Now()), DoReadable(fd, input, inbox), o, Now(), now)
      ensures (o.Failed? && old(Streaming(fd))) || (o.Quiet? && Valid())
    {
      hide Consistent, SendOk, RecvOk, RetriesOk, SocketOk, OnlyTouches, Handled, HandedOver, AllReceived, StreamRead,
        Step, Roots;
      var aborted, broke;
      ghost var got, msgs, run;
      ghost var s, e := Now(), DoReadable(fd, input, inbox);
      aborted, broke, got, msgs, run := ProcessReadable(fd, input, inbox, now);
      if aborted {
        FailedStep(s, e, Now(), msgs, run, now);
        return Failed;
      }
      RootsHandled(s.net, net, now);
      ReadStep(s, e, Now(), run, now);
      o := Quiet;
    }

    lemma ReadStep(s: Snapshot, e: Event, t: Snapshot, run: seq<Snapshot>, now: Timeval)
      requires Normal(now) && cfg.nservers > 0 && e.DoReadable? && t.nextQuery >= s.nextQuery && Roots(t.net) == Roots(s.net)
      requires e.fd == udpsocket ==> AllReceived(run, e.inbox, now) && run[0] == s && run[|e.inbox|] == t
      requires e.fd != udpsocket ==> OnlyTouches(s.net, t.net, {})
      ensures Step(s, e, Quiet, t, now)
    {
      hide Roots, OnlyTouches, Step;
      QuietStep(s, e, t, now);
    }

    lemma FailedStep(s: Snapshot, e: Event, t: Snapshot, msgs: seq<seq<Byte>>, run: seq<Snapshot>, now: Timeval)
      requires Normal(now) && cfg.nservers > 0 && e.DoReadable? && TcpSearches(s.net) != {} && t.nextQuery >= s.nextQuery
      requires HandedOver(run, msgs, true, now) && run[0] == s && run[|msgs|] == t
      ensures Step(s, e, Failed, t, now)
    {
      hide Processed, Roots, Passed, Started;
      assert |run| == |msgs| + 1;
    }

    /** Some messages handed over from s led to t, where the last of them made an assertion fail. */
    ghost predicate Fatally(s: Snapshot, t: Snapshot, now: Timeval)
      requires Normal(now) && cfg.nservers > 0
    {
      exists msgs, run ::
        |run| == |msgs| + 1 && HandedOver(run, msgs, true, now) && run[0] == s && run[|msgs|] == t
    }

    /** check.c: how often a query on tcpw has been retried, and how many connections it has
        outlived: never more than nservers plus one, but for those that broke before its turn. */
    ghost predicate WithinRetries()
      reads this
    {
      NoRefusals(world) ==>
        forall q | q in net.tcpw :: q in net.queries && q in hist.past &&
          net.queries[q].retries <= cfg.nservers + (if tcpstate == Connected || tcpstate == Broken then 1 else 0) &&
          hist.past[q].cycles <= cfg.nservers + (if tcpstate == Broken then 1 else 0) + hist.past[q].skipped &&
          (NoHardErrors(world) ==> hist.past[q].skipped == 0)
    }

    lemma RetryBound()
      requires Valid()
      ensures WithinRetries()
    {
    }

    method PerformCheck(wanted: Option<QueryId>, now: Timeval) returns (o: Outcome)
      requires Valid() && Normal(now)
      modifies `net
      ensures Valid() && Step(old(Now()), DoCheck(wanted), o, Now(), now) && !o.Failed?
      ensures wanted.None? && old(net).output != [] ==> o == Collected(old(net).output[0])
      ensures wanted.Some? && wanted.value in Roots(old(net)) ==>
        (o.Collected? <==> old(net).queries[wanted.value].state == Finished)
    {
      hide Consistent, SendOk, RecvOk, RetriesOk, SocketOk, OnlyTouches, Fatally;
      o := Quiet;
      ghost var n := net;
      OnlyTouchesSelf(n);
      if wanted.None? || (wanted.value in net.queries && net.queries[wanted.value].parent.None?) {
        var r := Check(wanted);
        if r.Answered? {
          o := Collected(r.query);
          CollectedRoot(n, r.query);
        }
      }
    }

    lemma CollectedRoot(n: Net, q: QueryId)
      requires Consistent(n, {}, cfg) && q in n.queries && n.queries[q].state == Finished
      ensures q in Roots(n) && OnlyTouches(n, Free(Dequeue(n, q), q), {q}) && Roots(Free(Dequeue(n, q), q)) == Roots(n) - {q}
    {
      assert RowOk(n.queries[q]);
      CollectKeepsConsistent(n, cfg, q);
      CollectIsPrune(n, cfg, q);
      PruneTouches(n, q);
    }

    /** Any run.  It stops early only where an assertion of the library fails: at a message over
        TCP that is fatal where it is handed over, while a search-list query waits for an answer
        over TCP.  Otherwise every state between two calls is consistent and within the bounds
        of check.c, and the queries outstanding at the end are those submitted, one for each
        call of adns_submit, but for those cancelled or collected. */
    method Run(events: seq<(Event, Timeval)>) returns (outcomes: seq<Outcome>, ghost states: seq<Snapshot>)
      requires Valid() && forall i | 0 <= i < |events| :: Normal(events[i].1) && events[i].1.sec >= 0
      requires forall i | 0 <= i < |events| && events[i].0.DoTimeouts? :: Answering(world)
      modifies this
      ensures |outcomes| <= |events| && |states| == |outcomes| + 1
      ensures states[0] == old(Now()) && states[|outcomes|] == Now()
      ensures Steps(states, events, outcomes)
      ensures forall i | 0 <= i < |outcomes| && outcomes[i].Failed? :: i == |outcomes| - 1
      ensures Failed !in outcomes ==> |outcomes| == |events| && Valid() && WithinRetries()
      ensures Failed !in outcomes ==> Roots(net) == Roots(old(net)) + Came(outcomes) - Went(outcomes)
      ensures Went(outcomes) <= Roots(old(net)) + Came(outcomes) && Came(outcomes) !! Roots(old(net))
      ensures |Came(outcomes)| == Submissions(events[..|outcomes|])
    {
      hide Consistent, SendOk, RecvOk, RetriesOk, SocketOk, Step, Steps, WithinRetries, Accounted, Came, Went,
        Submissions, Roots, RunSo;
      ghost var s := Now();
      outcomes, states := [], [s];
      Beginning(events);
      RetryBound();
      for i := 0 to |events|
        invariant |outcomes| == i && Valid() && WithinRetries() && Failed !in outcomes
        invariant RunSo(s, Now(), states, events, outcomes)
      {
        ghost var t := Now();
        var o := Perform(events[i].0, events[i].1);
        RunGoesOn(s, t, Now(), states, events, outcomes, o);
        outcomes, states := outcomes + [o], states + [Now()];
        if o.Failed? {
          break;
        }
      }
      RunConcludes(s, Now(), states, events, outcomes);
    }

    ghost predicate Steps(states: seq<Snapshot>, events: seq<(Event, Timeval)>, outcomes: seq<Outcome>)
      requires cfg.nservers > 0 && forall i | 0 <= i < |events| :: Normal(events[i].1)
    {
      && |outcomes| <= |events| && |states| == |outcomes| + 1
      && forall i | 0 <= i < |outcomes| :: Step(states[i], events[i].0, outcomes[i], states[i + 1], events[i].1)
    }

    lemma OneMoreStep(states: seq<Snapshot>, events: seq<(Event, Timeval)>, outcomes: seq<Outcome>, o: Outcome, t: Snapshot)
      requires cfg.nservers > 0 && (forall i | 0 <= i < |events| :: Normal(events[i].1)) && |outcomes| < |events|
      requires Steps(states, events, outcomes) && Step(states[|outcomes|], events[|outcomes|].0, o, t, events[|outcomes|].1)
      ensures Steps(states + [t], events, outcomes + [o])
    {
      hide Step;
      var more, os := states + [t], outcomes + [o];
      forall i | 0 <= i < |os| ensures Step(more[i], events[i].0, os[i], more[i + 1], events[i].1) {
        if i < |outcomes| {
          assert Step(states[i], events[i].0, outcomes[i], states[i + 1], events[i].1);
        }
      }
    }

    /** The account of a run that began with the queries of n, and has come to t. */
    ghost predicate Accounted(n: Net, first: QueryId, events: seq<(Event, Timeval)>, outcomes: seq<Outcome>, t: Snapshot)
      requires |outcomes| <= |events|
    {
      && (Failed !in outcomes ==> Roots(t.net) == Roots(n) + Came(outcomes) - Went(outcomes))
      && |Came(outcomes)| == Submissions(events[..|outcomes|])
      && Ledger(Roots(n), Came(outcomes), Went(outcomes), first, t.nextQuery)
    }

    /** The numbers from first up to next have been given to those who came. */
    static ghost predicate Ledger(roots: set<QueryId>, came: set<QueryId>, went: set<QueryId>, first: QueryId, next: QueryId) {
      && went <= roots + came && first <= next
      && (forall q | q in came :: first <= q < next) && (forall q | q in roots :: q < first)
    }

    lemma Accounts(n: Net, first: QueryId, events: seq<(Event, Timeval)>, outcomes: seq<Outcome>, t: Snapshot)
      requires |outcomes| <= |events| && Accounted(n, first, events, outcomes, t)
      ensures Failed !in outcomes ==> Roots(t.net) == Roots(n) + Came(outcomes) - Went(outcomes)
      ensures Went(outcomes) <= Roots(n) + Came(outcomes) && Came(outcomes) !! Roots(n)
      ensures |Came(outcomes)| == Submissions(events[..|outcomes|])
    {
    }

    /** A run from s to t, as far as it has come. */
    ghost predicate RunSo(s: Snapshot, t: Snapshot, states: seq<Snapshot>, events: seq<(Event, Timeval)>, outcomes: seq<Outcome>)
      requires cfg.nservers > 0 && forall i | 0 <= i < |events| :: Normal(events[i].1)
    {
      && Steps(states, events, outcomes) && |outcomes| <= |events| && |states| == |outcomes| + 1
      && states[0] == s && states[|outcomes|] == t && OnlyLastFails(outcomes)
      && Accounted(s.net, s.nextQuery, events, outcomes, t)
    }

    static predicate OnlyLastFails(outcomes: seq<Outcome>) {
      forall i | 0 <= i < |outcomes| && outcomes[i].Failed? :: i == |outcomes| - 1
    }

    lemma Beginning(events: seq<(Event, Timeval)>)
      requires Valid() && forall i | 0 <= i < |events| :: Normal(events[i].1)
      ensures RunSo(Now(), Now(), [Now()], events, [])
    {
      assert Came([]) == {} && Went([]) == {};
    }

    lemma RunGoesOn(s: Snapshot, t: Snapshot, t': Snapshot, states: seq<Snapshot>, events: seq<(Event, Timeval)>,
                    outcomes: seq<Outcome>, o: Outcome)
      requires cfg.nservers > 0 && (forall i | 0 <= i < |events| :: Normal(events[i].1)) && |outcomes| < |events|
      requires RunSo(s, t, states, events, outcomes) && Failed !in outcomes
      requires Step(t, events[|outcomes|].0, o, t', events[|outcomes|].1)
      ensures RunSo(s, t', states + [t'], events, outcomes + [o])
    {
      hide Step, Steps, Accounted;
      OneMoreStep(states, events, outcomes, o, t');
      OneMoreOutcome(s.net, s.nextQuery, events, outcomes, o, t, t');
    }

    lemma RunConcludes(s: Snapshot, t: Snapshot, states: seq<Snapshot>, events: seq<(Event, Timeval)>, outcomes: seq<Outcome>)
      requires cfg.nservers > 0 && (forall i | 0 <= i < |events| :: Normal(events[i].1)) && RunSo(s, t, states, events, outcomes)
      ensures |outcomes| <= |events| && |states| == |outcomes| + 1 && states[0] == s && states[|outcomes|] == t
      ensures Steps(states, events, outcomes) && forall i | 0 <= i < |outcomes| && outcomes[i].Failed? :: i == |outcomes| - 1
      ensures Failed !in outcomes ==> Roots(t.net) == Roots(s.net) + Came(outcomes) - Went(outcomes)
      ensures Went(outcomes) <= Roots(s.net) + Came(outcomes) && Came(outcomes) !! Roots(s.net)
      ensures |Came(outcomes)| == Submissions(events[..|outcomes|])
    {
      hide Steps, Accounted, Roots, Came, Went, Submissions;
      Accounts(s.net, s.nextQuery, events, outcomes, t);
    }

    lemma OneMoreOutcome(n: Net, first: QueryId, events: seq<(Event, Timeval)>, outcomes: seq<Outcome>, o: Outcome,
                         s: Snapshot, t: Snapshot)
      requires |outcomes| < |events| && Failed !in outcomes && Accounted(n, first, events, outcomes, s)
      requires var e := events[|outcomes|]; Normal(e.1) && cfg.nservers > 0 && Step(s, e.0, o, t, e.1)
      ensures Accounted(n, first, events, outcomes + [o], t)
    {
      hide Came, Went, Submissions, Step, Roots, Arrivals, Departures, Ledger;
      var i := |outcomes|;
      StepOnRoots(s, events[i].0, o, t, events[i].1);
      OneMoreEvent(events, i);
      MoreCame(outcomes, o);
      LedgerGoesOn(Roots(n), Came(outcomes), Went(outcomes), first, s.nextQuery, Arrivals(o), Departures(o), t.nextQuery);
    }

    static lemma LedgerGoesOn(roots: set<QueryId>, came: set<QueryId>, went: set<QueryId>, first: QueryId, next: QueryId,
                              a: set<QueryId>, d: set<QueryId>, next': QueryId)
      requires Ledger(roots, came, went, first, next) && next <= next'
      requires d <= roots + came - went && (a == {} || (a == {next} && d == {} && next < next'))
      ensures Ledger(roots, came + a, went + d, first, next')
      ensures roots + came - went + a - d == roots + (came + a) - (went + d) && |came + a| == |came| + |a|
    {
      NewNumber(roots, came, a, first, next, next');
      SetsGoOn(roots, came, went, a, d);
    }

    static lemma NewNumber(roots: set<QueryId>, came: set<QueryId>, a: set<QueryId>, first: QueryId, next: QueryId, next': QueryId)
      requires first <= next <= next' && (forall q | q in roots :: q < first) && (forall q | q in came :: first <= q < next)
      requires a == {} || (a == {next} && next < next')
      ensures a !! roots + came && forall q | q in came + a :: first <= q < next'
    {
    }

    static lemma SetsGoOn(roots: set<QueryId>, came: set<QueryId>, went: set<QueryId>, a: set<QueryId>, d: set<QueryId>)
      requires went <= roots + came && d <= roots + came - went && a !! roots + came && (a == {} || d == {})
      ensures went + d <= roots + (came + a) && roots + came - went + a - d == roots + (came + a) - (went + d)
      ensures |came + a| == |came| + |a|
    {
      assert roots + came - went + a - d == roots + (came + a) - (went + d);
    }

    lemma StepOnRoots(s: Snapshot, e: Event, o: Outcome, t: Snapshot, now: Timeval)
      requires Normal(now) && cfg.nservers > 0 && Step(s, e, o, t, now)
      ensures t.nextQuery >= s.nextQuery && Departures(o) <= Roots(s.net) && (e.DoSubmit? <==> o.Submitted?)
      ensures !o.Failed? ==> Roots(t.net) == Roots(s.net) + Arrivals(o) - Departures(o)
      ensures o.Submitted? ==> Arrivals(o) == {s.nextQuery} && t.nextQuery > s.nextQuery
      ensures !o.Submitted? ==> Arrivals(o) == {}
      ensures o.Submitted? ==> Departures(o) == {}
    {
      hide Roots, OnlyTouches, Fatally, TimedAll, Arrived, Started;
    }

    static lemma OneMoreEvent(events: seq<(Event, Timeval)>, i: nat)
      requires i < |events|
      ensures Submissions(events[..i + 1]) == Submissions(events[..i]) + if events[i].0.DoSubmit? then 1 else 0
    {
      assert events[..i + 1][..i] == events[..i] && events[..i + 1][i] == events[i];
    }

    static lemma MoreCame(outcomes: seq<Outcome>, o: Outcome)
      ensures Came(outcomes + [o]) == Came(outcomes) + Arrivals(o) && Went(outcomes + [o]) == Went(outcomes) + Departures(o)
    {
      assert forall x :: x in outcomes + [o] <==> x in outcomes || x == o;
    }

    // ---------- a whole search ----------

    /** One move of a search over total names, whose packets have the numbers from id on.  A
        resend repeats the last packet; the reply that there is no such name moves on to the next
        name that yields one.  No datagram is sent after UDP_MAX_RETRIES. */
    ghost function Follow(s: Search, move: Move, id: nat, total: nat): (r: Search)
      requires s.Asking? ==> s.passed <= total
      ensures r.Asking? ==> s.Asking? && s.passed <= r.passed <= total && r.sends == s.sends + 1 <= UDP_MAX_RETRIES
    {
      if s.Over? then s
      else if move == Again then
        if s.sends >= UDP_MAX_RETRIES then Over(StTimeout) else Asking(s.passed, s.sends + 1)
      else
        var w := WalkNext(id + s.passed, total - s.passed);
        match w.end
        case NoneLeft => Over(StNxDomain)
        case Barred(st) => Over(st)
        case Packed(_, _) =>
          if s.sends >= UDP_MAX_RETRIES then Over(StTimeout) else Asking(s.passed + w.names, s.sends + 1)
    }

    ghost function Followed(s: Search, moves: seq<Move>, id: nat, total: nat): (r: Search)
      requires s.Asking? ==> s.passed <= total
      ensures r.Asking? ==> s.Asking? && r.passed <= total && r.sends == s.sends + |moves|
    {
      if moves == [] then s
      else Follow(Followed(s, moves[..|moves| - 1], id, total), moves[|moves| - 1], id, total)
    }

    /** A search begins by moving on to its first name. */
    ghost function Begun(id: nat, total: nat): (r: Search)
      ensures r.Asking? ==> r.passed <= total && r.sends == 1
    {
      Follow(Asking(0, 0), NoSuch, id, total)
    }

    /** How many names yield packets, up to the first that is refused, and what the search comes
        to when there is no such name for any of them. */
    ghost function Asked(id: nat, left: nat): nat
      decreases left
    {
      var w := WalkNext(id, left);
      if w.end.Packed? then 1 + Asked(id + w.names, left - w.names) else 0
    }

    ghost function Verdict(id: nat, left: nat): Status
      decreases left
    {
      var w := WalkNext(id, left);
      match w.end
      case NoneLeft => StNxDomain
      case Barred(st) => st
      case Packed(_, _) => Verdict(id + w.names, left - w.names)
    }

    static function Said(moves: seq<Move>): nat {
      if moves == [] then 0 else (if moves[0] == NoSuch then 1 else 0) + Said(moves[1..])
    }

    static function Upto(moves: seq<Move>, k: nat): seq<Move> {
      if |moves| <= k then moves else moves[..k]
    }

    lemma {:induction false} FollowedFirst(s: Search, moves: seq<Move>, id: nat, total: nat)
      requires moves != [] && (s.Asking? ==> s.passed <= total)
      ensures Followed(s, moves, id, total) == Followed(Follow(s, moves[0], id, total), moves[1..], id, total)
      decreases |moves|
    {
      hide Follow;
      var most := moves[..|moves| - 1];
      if most != [] {
        FollowedFirst(s, most, id, total);
        assert most[1..] == moves[1..][..|moves[1..]| - 1];
      }
    }

    lemma {:induction false} FollowedOver(s: Search, moves: seq<Move>, id: nat, total: nat)
      requires s.Over?
      ensures Followed(s, moves, id, total) == s
    {
      if moves != [] {
        FollowedOver(s, moves[..|moves| - 1], id, total);
      }
    }

    static lemma UptoFirst(moves: seq<Move>, k: nat)
      requires moves != []
      ensures Upto(moves, k + 1)[0] == moves[0] && Upto(moves, k + 1)[1..] == Upto(moves[1..], k)
      ensures Said(Upto(moves, k + 1)) == (if moves[0] == NoSuch then 1 else 0) + Said(Upto(moves[1..], k))
    {
    }

    /** Where any number of moves leads from any point of a search. */
    lemma {:induction false} Outcomes(passed: nat, sends: nat, moves: seq<Move>, id: nat, total: nat)
      requires passed <= total && sends <= UDP_MAX_RETRIES
      ensures var r := Followed(Asking(passed, sends), moves, id, total);
        var turns := UDP_MAX_RETRIES + 1 - sends;
        if Said(Upto(moves, turns)) > Asked(id + passed, total - passed) then r == Over(Verdict(id + passed, total - passed))
        else if |moves| >= turns then r == Over(StTimeout)
        else r.Asking?
      decreases |moves|
    {
      hide WalkNext, Followed;
      var s := Asking(passed, sends);
      if moves == [] {
        assert Followed(s, [], id, total) == s by {
          NothingFollowed(s, id, total);
        }
      } else {
        FollowedFirst(s, moves, id, total);
        UptoFirst(moves, UDP_MAX_RETRIES - sends);
        var next := Follow(s, moves[0], id, total);
        if next.Asking? {
          Outcomes(next.passed, next.sends, moves[1..], id, total);
        } else {
          FollowedOver(next, moves[1..], id, total);
        }
      }
    }

    lemma NothingFollowed(s: Search, id: nat, total: nat)
      requires s.Asking? ==> s.passed <= total
      ensures Followed(s, [], id, total) == s
    {
    }

    /** A search comes to its verdict if and only if among its first fifteen moves there is a
        reply for every name that yields a packet; else the fifteenth move ends it with a timeout. */
    lemma SearchVerdict(moves: seq<Move>, id: nat)
      ensures var r := Searched(moves, id);
        if Said(Upto(moves, UDP_MAX_RETRIES)) >= Asked(id, cfg.nsearchlist + 1) then r == Over(Verdict(id, cfg.nsearchlist + 1))
        else if |moves| >= UDP_MAX_RETRIES then r == Over(StTimeout)
        else r.Asking?
    {
      hide Follow, Followed, Asked, Verdict;
      var total := cfg.nsearchlist + 1;
      var all := [NoSuch] + moves;
      assert all[1..] == moves;
      FollowedFirst(Asking(0, 0), all, id, total);
      Outcomes(0, 0, all, id, total);
      UptoFirst(all, UDP_MAX_RETRIES);
    }

    /** If all names yield packets, all are asked for. */
    lemma {:induction false} AllAsked(id: nat, left: nat)
      requires forall k: nat :: Packet(k).Made?
      ensures Asked(id, left) == left && Verdict(id, left) == StNxDomain
      decreases left
    {
      if left > 0 {
        assert WalkName(id, true, left - 1) == Walk(0, Packed(Packet(id).dgram, id % 65536));
        AllAsked(id + 1, left - 1);
      }
    }

    /** A walk passes over names that are too long, up to the packet, the refusal or the end. */
    lemma {:induction false} WalkShape(id: nat, left: nat)
      ensures var w := WalkNext(id, left);
        (w.end.Packed? ==> w.names > 0 && Packet(id + w.names - 1) == Made(w.end.dgram) && w.end.id == (id + w.names - 1) % 65536) &&
        (w.end.Barred? ==> w.names > 0 && Packet(id + w.names - 1) == Invalid(w.end.status)) &&
        forall k | id <= k < id + w.names - (if w.end.NoneLeft? then 0 else 1) :: Packet(k) == TooLong
      decreases left
    {
      if left > 0 && Packet(id) == TooLong {
        WalkShape(id + 1, left - 1);
      }
    }

    /** The reply to the query u that there is no such name. */
    static function NoNameFor(u: Query): (r: seq<Byte>)
      ensures |r| >= DNS_HDRSIZE
    {
      [(u.id / 256) % 256, u.id % 256, 128, 3, 0, 1, 0, 0, 0, 0, 0, 0] +
      if |u.dgram| >= DNS_HDRSIZE then u.dgram[DNS_HDRSIZE..] else []
    }

    /** These replies hold no records. */
    ghost predicate NoNames() {
      forall u: Query :: world.parse(u, NoNameFor(u)) == Absent
    }

    /** In the state s the query q of the user has come this far with its search: its position is
        that of the names passed, and the datagram it waits for an answer to is the packet for the
        last of them. */
    ghost predicate Shows(s: Snapshot, q: QueryId, search: Search, id: nat, doneAbs: int) {
      q in s.net.queries &&
      var u := s.net.queries[q];
      match search
      case Asking(passed, sends) =>
        && Aside(s.net, q) && q in s.net.udpw && u.state == ToSend && u.search && !u.useVc
        && u.retries == sends && u.timeout.sec >= 0
        && 0 < passed <= cfg.nsearchlist + 1 && s.nextid == id + passed
        && (u.searchPos, u.searchDoneAbs) == SearchList.After(0, doneAbs, cfg.nsearchlist, passed)
        && Packet(id + passed - 1) == Made(u.dgram) && u.id == (id + passed - 1) % 65536
      case Over(st) =>
        u.state == Finished && u.status == st && q in s.net.output
    }

    /** The call that makes a move: the sweep after the deadline, or a reply to the datagram from
        a server that it was sent to. */
    ghost predicate Makes(s: Snapshot, q: QueryId, move: Move, e: Event, now: Timeval) {
      q in s.net.queries &&
      var u := s.net.queries[q];
      match move
      case Again => e == DoTimeouts && Late(s.net, q, now)
      case NoSuch =>
        e.DoReadable? && e.fd == udpsocket && |e.inbox| == 1 &&
        e.inbox[0].server.Some? && e.inbox[0].server.value in u.udpSent && e.inbox[0].bytes == NoNameFor(u)
    }

    /** What a walk of names makes of a search. */
    lemma WalkShows(d: Net, t: Snapshot, q: QueryId, passed: nat, sends: nat, id: nat, doneAbs: int, now: Timeval, a: Link, b: Link)
      requires q in d.queries && Consistent(d, {q}, cfg) && Searcher(d.queries[q], passed, sends, doneAbs)
      requires Normal(now) && now.sec >= 0 && cfg.nservers > 0 && SendsFit()
      requires var w := WalkNext(id + passed, cfg.nsearchlist + 1 - passed);
        WalkedTo(d, t.net, q, w, false, now, a, b) && t.nextid == id + passed + w.names
      ensures Shows(t, q, Follow(Asking(passed, sends), NoSuch, id, cfg.nsearchlist + 1), id, doneAbs)
    {
      hide Consistent, SentAs, Fail, WalkNext, Moved, Shows, SendsFit;
      var w := WalkNext(id + passed, cfg.nsearchlist + 1 - passed);
      var v := Moved(d.queries[q], w.names);
      WalkShape(id + passed, cfg.nsearchlist + 1 - passed);
      MovedSearcher(d.queries[q], passed, sends, w.names, doneAbs);
      match w.end {
        case NoneLeft => OverShows(d, t, q, v, StNxDomain, id, doneAbs);
        case Barred(st) => OverShows(d, t, q, v, st, id, doneAbs);
        case Packed(dgram, k) =>
          SentShows(d, t, q, v.(dgram := dgram, id := k), passed + w.names, sends, id, doneAbs, now, a, b);
      }
    }

    /** The record of a search that is being processed. */
    ghost predicate Searcher(u: Query, passed: nat, sends: nat, doneAbs: int) {
      && u.state == ToSend && u.parent.None? && u.children == [] && u.search && !u.useVc && u.retries == sends
      && FieldsOk(u, cfg) && passed <= cfg.nsearchlist + 1
      && (u.searchPos, u.searchDoneAbs) == SearchList.After(0, doneAbs, cfg.nsearchlist, passed)
    }

    lemma MovedSearcher(u: Query, passed: nat, sends: nat, k: nat, doneAbs: int)
      requires Searcher(u, passed, sends, doneAbs) && passed + k <= cfg.nsearchlist + 1
      ensures Searcher(Moved(u, k), passed + k, sends, doneAbs) && SameKin(u, Moved(u, k))
    {
      SearchList.AfterTwice(0, doneAbs, cfg.nsearchlist, passed, k);
    }

    lemma OverShows(d: Net, t: Snapshot, q: QueryId, v: Query, st: Status, id: nat, doneAbs: int)
      requires Consistent(d, {q}, cfg) && v.state == ToSend && v.parent.None? && SameKin(d.queries[q], v) && FieldsOk(v, cfg)
      requires t.net == Fail(WithQuery(d, q, v), q, st)
      ensures Shows(t, q, Over(st), id, doneAbs)
    {
      hide Consistent, Fail;
      FailedOff(d, q, v, st);
    }

    lemma SentShows(d: Net, t: Snapshot, q: QueryId, v: Query, passed: nat, sends: nat, id: nat, doneAbs: int,
                    now: Timeval, a: Link, b: Link)
      requires Consistent(d, {q}, cfg) && Searcher(v, passed, sends, doneAbs) && SameKin(d.queries[q], v)
      requires Normal(now) && now.sec >= 0 && cfg.nservers > 0 && SendsFit() && passed > 0
      requires Packet(id + passed - 1) == Made(v.dgram) && v.id == (id + passed - 1) % 65536
      requires SentAs(d, t.net, q, v, now, a, b) && t.nextid == id + passed
      ensures Shows(t, q, if sends >= UDP_MAX_RETRIES then Over(StTimeout) else Asking(passed, sends + 1), id, doneAbs)
    {
      hide Consistent, Fail, Shows;
      if sends >= UDP_MAX_RETRIES {
        OverShows(d, t, q, v, StTimeout, id, doneAbs);
      } else {
        AskingShows(d, t, q, v, passed, sends, id, doneAbs, now);
      }
    }

    lemma AskingShows(d: Net, t: Snapshot, q: QueryId, v: Query, passed: nat, sends: nat, id: nat, doneAbs: int, now: Timeval)
      requires Consistent(d, {q}, cfg) && Searcher(v, passed, sends, doneAbs)
      requires Normal(now) && now.sec >= 0 && cfg.nservers > 0 && passed > 0
      requires Packet(id + passed - 1) == Made(v.dgram) && v.id == (id + passed - 1) % 65536
      requires t.net == Enqueue(d, q, UdpSent(v, now)) && t.nextid == id + passed
      ensures Shows(t, q, Asking(passed, sends + 1), id, doneAbs)
    {
      hide Consistent, Enqueue, Packet;
      SentOff(d, q, UdpSent(v, now));
    }

    /** The submission of a search. */
    lemma StartShows(s: Snapshot, t: Snapshot, q: QueryId, bareFirst: bool, now: Timeval)
      requires Consistent(s.net, {}, cfg) && q !in s.net.queries
      requires Normal(now) && now.sec >= 0 && cfg.nservers > 0 && SendsFit()
      requires Started(s, DoSubmit(true, false, bareFirst, None, 0), q, t, now)
      ensures Shows(t, q, Begun(s.nextid, cfg.nsearchlist + 1), s.nextid, if bareFirst then -1 else 0)
    {
      hide Consistent, WalkedTo, WalkNext, Shows, SendsFit, SearchList.Remaining, Follow;
      var u := Virgin(External, true, false, if bareFirst then -1 else 0, 0);
      var d := WithQuery(s.net, q, u);
      SearchList.Plan(cfg.nsearchlist, bareFirst);
      AllocKeepsConsistent(s.net, {}, cfg, q, u);
      assert {} + {q} == {q};
      WalkShows(d, t, q, 0, 0, s.nextid, if bareFirst then -1 else 0, now, s.link, t.link);
    }

    /** The reply that there is no such name. */
    lemma ReplyShows(s: Snapshot, t: Snapshot, q: QueryId, search: Search, id: nat, doneAbs: int, now: Timeval)
      requires search.Asking? && Shows(s, q, search, id, doneAbs) && Consistent(s.net, {}, cfg)
      requires Normal(now) && now.sec >= 0 && cfg.nservers > 0 && SendsFit() && NoNames()
      requires search.passed <= cfg.nsearchlist + 1 && (doneAbs == 0 || doneAbs == -1)
      requires q in s.net.queries && TakenBy(s, t, q, NoNameFor(s.net.queries[q]), false, now)
      ensures Shows(t, q, Follow(search, NoSuch, id, cfg.nsearchlist + 1), id, doneAbs)
    {
      hide Consistent, WalkedTo, WalkNext, SendsFit, NoNames, SearchList.Remaining, Follow, NoNameFor, Dequeue, OnlyTouches;
      var u := s.net.queries[q];
      NoNameSays(u);
      NamesToGo(u, search.passed, doneAbs);
      OffUdpw(s.net, q);
      WalkTaken(s, t, q, now);
      WalkShows(Dequeue(s.net, q), t, q, search.passed, search.sends, id, doneAbs, now, s.link, t.link);
    }

    lemma NoNameSays(u: Query)
      requires NoNames()
      ensures var nx := NoNameFor(u);
        nx[3] % 16 == 3 && !Truncates(nx) && Proper(nx) && world.parse(u, nx) == Absent && IdOf(nx) == u.id % 65536
    {
      var nx := NoNameFor(u);
      NoNameHead(u);
      hide NoNameFor;
      TwoBytes(u.id);
    }

    static lemma NoNameHead(u: Query)
      ensures var nx := NoNameFor(u);
        nx[0] == (u.id / 256) % 256 && nx[1] == u.id % 256 && nx[2] == 128 && nx[3] == 3 && nx[4] == 0 && nx[5] == 1
    {
    }

    static lemma TwoBytes(x: int)
      ensures ((x / 256) % 256) * 256 + x % 256 == x % 65536
    {
    }

    lemma NamesToGo(u: Query, passed: nat, doneAbs: int)
      requires (u.searchPos, u.searchDoneAbs) == SearchList.After(0, doneAbs, cfg.nsearchlist, passed)
      requires passed <= cfg.nsearchlist + 1 && (doneAbs == 0 || doneAbs == -1)
      ensures |SearchList.Remaining(u.searchPos, u.searchDoneAbs, cfg.nsearchlist)| == cfg.nsearchlist + 1 - passed
    {
      SearchList.RemainingAfter(0, doneAbs, cfg.nsearchlist, passed);
    }

    lemma OffUdpw(n: Net, q: QueryId)
      requires Consistent(n, {}, cfg) && q in n.udpw && q in n.queries
      ensures Consistent(Dequeue(n, q), {q}, cfg) && Dequeue(n, q).queries == n.queries
      ensures FieldsOk(n.queries[q], cfg) && n.queries[q].children == []
    {
      assert RowOk(n.queries[q]);
      DequeueKeepsConsistent(n, {}, cfg, q);
      assert {} + {q} == {q};
    }

    lemma WalkTaken(s: Snapshot, t: Snapshot, q: QueryId, now: Timeval)
      requires q in s.net.queries && s.net.queries[q].search && Normal(now) && cfg.nservers > 0 && NoNames()
      requires TakenBy(s, t, q, NoNameFor(s.net.queries[q]), false, now)
      ensures var u := s.net.queries[q];
        var w := WalkNext(s.nextid, |SearchList.Remaining(u.searchPos, u.searchDoneAbs, cfg.nsearchlist)|);
        WalkedTo(Dequeue(s.net, q), t.net, q, w, false, now, s.link, t.link) && t.nextid == s.nextid + w.names
    {
      hide WalkedTo, WalkNext, SearchList.Remaining, NoNameFor, NoNames, OnlyTouches, Dequeue, Truncates;
      NoNameSays(s.net.queries[q]);
    }

    /** The sweep after the deadline. */
    lemma ResendShows(s: Snapshot, t: Snapshot, q: QueryId, search: Search, id: nat, doneAbs: int, now: Timeval)
      requires search.Asking? && Shows(s, q, search, id, doneAbs) && search.passed <= cfg.nsearchlist + 1
      requires Normal(now) && now.sec >= 0 && cfg.nservers > 0 && SendsFit()
      requires TimedAll(s.net, t.net, now) && Late(s.net, q, now) && t.nextid == s.nextid
      ensures Shows(t, q, Follow(search, Again, id, cfg.nsearchlist + 1), id, doneAbs)
    {
      assert Resent(s.net, t.net, q, now);
      hide TimedAll, Packet, SearchList.After;
    }

    /** The only query there is. */
    lemma {:induction false} LoneRoot(n: Net, q: QueryId, x: QueryId)
      requires Consistent(n, {}, cfg) && Roots(n) == {q} && n.queries[q].children == [] && x in n.queries
      ensures x == q
      decreases x
    {
      assert x in Roots(n) <==> n.queries[x].parent.None?;
      if n.queries[x].parent.Some? {
        var p := n.queries[x].parent.value;
        assert ParentListsChild(n, x) && ChildrenPointBack(n, p);
        LoneRoot(n, q, p);
      }
    }

    lemma AloneOnUdpw(n: Net, q: QueryId)
      requires Consistent(n, {}, cfg) && Roots(n) == {q} && n.queries[q].children == [] && q in n.udpw
      ensures n.udpw == [q]
    {
      forall x | x in n.udpw ensures x == q {
        LoneRoot(n, q, x);
      }
      OnlyOne(n.udpw, q);
    }

    static lemma OnlyOne<T>(s: seq<T>, x: T)
      requires NoDup(s) && x in s && forall y | y in s :: y == x
      ensures s == [x]
    {
      assert |s| < 2 || s[0] != s[1];
      forall j | 0 <= j < |s| ensures s[j] == x {
        assert s[j] in s;
      }
    }

    lemma AnswersAlone(n: Net, q: QueryId, server: nat)
      requires n.udpw == [q] && q in n.queries && server in n.queries[q].udpSent && NoNames()
      requires 0 <= n.queries[q].id < 65536 && DNS_HDRSIZE <= |n.queries[q].dgram|
      ensures Answerer(n, NoNameFor(n.queries[q]), server, false) == Some(q)
    {
      var u := n.queries[q];
      var nx := NoNameFor(u);
      NoNameSays(u);
      NoNameBody(u);
      hide NoNameFor, NoNames, Proper, IdOf;
      assert Answers(u, nx, IdOf(nx), server, false) && n.udpw[0] == q;
    }

    lemma NoNameBody(u: Query)
      requires DNS_HDRSIZE <= |u.dgram|
      ensures var nx := NoNameFor(u); |nx| == |u.dgram| && nx[DNS_HDRSIZE..|u.dgram|] == u.dgram[DNS_HDRSIZE..]
    {
      var head := NoNameFor(u)[..DNS_HDRSIZE];
      assert NoNameFor(u) == head + u.dgram[DNS_HDRSIZE..];
    }

    /** One move of a search that is the only query there is, made by one call of the user. */
    method MakeMove(q: QueryId, move: Move, late: nat, now: Timeval, ghost search: Search, ghost id: nat, ghost doneAbs: int)
      returns (ghost e: Event, now': Timeval)
      requires Valid() && Roots(net) == {q} && Normal(now) && now.sec >= 0 && SendsFit() && NoNames() && Answering(world)
      requires search.Asking? && search.passed <= cfg.nsearchlist + 1 && (doneAbs == 0 || doneAbs == -1)
      requires Shows(Now(), q, search, id, doneAbs)
      modifies this
      ensures Valid() && Roots(net) == {q} && Normal(now') && now'.sec >= 0
      ensures old(q in net.queries) && Makes(old(Now()), q, move, e, now') && Step(old(Now()), e, Quiet, Now(), now')
      ensures Shows(Now(), q, Follow(search, move, id, cfg.nsearchlist + 1), id, doneAbs)
    {
      hide Consistent, SendOk, RecvOk, RetriesOk, SocketOk, Step, Follow, WithinRetries, NoNames, SendsFit, Roots, NoNameFor;
      ghost var s := Now();
      WaitsOverUdp(net, q);
      AsideFields(net, q);
      var u := net.queries[q];
      if move == Again {
        now' := AddMs(u.timeout, late + 1);
        AfterIsMicros(now', u.timeout);
        var o := Perform(DoTimeouts, now');
        e := DoTimeouts;
        TimeoutMove(s, Now(), q, search, id, doneAbs, o, now');
      } else {
        now' := AddMs(now, late);
        var server :| server in u.udpSent;
        AloneOnUdpw(net, q);
        AnswersAlone(net, q, server);
        var inbox := [Datagram(Some(server), NoNameFor(u))];
        var o := Perform(DoReadable(udpsocket, [], inbox), now');
        e := DoReadable(udpsocket, [], inbox);
        ReplyMove(s, Now(), q, search, id, doneAbs, server, o, now');
      }
    }

    lemma AsideFields(n: Net, q: QueryId)
      requires Consistent(n, {}, cfg) && Aside(n, q) && q in n.udpw
      ensures q in n.queries && n.queries[q].children == [] && 0 <= n.queries[q].id < 65536 && DNS_HDRSIZE <= |n.queries[q].dgram|
    {
      assert RowOk(n.queries[q]);
    }

    lemma TimeoutMove(s: Snapshot, t: Snapshot, q: QueryId, search: Search, id: nat, doneAbs: int, o: Outcome, now: Timeval)
      requires search.Asking? && Shows(s, q, search, id, doneAbs) && search.passed <= cfg.nsearchlist + 1
      requires Normal(now) && now.sec >= 0 && cfg.nservers > 0 && SendsFit()
      requires Late(s.net, q, now) && Step(s, DoTimeouts, o, t, now)
      ensures o == Quiet && Roots(t.net) == Roots(s.net)
      ensures Shows(t, q, Follow(search, Again, id, cfg.nsearchlist + 1), id, doneAbs)
    {
      hide Shows, Follow, SendsFit, TimedAll, Roots;
      ResendShows(s, t, q, search, id, doneAbs, now);
    }

    lemma ReplyMove(s: Snapshot, t: Snapshot, q: QueryId, search: Search, id: nat, doneAbs: int, server: nat, o: Outcome, now: Timeval)
      requires search.Asking? && Shows(s, q, search, id, doneAbs) && Consistent(s.net, {}, cfg)
      requires Normal(now) && now.sec >= 0 && cfg.nservers > 0 && SendsFit() && NoNames()
      requires search.passed <= cfg.nsearchlist + 1 && (doneAbs == 0 || doneAbs == -1) && Roots(s.net) == {q}
      requires q in s.net.queries && s.net.udpw == [q] && Answerer(s.net, NoNameFor(s.net.queries[q]), server, false) == Some(q)
      requires Step(s, DoReadable(udpsocket, [], [Datagram(Some(server), NoNameFor(s.net.queries[q]))]), o, t, now)
      ensures o == Quiet && Roots(t.net) == Roots(s.net)
      ensures Shows(t, q, Follow(search, NoSuch, id, cfg.nsearchlist + 1), id, doneAbs)
    {
      hide Consistent, Follow, SendsFit, NoNames, NoNameFor, Answerer, TakenBy, Roots, FatalIn;
      NothingOnTcpw(s.net, q);
      assert o == Quiet;
      OnePacket(s, t, Datagram(Some(server), NoNameFor(s.net.queries[q])), now);
      ReplyShows(s, t, q, search, id, doneAbs, now);
    }

    lemma NothingOnTcpw(n: Net, q: QueryId)
      requires Consistent(n, {}, cfg) && Roots(n) == {q} && n.udpw == [q]
      ensures TcpSearches(n) == {}
    {
      assert q in n.udpw && RowOk(n.queries[q]);
      forall x | x in n.tcpw ensures false {
        LoneRoot(n, q, x);
      }
    }

    lemma OnePacket(s: Snapshot, t: Snapshot, p: Datagram, now: Timeval)
      requires Normal(now) && cfg.nservers > 0 && Arrived(s, t, [p], now)
      ensures TakenIn(s, t, p, now)
    {
      hide TakenIn;
      var run :| AllReceived(run, [p], now) && run[0] == s && run[|[p]|] == t;
      assert TakenIn(run[0], run[1], [p][0], now);
    }

    /** Where the moves lead a search that uses the packet numbers from id on. */
    ghost function Searched(moves: seq<Move>, id: nat): (r: Search)
      ensures r.Asking? ==> r.passed <= cfg.nsearchlist + 1
    {
      Followed(Begun(id, cfg.nsearchlist + 1), moves, id, cfg.nsearchlist + 1)
    }

    /** One call of the user leads from s to t and makes the move. */
    ghost predicate Driven(s: Snapshot, t: Snapshot, q: QueryId, move: Move, e: (Event, Timeval))
      requires cfg.nservers > 0
    {
      Normal(e.1) && Makes(s, q, move, e.0, e.1) && Step(s, e.0, Quiet, t, e.1)
    }

    /** A search, as far as it has come: every call makes the next move, and in every state
        between the calls the search is where the moves made so far have led it. */
    ghost predicate SearchSo(states: seq<Snapshot>, events: seq<(Event, Timeval)>, q: QueryId, moves: seq<Move>, id: nat, doneAbs: int)
      requires cfg.nservers > 0
    {
      && 1 <= |events| <= |moves| + 1 && |states| == |events| + 1
      && (forall i | 1 <= i < |events| :: Driven(states[i], states[i + 1], q, moves[i - 1], events[i]))
      && (forall i | 1 <= i < |states| :: Shows(states[i], q, Searched(moves[..i - 1], id), id, doneAbs))
    }

    lemma SearchBegins(s: Snapshot, t: Snapshot, q: QueryId, e: (Event, Timeval), moves: seq<Move>, id: nat, doneAbs: int)
      requires cfg.nservers > 0 && Shows(t, q, Begun(id, cfg.nsearchlist + 1), id, doneAbs)
      ensures SearchSo([s, t], [e], q, moves, id, doneAbs) && Shows(t, q, Searched(moves[..0], id), id, doneAbs)
    {
      hide Shows, Begun;
      assert moves[..0] == [];
    }

    lemma SearchGoesOn(states: seq<Snapshot>, events: seq<(Event, Timeval)>, t: Snapshot, e: (Event, Timeval), q: QueryId,
                       moves: seq<Move>, i: nat, id: nat, doneAbs: int)
      requires cfg.nservers > 0 && SearchSo(states, events, q, moves, id, doneAbs) && i < |moves| && |events| == i + 1
      requires Driven(states[i + 1], t, q, moves[i], e)
      requires Shows(t, q, Follow(Searched(moves[..i], id), moves[i], id, cfg.nsearchlist + 1), id, doneAbs)
      ensures SearchSo(states + [t], events + [e], q, moves, id, doneAbs) && Shows(t, q, Searched(moves[..i + 1], id), id, doneAbs)
    {
      hide Shows, Driven, Follow, Begun;
      assert moves[..i + 1][..i] == moves[..i];
      var ss, es := states + [t], events + [e];
      forall j | 1 <= j < |es| ensures Driven(ss[j], ss[j + 1], q, moves[j - 1], es[j]) {
        if j < |events| {
          assert Driven(states[j], states[j + 1], q, moves[j - 1], events[j]);
        }
      }
    }

    lemma {:induction false} StaysOver(s: Search, moves: seq<Move>, i: nat, id: nat, total: nat)
      requires i <= |moves| && (s.Asking? ==> s.passed <= total) && Followed(s, moves[..i], id, total).Over?
      ensures Followed(s, moves, id, total) == Followed(s, moves[..i], id, total)
      decreases |moves|
    {
      if i == |moves| {
        assert moves[..i] == moves;
      } else {
        var most := moves[..|moves| - 1];
        assert most[..i] == moves[..i];
        StaysOver(s, most, i, id, total);
      }
    }

    /** A search that is the only query there is, from adns_submit on, by calls of the user alone:
        for every move the sweep after the deadline, or the reply that there is no such name. */
    method SearchFor(bareFirst: bool, moves: seq<Move>, late: nat -> nat, start: Timeval)
      returns (q: QueryId, ghost states: seq<Snapshot>, ghost events: seq<(Event, Timeval)>)
      requires Valid() && net.queries == map[] && SendsFit() && NoNames() && Answering(world) && Normal(start) && start.sec >= 0
      modifies this
      ensures Valid() && q == old(nextQuery)
      ensures SearchSo(states, events, q, moves, old(nextid), if bareFirst then -1 else 0)
      ensures states[0] == old(Now()) && states[|states| - 1] == Now() && events[0] == (DoSubmit(true, false, bareFirst, None, 0), start)
      ensures Step(states[0], events[0].0, Submitted(q), states[1], start)
      ensures Shows(Now(), q, Searched(moves, old(nextid)), old(nextid), if bareFirst then -1 else 0)
      ensures if Said(Upto(moves, UDP_MAX_RETRIES)) >= Asked(old(nextid), cfg.nsearchlist + 1)
        then IsOver(q, Verdict(old(nextid), cfg.nsearchlist + 1))
        else if |moves| >= UDP_MAX_RETRIES then IsOver(q, StTimeout) else Waits(q)
    {
      hide Consistent, SendOk, RecvOk, RetriesOk, SocketOk, Step, Follow, WithinRetries, NoNames, SendsFit, Roots,
        Shows, Makes, SearchSo, Searched, Begun, IsOver, Asked, Verdict, Said, Answering;
      ghost var s, id, doneAbs := Now(), nextid, if bareFirst then -1 else 0;
      q := nextQuery;
      var e := DoSubmit(true, false, bareFirst, None, 0);
      var o := Perform(e, start);
      SearchSubmitted(s, Now(), q, bareFirst, o, start);
      states, events := [s, Now()], [(e, start)];
      SearchBegins(s, Now(), q, (e, start), moves, id, doneAbs);
      var i, now := 0, start;
      while i < |moves| && Waits(q)
        invariant 0 <= i <= |moves| && |events| == i + 1 && |states| == i + 2 && states[i + 1] == Now()
        invariant states[0] == s && events[0] == (e, start) && Step(s, e, Submitted(q), states[1], start)
        invariant Valid() && Roots(net) == {q} && Normal(now) && now.sec >= 0
        invariant SearchSo(states, events, q, moves, id, doneAbs)
        invariant Shows(Now(), q, Searched(moves[..i], id), id, doneAbs)
      {
        ghost var t, search := Now(), Searched(moves[..i], id);
        ghost var event;
        StillAsking(t, q, search, id, doneAbs);
        event, now := MakeMove(q, moves[i], late(i), now, search, id, doneAbs);
        SearchGoesOn(states, events, Now(), (event, now), q, moves, i, id, doneAbs);
        states, events := states + [Now()], events + [(event, now)];
        i := i + 1;
      }
      if i < |moves| {
        NoLongerAsking(Now(), q, Searched(moves[..i], id), id, doneAbs);
        SearchedStays(moves, i, id);
      }
      assert moves[..|moves|] == moves;
      SearchVerdict(moves, id);
      SearchShown(q, Searched(moves, id), id, doneAbs);
    }

    lemma SearchedStays(moves: seq<Move>, i: nat, id: nat)
      requires i <= |moves| && Searched(moves[..i], id).Over?
      ensures Searched(moves, id) == Searched(moves[..i], id)
    {
      StaysOver(Begun(id, cfg.nsearchlist + 1), moves, i, id, cfg.nsearchlist + 1);
    }

    lemma SearchShown(q: QueryId, search: Search, id: nat, doneAbs: int)
      requires Shows(Now(), q, search, id, doneAbs)
      ensures if search.Over? then IsOver(q, search.status) else Waits(q)
    {
    }

    ghost predicate IsOver(q: QueryId, st: Status)
      reads this
    {
      q in net.queries && net.queries[q].state == Finished && net.queries[q].status == st && q in net.output
    }

    predicate Waits(q: QueryId)
      reads this
    {
      q in net.queries && net.queries[q].state != Finished
    }

    lemma StillAsking(s: Snapshot, q: QueryId, search: Search, id: nat, doneAbs: int)
      requires Shows(s, q, search, id, doneAbs) && q in s.net.queries && s.net.queries[q].state != Finished
      ensures search.Asking?
    {
    }

    lemma NoLongerAsking(s: Snapshot, q: QueryId, search: Search, id: nat, doneAbs: int)
      requires Shows(s, q, search, id, doneAbs) && !(q in s.net.queries && s.net.queries[q].state != Finished)
      ensures search.Over?
    {
    }

    lemma SearchSubmitted(s: Snapshot, t: Snapshot, q: QueryId, bareFirst: bool, o: Outcome, now: Timeval)
      requires Consistent(s.net, {}, cfg) && s.net.queries == map[] && q == s.nextQuery && SendsFit()
      requires Normal(now) && now.sec >= 0 && cfg.nservers > 0 && Step(s, DoSubmit(true, false, bareFirst, None, 0), o, t, now)
      ensures o == Submitted(q) && Roots(t.net) == {q}
      ensures Shows(t, q, Begun(s.nextid, cfg.nsearchlist + 1), s.nextid, if bareFirst then -1 else 0)
    {
      hide Consistent, Started, Shows, SendsFit, Begun, OnlyTouches;
      assert Roots(s.net) == {};
      StartShows(s, t, q, bareFirst, now);
    }
  }
}
