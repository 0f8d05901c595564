/** What is true of the one TCP connection, stated over the bytes and frames that have
    passed on it since it was opened. */
module Connection {
  import opened Common
  import opened TimeArith
  import opened TcpFraming
  import opened QueryNet

  datatype TcpState = Disconnected | Connecting | Connected | Broken

  /** One call of adns__querysend_tcp on the current connection. */
  datatype Sent = Sent(query: QueryId, dgram: seq<Byte>)

  /** The past of the current connection: bytes the kernel took, frames handed over, where
      in that list each waiting query joined tcpw, whether a length prefix was split; bytes
      read and messages passed on; refused connect() calls since the last sweep of tcpw; and
      for each waiting query how many connections have ended since it joined. */
  datatype History = History(
    written: seq<Byte>,
    log: seq<Sent>,
    joined: map<QueryId, nat>,
    split: bool,
    received: seq<Byte>,
    handed: seq<seq<Byte>>,
    refusals: nat,
    past: map<QueryId, Past>)

  /** The connections, or attempts at one, that ended while a query waited, and those among
      them that broke while tcp_connected had not yet come to that query. */
  datatype Past = Past(cycles: nat, skipped: nat)

  function Dgrams(log: seq<Sent>): seq<seq<Byte>> {
    seq(|log|, i requires 0 <= i < |log| => log[i].dgram)
  }

  /** How often q was sent, counting from position start of the log. */
  function TimesSent(log: seq<Sent>, q: QueryId, start: nat): nat {
    if |log| <= start then 0
    else TimesSent(log[..|log| - 1], q, start) + (if log[|log| - 1].query == q then 1 else 0)
  }

  lemma TimesSentAppend(log: seq<Sent>, e: Sent, q: QueryId, start: nat)
    requires start <= |log|
    ensures TimesSent(log + [e], q, start) == TimesSent(log, q, start) + (if e.query == q then 1 else 0)
  {
    assert (log + [e])[..|log|] == log;
  }

  ghost predicate SentOnce(n: Net, h: History, q: QueryId, times: nat)
    requires q in n.queries
  {
    q in h.joined && h.joined[q] <= |h.log| && TimesSent(h.log, q, h.joined[q]) == times &&
    forall i | h.joined[q] <= i < |h.log| && h.log[i].query == q :: h.log[i].dgram == n.queries[q].dgram
  }

  /** internal.h, below the state table: a query on tcpw has been sent iff the connection is
      up; sharpened to once since it joined.  The queries in pending are about to be sent. */
  ghost predicate SentIffUp(n: Net, h: History, up: bool, pending: set<QueryId>) {
    forall q | q in n.tcpw :: q in n.queries && SentOnce(n, h, q, if up && q !in pending then 1 else 0)
  }

  /** The bytes written plus the bytes queued are the frames, unless a prefix was split. */
  ghost predicate StreamFramed(h: History, tcpsend: seq<Byte>) {
    var stream := h.written + tcpsend;
    var frames := Frames(Dgrams(h.log));
    |stream| == |frames| && (h.split <==> stream != frames)
  }

  ghost predicate SendOk(n: Net, h: History, st: TcpState, tcpsend: seq<Byte>, pending: set<QueryId>) {
    && SentIffUp(n, h, st == Connected, pending)
    && StreamFramed(h, tcpsend)
    && (st != Connected ==> h.log == [] && h.written == [] && tcpsend == [] && !h.split)
  }

  /** The messages passed on are the successive messages of the bytes read. */
  ghost predicate RecvOk(h: History, st: TcpState, tcprecv: seq<Byte>, skip: nat) {
    && skip <= |tcprecv|
    && h.received == Frames(h.handed) + tcprecv[skip..]
    && (forall m | m in h.handed :: |m| < 65536)
    && (st != Connected ==> h.received == [] && h.handed == [] && tcprecv == [])
  }

  /** check.c: the retry bound of queries on tcpw; and what a retry is: one for every
      connection that ended or is up, except where it broke before the query's turn. */
  ghost predicate RetriesOk(n: Net, h: History, st: TcpState, nservers: nat, pending: set<QueryId>) {
    forall q | q in n.tcpw :: q in n.queries && q in h.past &&
      n.queries[q].retries <= nservers + h.refusals +
        (if (st == Connected && q !in pending) || st == Broken then 1 else 0) &&
      n.queries[q].retries + h.past[q].skipped == h.past[q].cycles + if st == Connected && q !in pending then 1 else 0
  }

  /** One more connection has ended for the waiting queries; it had not reached the unsent. */
  function Broke(past: map<QueryId, Past>, tcpw: seq<QueryId>, unsent: set<QueryId>): map<QueryId, Past> {
    map q | q in tcpw && q in past :: Past(past[q].cycles + 1, past[q].skipped + if q in unsent then 1 else 0)
  }

  ghost predicate TimerOk(timer: Timeval) {
    Normal(timer) && timer.sec >= 0 && (timer.sec == 0 ==> timer.usec == 0)
  }

  /** checkc_global: socket and timer agree with the state. */
  ghost predicate SocketOk(n: Net, st: TcpState, socket: int, timer: Timeval, pending: set<QueryId>) {
    && TimerOk(timer)
    && (st == Connected || st == Connecting <==> socket >= 0)
    && (st == Broken || st == Disconnected ==> socket == -1)
    && (st == Connecting ==> timer.sec > 0)
    && (st == Connected ==> forall q | q in n.tcpw && q !in pending :: timer == ZERO)
  }

  function EmptyHistory(n: Net, refusals: nat, past: map<QueryId, Past>): History {
    History([], [], map q | q in n.tcpw :: 0, false, [], [], refusals, past)
  }

  /** All of these only look at the waiting queries, so completions do not disturb them. */
  lemma UntouchedKeepsConnection(n: Net, m: Net, h: History, st: TcpState, tcpsend: seq<Byte>, nservers: nat,
                               socket: int, timer: Timeval, pending: set<QueryId>)
    requires TcpUntouched(n, m)
    requires SendOk(n, h, st, tcpsend, pending) && RetriesOk(n, h, st, nservers, pending)
    requires SocketOk(n, st, socket, timer, pending)
    ensures SendOk(m, h, st, tcpsend, pending) && RetriesOk(m, h, st, nservers, pending)
    ensures SocketOk(m, st, socket, timer, pending)
  {
    forall q | q in m.tcpw
      ensures q in m.queries && SentOnce(m, h, q, if st == Connected && q !in pending then 1 else 0)
    {
      assert SentOnce(n, h, q, if st == Connected && q !in pending then 1 else 0);
    }
  }

  lemma ConcatSame(a: seq<Byte>, x: seq<Byte>, b: seq<Byte>, y: seq<Byte>)
    requires |a| == |b|
    ensures a + x == b + y <==> a == b && x == y
  {
    if a + x == b + y {
      assert a == (a + x)[..|a|] && b == (b + y)[..|b|];
      assert x == (a + x)[|a|..] && y == (b + y)[|b|..];
    }
  }

  lemma FramesOfLog(log: seq<Sent>, e: Sent)
    ensures Frames(Dgrams(log + [e])) == Frames(Dgrams(log)) + Frame(e.dgram)
  {
    assert Dgrams(log + [e]) == Dgrams(log) + [e.dgram];
    FramesAppend(Dgrams(log), e.dgram);
  }

  lemma Regroup(a: seq<Byte>, x: seq<Byte>, b: seq<Byte>, y: seq<Byte>)
    requires x == [] || b == []
    ensures (a + x) + (b + y) == (a + b) + (x + y)
  {
    if x == [] {
      assert a + x == a && x + y == y;
    } else {
      assert b + y == y && a + b == a;
    }
  }

  /** One more frame on the connection: the stream stays framed exactly when writev did not
      stop inside the length prefix, or the two length bytes are equal. */
  lemma SendKeepsStream(h: History, tcpsend: seq<Byte>, q: QueryId, dgram: seq<Byte>, wr: nat)
    requires StreamFramed(h, tcpsend) && wr <= |dgram| + 2 && (tcpsend != [] ==> wr == 0)
    ensures var sent := AfterWritev(dgram, wr);
      var bad := wr == 1 && Prefix(|dgram|)[0] != Prefix(|dgram|)[1];
      StreamFramed(h.(written := h.written + sent.0, log := h.log + [Sent(q, dgram)], split := h.split || bad),
                   tcpsend + sent.1)
  {
    var sent := AfterWritev(dgram, wr);
    PartialWrite(dgram, wr);
    FramesOfLog(h.log, Sent(q, dgram));
    Regroup(h.written, sent.0, tcpsend, sent.1);
    ConcatSame(h.written + tcpsend, sent.0 + sent.1, Frames(Dgrams(h.log)), Frame(dgram));
  }

  /** Sending the pending query q makes it a sent one, and leaves the others as they were. */
  lemma SendKeepsSentIffUp(n: Net, m: Net, h: History, h': History, q: QueryId, pending: set<QueryId>)
    requires SentIffUp(n, h, true, pending) && q in n.tcpw && q in pending
    requires OnlyRetries(n, m)
    requires h'.log == h.log + [Sent(q, n.queries[q].dgram)] && h'.joined == h.joined
    ensures SentIffUp(m, h', true, pending - {q})
  {
    forall x | x in m.tcpw
      ensures x in m.queries && SentOnce(m, h', x, if x !in pending - {q} then 1 else 0)
    {
      assert SentOnce(n, h, x, if x !in pending then 1 else 0);
      TimesSentAppend(h.log, Sent(q, n.queries[q].dgram), x, h.joined[x]);
    }
  }

  /** A closed connection has no past. */
  lemma ClosedIsOk(n: Net, refusals: nat, past: map<QueryId, Past>, st: TcpState, pending: set<QueryId>)
    requires st != Connected && forall q | q in n.tcpw :: q in n.queries
    ensures SendOk(n, EmptyHistory(n, refusals, past), st, [], pending)
    ensures RecvOk(EmptyHistory(n, refusals, past), st, [], 0)
  {
    var h := EmptyHistory(n, refusals, past);
    forall q | q in n.tcpw ensures SentOnce(n, h, q, 0) {
    }
  }

  function AfterSend(h: History, q: QueryId, dgram: seq<Byte>, wr: nat): History
    requires wr <= |dgram| + 2
  {
    h.(written := h.written + AfterWritev(dgram, wr).0,
       log := h.log + [Sent(q, dgram)],
       split := h.split || (wr == 1 && Prefix(|dgram|)[0] != Prefix(|dgram|)[1]))
  }

  /** adns__querysend_tcp on the pending query q. */
  lemma SendKeepsConnection(n: Net, h: History, tcpsend: seq<Byte>, nservers: nat, q: QueryId, wr: nat, pending: set<QueryId>)
    requires SendOk(n, h, Connected, tcpsend, pending) && RetriesOk(n, h, Connected, nservers, pending)
    requires q in n.tcpw && q in pending && q in n.queries
    requires wr <= |n.queries[q].dgram| + 2 && (tcpsend != [] ==> wr == 0)
    ensures var m := Charged(n, {q});
      var h' := AfterSend(h, q, n.queries[q].dgram, wr);
      SendOk(m, h', Connected, tcpsend + AfterWritev(n.queries[q].dgram, wr).1, pending - {q}) &&
      RetriesOk(m, h', Connected, nservers, pending - {q})
  {
    hide AfterSend, AfterWritev, TimesSent, StreamFramed, RetriesOk, Charged, OnlyRetries;
    var dgram := n.queries[q].dgram;
    SendKeepsStream(h, tcpsend, q, dgram, wr);
    ChargedIsOnlyRetries(n, {q});
    ChargeKeepsRetries(n, h, nservers, q, pending);
    AfterSendFields(h, q, dgram, wr);
    SendKeepsSentIffUp(n, Charged(n, {q}), h, AfterSend(h, q, dgram, wr), q, pending);
    SameRetries(Charged(n, {q}), h, AfterSend(h, q, dgram, wr), nservers, pending - {q});
  }

  lemma AfterSendFields(h: History, q: QueryId, dgram: seq<Byte>, wr: nat)
    requires wr <= |dgram| + 2
    ensures var h' := AfterSend(h, q, dgram, wr);
      h'.log == h.log + [Sent(q, dgram)] && h'.joined == h.joined && h'.past == h.past && h'.refusals == h.refusals &&
      h' == h.(written := h.written + AfterWritev(dgram, wr).0, log := h.log + [Sent(q, dgram)],
               split := h.split || (wr == 1 && Prefix(|dgram|)[0] != Prefix(|dgram|)[1]))
  {
  }

  lemma SameRetries(n: Net, h: History, h': History, nservers: nat, pending: set<QueryId>)
    requires RetriesOk(n, h, Connected, nservers, pending) && h'.past == h.past && h'.refusals == h.refusals
    ensures RetriesOk(n, h', Connected, nservers, pending)
  {
  }

  /** The pending query is charged when its turn comes. */
  lemma ChargeKeepsRetries(n: Net, h: History, nservers: nat, q: QueryId, pending: set<QueryId>)
    requires RetriesOk(n, h, Connected, nservers, pending) && q in pending
    ensures RetriesOk(Charged(n, {q}), h, Connected, nservers, pending - {q}) && Charged(n, {q}).tcpw == n.tcpw
  {
  }

  /** adns__tcp_broken charges the waiting queries only if the connection was being opened. */
  lemma BrokenKeepsRetries(n: Net, m: Net, h: History, st: TcpState, nservers: nat, unsent: set<QueryId>)
    requires RetriesOk(n, h, st, nservers, unsent) && (st == Connecting || st == Connected) && (st == Connecting ==> unsent == {})
    requires m == if st == Connecting then Charged(n, OnTcpw(n)) else n
    ensures RetriesOk(m, EmptyHistory(m, h.refusals, Broke(h.past, n.tcpw, unsent)), Broken, nservers, {})
  {
  }

  lemma RetriesKnown(n: Net, h: History, st: TcpState, nservers: nat, pending: set<QueryId>)
    requires RetriesOk(n, h, st, nservers, pending)
    ensures forall q | q in n.tcpw :: q in n.queries
  {
  }

  lemma RecvIgnoresSend(h: History, q: QueryId, dgram: seq<Byte>, wr: nat, st: TcpState, tcprecv: seq<Byte>, skip: nat)
    requires RecvOk(h, st, tcprecv, skip) && wr <= |dgram| + 2
    ensures var h' := AfterSend(h, q, dgram, wr);
      RecvOk(h', st, tcprecv, skip) && h'.received == h.received && h'.handed == h.handed &&
      h'.refusals == h.refusals && h'.past == h.past
  {
  }

  lemma TimerOff(n: Net, m: Net, socket: int, timer: Timeval, pending: set<QueryId>, left: set<QueryId>)
    requires SocketOk(n, Connected, socket, timer, pending)
    ensures SocketOk(m, Connected, socket, ZERO, left) && TimerOk(ZERO)
  {
  }

  lemma DialKeepsConnection(n: Net, h: History, tcpsend: seq<Byte>, tcprecv: seq<Byte>, skip: nat, nservers: nat)
    requires SendOk(n, h, Disconnected, tcpsend, {}) && RecvOk(h, Disconnected, tcprecv, skip)
    requires RetriesOk(n, h, Disconnected, nservers, {})
    ensures SendOk(n, h, Connecting, tcpsend, {}) && RecvOk(h, Connecting, tcprecv, skip)
    ensures RetriesOk(n, h, Connecting, nservers, {})
  {
  }

  /** A refused connect() leaves the state disconnected with one more refusal on record. */
  lemma RefusedKeepsConnection(n: Net, h: History, tcpsend: seq<Byte>, tcprecv: seq<Byte>, skip: nat, nservers: nat)
    requires SendOk(n, h, Broken, tcpsend, {}) && RecvOk(h, Broken, tcprecv, skip)
    requires RetriesOk(n, h, Broken, nservers, {})
    ensures var h' := h.(refusals := h.refusals + 1);
      SendOk(n, h', Disconnected, tcpsend, {}) && RecvOk(h', Disconnected, tcprecv, skip) &&
      RetriesOk(n, h', Disconnected, nservers, {})
  {
    var h' := h.(refusals := h.refusals + 1);
    forall q | q in n.tcpw ensures q in n.queries && SentOnce(n, h', q, 0) {
      assert SentOnce(n, h, q, 0);
    }
  }

  /** A query that joins tcpw has not been sent since. */
  lemma JoinKeepsSent(n: Net, h: History, up: bool, q: QueryId, u: Query)
    requires SentIffUp(n, h, up, {}) && q !in n.tcpw && u.state == TcpWait
    ensures SentIffUp(Enqueue(n, q, u), h.(joined := h.joined[q := |h.log|]), up, {q})
    ensures !up ==> SentIffUp(Enqueue(n, q, u), h.(joined := h.joined[q := |h.log|]), up, {})
  {
    var m := Enqueue(n, q, u);
    var h' := h.(joined := h.joined[q := |h.log|]);
    forall x | x in m.tcpw
      ensures x in m.queries && SentOnce(m, h', x, if up && x !in {q} then 1 else 0)
    {
      if x != q {
        assert SentOnce(n, h, x, if up then 1 else 0);
      }
    }
  }

  lemma AdoptKeepsConnection(n: Net, h: History, st: TcpState, tcpsend: seq<Byte>, nservers: nat,
                             socket: int, timer: Timeval, p: QueryId, c: QueryId)
    requires p in n.queries && c in n.queries && p != c
    requires SendOk(n, h, st, tcpsend, {}) && RetriesOk(n, h, st, nservers, {}) && SocketOk(n, st, socket, timer, {})
    ensures var m := Adopt(n, p, c);
      SendOk(m, h, st, tcpsend, {}) && RetriesOk(m, h, st, nservers, {}) && SocketOk(m, st, socket, timer, {})
  {
    var m := Adopt(n, p, c);
    forall q | q in m.tcpw ensures q in m.queries && SentOnce(m, h, q, if st == Connected then 1 else 0) {
      assert SentOnce(n, h, q, if st == Connected then 1 else 0);
    }
    assert SentIffUp(m, h, st == Connected, {});
  }

  /** After the sweep the count of refusals starts again. */
  lemma SweptKeepsConnection(n: Net, h: History, tcpsend: seq<Byte>, tcprecv: seq<Byte>, skip: nat, nservers: nat)
    requires SendOk(n, h, Broken, tcpsend, {}) && RecvOk(h, Broken, tcprecv, skip)
    requires RetriesOk(n, h, Broken, nservers, {})
    requires forall q | q in n.tcpw :: q in n.queries && n.queries[q].retries <= nservers
    ensures var h' := h.(refusals := 0);
      SendOk(n, h', Disconnected, tcpsend, {}) && RecvOk(h', Disconnected, tcprecv, skip) &&
      RetriesOk(n, h', Disconnected, nservers, {})
  {
    var h' := h.(refusals := 0);
    forall q | q in n.tcpw ensures q in n.queries && SentOnce(n, h', q, 0) {
      assert SentOnce(n, h, q, 0);
    }
  }

  lemma JoinKeepsConnection(n: Net, h: History, st: TcpState, tcpsend: seq<Byte>, nservers: nat,
                            socket: int, timer: Timeval, q: QueryId, u: Query)
    requires SendOk(n, h, st, tcpsend, {}) && RetriesOk(n, h, st, nservers, {}) && SocketOk(n, st, socket, timer, {})
    requires q !in n.tcpw && u.state == TcpWait && u.retries == 0
    ensures var m := Enqueue(n, q, u);
      var h' := h.(joined := h.joined[q := |h.log|], past := h.past[q := Past(0, 0)]);
      SendOk(m, h', st, tcpsend, {q}) && RetriesOk(m, h', st, nservers, {q}) && SocketOk(m, st, socket, timer, {q}) &&
      (st != Connected ==>
         SendOk(m, h', st, tcpsend, {}) && RetriesOk(m, h', st, nservers, {}) && SocketOk(m, st, socket, timer, {}))
  {
    JoinKeepsSent(n, h, st == Connected, q, u);
    var m := Enqueue(n, q, u);
    SameSent(m, h.(joined := h.joined[q := |h.log|]), h.(joined := h.joined[q := |h.log|], past := h.past[q := Past(0, 0)]),
             st == Connected, {q});
    if st != Connected {
      SameSent(m, h.(joined := h.joined[q := |h.log|]), h.(joined := h.joined[q := |h.log|], past := h.past[q := Past(0, 0)]),
               false, {});
    }
  }

  /** What was sent is in the log and the joining positions alone. */
  lemma SameSent(n: Net, h: History, h': History, up: bool, pending: set<QueryId>)
    requires SentIffUp(n, h, up, pending) && h'.log == h.log && h'.joined == h.joined
    ensures SentIffUp(n, h', up, pending)
  {
    forall q | q in n.tcpw ensures q in n.queries && SentOnce(n, h', q, if up && q !in pending then 1 else 0) {
      assert SentOnce(n, h, q, if up && q !in pending then 1 else 0);
    }
  }

  /** The send side does not depend on what was received. */
  lemma SendSideOnly(n: Net, h: History, h': History, st: TcpState, tcpsend: seq<Byte>, nservers: nat)
    requires SendOk(n, h, st, tcpsend, {}) && RetriesOk(n, h, st, nservers, {})
    requires h' == h.(received := h'.received, handed := h'.handed)
    ensures SendOk(n, h', st, tcpsend, {}) && RetriesOk(n, h', st, nservers, {})
  {
    forall q | q in n.tcpw ensures q in n.queries && SentOnce(n, h', q, if st == Connected then 1 else 0) {
      assert SentOnce(n, h, q, if st == Connected then 1 else 0);
    }
  }

  lemma HandOverKeepsRecv(h: History, tcprecv: seq<Byte>, skip: nat)
    requires RecvOk(h, Connected, tcprecv, skip) && WholeAt(tcprecv, skip)
    ensures RecvOk(h.(handed := h.handed + [MessageAt(tcprecv, skip)]), Connected, tcprecv, skip + 2 + LengthAt(tcprecv, skip))
  {
    var m := MessageAt(tcprecv, skip);
    var rest := tcprecv[skip + 2 + LengthAt(tcprecv, skip)..];
    WholeIsFrame(tcprecv, skip);
    FramesAppend(h.handed, m);
    assert Frames(h.handed) + (Frame(m) + rest) == (Frames(h.handed) + Frame(m)) + rest;
  }

  lemma ReceiveKeepsRecv(h: History, tcprecv: seq<Byte>, got: seq<Byte>)
    requires RecvOk(h, Connected, tcprecv, 0)
    ensures RecvOk(h.(received := h.received + got), Connected, tcprecv + got, 0)
  {
    assert tcprecv[0..] == tcprecv && (tcprecv + got)[0..] == tcprecv + got;
    assert Frames(h.handed) + (tcprecv + got) == (Frames(h.handed) + tcprecv) + got;
  }

  lemma CompactKeepsRecv(h: History, tcprecv: seq<Byte>, skip: nat)
    requires RecvOk(h, Connected, tcprecv, skip)
    ensures RecvOk(h, Connected, tcprecv[skip..], 0)
  {
    assert tcprecv[skip..][0..] == tcprecv[skip..];
  }
}
