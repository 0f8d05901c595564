/** The queries of one adns state, the four queues they wait on and the parent/child
    links between them; what cancelling and completing a query does to that structure. */
module QueryNet {
  import opened Common
  import opened TimeArith

  /** Queries are named by their order of allocation. */
  type QueryId = nat
  type Addr = nat

  const UDP_MAX_RETRIES := 15
  const DNS_MAX_UDP := 512
  const DNS_HDRSIZE := 12

  datatype QueryState = ToSend | TcpWait | ChildWait | Finished

  datatype Status =
    | StOk | StTimeout | StAllServFail | StNxDomain | StNoData
    | StInconsistent | StInvalidResponse | StOther(code: nat)

  /** ctx.callback: null for a query the user submitted. */
  datatype Callback = External | HostAddr | Ptr

  datatype Query = Query(
    state: QueryState,
    parent: Option<QueryId>,
    children: seq<QueryId>,
    callback: Callback,
    id: int,
    retries: nat,
    udpNextServer: nat,
    udpSent: set<nat>,
    timeout: Timeval,
    useVc: bool,
    search: bool,
    searchPos: nat,
    searchDoneAbs: int,
    dgram: seq<Byte>,
    status: Status,
    addrs: seq<Addr>,
    queried: Addr)

  datatype Net = Net(
    queries: map<QueryId, Query>,
    udpw: seq<QueryId>,
    tcpw: seq<QueryId>,
    childw: seq<QueryId>,
    output: seq<QueryId>)

  datatype Config = Config(nservers: nat, nsearchlist: nat)

  // ---------- the consistency predicates of check.c ----------

  /** The queue holds, once each, exactly the queries in that state; the queries in off are
      being processed and are on no queue. */
  ghost predicate OnQueue(n: Net, off: set<QueryId>, queue: seq<QueryId>, st: QueryState) {
    NoDup(queue) &&
    forall q :: q in queue <==> q in n.queries && q !in off && n.queries[q].state == st
  }

  ghost predicate Queued(n: Net, off: set<QueryId>) {
    && OnQueue(n, off, n.udpw, ToSend)
    && OnQueue(n, off, n.tcpw, TcpWait)
    && OnQueue(n, off, n.childw, ChildWait)
    && OnQueue(n, off, n.output, Finished)
    && off <= n.queries.Keys
  }

  ghost predicate ChildrenPointBack(n: Net, q: QueryId)
    requires q in n.queries
  {
    var u := n.queries[q];
    NoDup(u.children) &&
    forall c | c in u.children ::
      q < c && c in n.queries && n.queries[c].parent == Some(q) && n.queries[c].state != Finished
  }

  ghost predicate ParentListsChild(n: Net, q: QueryId)
    requires q in n.queries
  {
    var u := n.queries[q];
    u.parent.Some? ==>
      u.callback != External && u.parent.value in n.queries && q in n.queries[u.parent.value].children
  }

  ghost predicate Family(n: Net) {
    forall q | q in n.queries :: ChildrenPointBack(n, q) && ParentListsChild(n, q)
  }

  ghost predicate FieldsOk(u: Query, cfg: Config) {
    && u.udpNextServer < cfg.nservers
    && (forall s | s in u.udpSent :: s < cfg.nservers)
    && u.searchPos <= cfg.nsearchlist
    && Normal(u.timeout)
  }

  /** The rows of the table in internal.h for a query that sits on a queue. */
  ghost predicate RowOk(u: Query) {
    match u.state
    case ToSend =>
      u.children == [] && 0 <= u.id < 65536 && u.retries <= UDP_MAX_RETRIES && u.udpSent != {} &&
      !u.useVc && DNS_HDRSIZE <= |u.dgram| <= DNS_MAX_UDP
    case TcpWait => u.children == [] && 0 <= u.id < 65536 && DNS_HDRSIZE <= |u.dgram|
    case ChildWait => u.children != [] && 0 <= u.id < 65536
    case Finished => u.children == [] && u.parent == None && u.id == -1
  }

  ghost predicate RowsOk(n: Net, off: set<QueryId>, cfg: Config) {
    forall q | q in n.queries :: FieldsOk(n.queries[q], cfg) && (q !in off ==> RowOk(n.queries[q]))
  }

  ghost predicate Consistent(n: Net, off: set<QueryId>, cfg: Config) {
    Queued(n, off) && Family(n) && RowsOk(n, off, cfg)
  }

  // ---------- cancelling: cutting subtrees out of the net ----------

  /** d is one of the roots or descends from one. */
  ghost predicate Doomed(qs: map<QueryId, Query>, roots: set<QueryId>, d: QueryId)
    decreases d
  {
    d in qs &&
    (d in roots || (qs[d].parent.Some? && qs[d].parent.value < d && Doomed(qs, roots, qs[d].parent.value)))
  }

  ghost function Survivors(qs: map<QueryId, Query>, roots: set<QueryId>): set<QueryId> {
    set d | d in qs && !Doomed(qs, roots, d)
  }

  /** The net without the subtrees of the roots; everything else as it was, in its order. */
  ghost function Prune(n: Net, roots: set<QueryId>): Net {
    var keys := Survivors(n.queries, roots);
    Net(map d | d in keys :: n.queries[d].(children := Kept(n.queries[d].children, keys)),
        Kept(n.udpw, keys), Kept(n.tcpw, keys), Kept(n.childw, keys), Kept(n.output, keys))
  }

  lemma {:induction false} DoomedIsLater(qs: map<QueryId, Query>, roots: set<QueryId>, d: QueryId, low: QueryId)
    requires Doomed(qs, roots, d)
    requires forall r | r in roots :: low <= r
    ensures low <= d
    decreases d
  {
    if d !in roots {
      DoomedIsLater(qs, roots, qs[d].parent.value, low);
    }
  }

  /** Pruning twice is pruning once, for the survivors of the first cut. */
  lemma {:induction false} DoomedTwice(n: Net, a: set<QueryId>, b: set<QueryId>, d: QueryId)
    requires d in Survivors(n.queries, a)
    ensures Doomed(Prune(n, a).queries, b, d) <==> Doomed(n.queries, a + b, d)
    decreases d
  {
    var p := n.queries[d].parent;
    if p.Some? && p.value < d && p.value in n.queries {
      DoomedTwice(n, a, b, p.value);
    }
  }

  lemma {:induction false} DoomedGrows(qs: map<QueryId, Query>, a: set<QueryId>, b: set<QueryId>, d: QueryId)
    requires a <= b && Doomed(qs, a, d)
    ensures Doomed(qs, b, d)
    decreases d
  {
    if d !in a {
      DoomedGrows(qs, a, b, qs[d].parent.value);
    }
  }

  lemma SurvivorsTwice(n: Net, a: set<QueryId>, b: set<QueryId>)
    ensures Survivors(Prune(n, a).queries, b) == Survivors(n.queries, a + b)
    ensures Survivors(n.queries, a + b) <= Survivors(n.queries, a)
  {
    forall d | d in n.queries
      ensures d in Survivors(Prune(n, a).queries, b) <==> d in Survivors(n.queries, a + b)
      ensures d in Survivors(n.queries, a + b) ==> d in Survivors(n.queries, a)
    {
      if Doomed(n.queries, a, d) {
        DoomedGrows(n.queries, a, a + b, d);
      } else {
        DoomedTwice(n, a, b, d);
      }
    }
  }

  lemma KeptTwice(s: seq<QueryId>, first: set<QueryId>, both: set<QueryId>)
    requires both <= first
    ensures Kept(Kept(s, first), both) == Kept(s, both)
  {
    KeptKept(s, first, both);
    assert first * both == both;
  }

  lemma PruneTwice(n: Net, a: set<QueryId>, b: set<QueryId>)
    ensures Prune(Prune(n, a), b) == Prune(n, a + b)
  {
    var first := Survivors(n.queries, a);
    var both := Survivors(n.queries, a + b);
    SurvivorsTwice(n, a, b);
    KeptTwice(n.udpw, first, both);
    KeptTwice(n.tcpw, first, both);
    KeptTwice(n.childw, first, both);
    KeptTwice(n.output, first, both);
    forall d | d in both
      ensures Prune(Prune(n, a), b).queries[d] == Prune(n, a + b).queries[d]
    {
      KeptTwice(n.queries[d].children, first, both);
    }
    assert Prune(Prune(n, a), b).queries == Prune(n, a + b).queries;
  }

  lemma PruneNothing(n: Net, off: set<QueryId>, cfg: Config)
    requires Consistent(n, off, cfg)
    ensures Prune(n, {}) == n
  {
    forall d | d in n.queries ensures !Doomed(n.queries, {}, d) {
      NothingDoomed(n.queries, d);
    }
    assert Survivors(n.queries, {}) == n.queries.Keys;
    forall d | d in n.queries
      ensures n.queries[d].(children := Kept(n.queries[d].children, n.queries.Keys)) == n.queries[d]
    {
      assert ChildrenPointBack(n, d);
      KeptFacts(n.queries[d].children, n.queries.Keys);
    }
    KeptFacts(n.udpw, n.queries.Keys);
    KeptFacts(n.tcpw, n.queries.Keys);
    KeptFacts(n.childw, n.queries.Keys);
    KeptFacts(n.output, n.queries.Keys);
    assert Prune(n, {}).queries == n.queries;
  }

  lemma {:induction false} NothingDoomed(qs: map<QueryId, Query>, d: QueryId)
    ensures !Doomed(qs, {}, d)
    decreases d
  {
    if d in qs && qs[d].parent.Some? && qs[d].parent.value < d {
      NothingDoomed(qs, qs[d].parent.value);
    }
  }

  /** A child of a survivor is itself doomed only by being a root of the cut. */
  lemma PruneKeepsFamily(n: Net, roots: set<QueryId>)
    requires Family(n)
    ensures Family(Prune(n, roots))
  {
    var m := Prune(n, roots);
    forall q | q in m.queries
      ensures ChildrenPointBack(m, q) && ParentListsChild(m, q)
    {
      assert ChildrenPointBack(n, q) && ParentListsChild(n, q);
      var u := n.queries[q];
      KeptFacts(u.children, Survivors(n.queries, roots));
      if u.parent.Some? {
        assert ChildrenPointBack(n, u.parent.value);
        assert u.parent.value in m.queries;
        KeptFacts(n.queries[u.parent.value].children, Survivors(n.queries, roots));
      }
    }
  }

  lemma PruneKeepsQueue(n: Net, off: set<QueryId>, roots: set<QueryId>, queue: seq<QueryId>, st: QueryState)
    requires OnQueue(n, off, queue, st)
    ensures OnQueue(Prune(n, roots), off * Survivors(n.queries, roots), Kept(queue, Survivors(n.queries, roots)), st)
  {
    KeptFacts(queue, Survivors(n.queries, roots));
  }

  lemma PruneKeepsRows(n: Net, off: set<QueryId>, cfg: Config, roots: set<QueryId>)
    requires Family(n) && RowsOk(n, off, cfg)
    requires forall r | r in roots && r in n.queries && n.queries[r].parent.Some? :: n.queries[r].parent.value in off
    ensures RowsOk(Prune(n, roots), off * Survivors(n.queries, roots), cfg)
  {
    var m := Prune(n, roots);
    forall q | q in m.queries && q !in off
      ensures RowOk(m.queries[q])
    {
      assert RowOk(n.queries[q]);
      var u := n.queries[q];
      KeptFacts(u.children, Survivors(n.queries, roots));
      if u.state == ChildWait {
        assert ChildrenPointBack(n, q);
        var c := u.children[0];
        assert c in u.children && c !in roots;
        assert c in m.queries[q].children;
      }
    }
  }

  /** Cutting subtrees keeps the net consistent when the parents of the cut roots are
      themselves being processed. */
  lemma PruneKeepsConsistent(n: Net, off: set<QueryId>, cfg: Config, roots: set<QueryId>)
    requires Consistent(n, off, cfg)
    requires forall r | r in roots && r in n.queries && n.queries[r].parent.Some? :: n.queries[r].parent.value in off
    ensures Consistent(Prune(n, roots), off * Survivors(n.queries, roots), cfg)
  {
    PruneKeepsFamily(n, roots);
    PruneKeepsRows(n, off, cfg, roots);
    PruneKeepsQueue(n, off, roots, n.udpw, ToSend);
    PruneKeepsQueue(n, off, roots, n.tcpw, TcpWait);
    PruneKeepsQueue(n, off, roots, n.childw, ChildWait);
    PruneKeepsQueue(n, off, roots, n.output, Finished);
  }

  // ---------- linking, unlinking, freeing ----------

  /** LIST_UNLINK from the queue that the query's state names. */
  function Dequeue(n: Net, q: QueryId): (m: Net)
    requires q in n.queries
    ensures m.queries == n.queries
  {
    match n.queries[q].state
    case ToSend => n.(udpw := Unlink(n.udpw, q))
    case TcpWait => n.(tcpw := Unlink(n.tcpw, q))
    case ChildWait => n.(childw := Unlink(n.childw, q))
    case Finished => n.(output := Unlink(n.output, q))
  }

  /** LIST_LINK_TAIL of a query, with its new record, onto the queue that the record's
      state names. */
  function Enqueue(n: Net, q: QueryId, u: Query): Net {
    var qs := n.queries[q := u];
    match u.state
    case ToSend => n.(queries := qs, udpw := n.udpw + [q])
    case TcpWait => n.(queries := qs, tcpw := n.tcpw + [q])
    case ChildWait => n.(queries := qs, childw := n.childw + [q])
    case Finished => n.(queries := qs, output := n.output + [q])
  }

  function WithQuery(n: Net, q: QueryId, u: Query): Net {
    n.(queries := n.queries[q := u])
  }

  /** LIST_UNLINK_PART(parent->children, qu, siblings.).  The C code leaves the parent
      pointer in the dying query, where nothing reads it again. */
  function Orphan(n: Net, q: QueryId): Net
    requires q in n.queries
  {
    n.(queries := map x | x in n.queries :: Orphaned(n.queries, q, x))
  }

  function Orphaned(qs: map<QueryId, Query>, q: QueryId, x: QueryId): Query
    requires q in qs && x in qs
  {
    qs[x].(parent := if x == q then None else qs[x].parent,
           children := if qs[q].parent == Some(x) then Unlink(qs[x].children, q) else qs[x].children)
  }

  function Free(n: Net, q: QueryId): Net {
    n.(queries := n.queries - {q})
  }

  lemma DequeueKeepsQueue(n: Net, off: set<QueryId>, queue: seq<QueryId>, st: QueryState, q: QueryId)
    requires OnQueue(n, off, queue, st) && q in n.queries && q !in off
    ensures OnQueue(Dequeue(n, q), off + {q}, if n.queries[q].state == st then Unlink(queue, q) else queue, st)
  {
    UnlinkFacts(queue, q);
  }

  lemma DequeueKeepsConsistent(n: Net, off: set<QueryId>, cfg: Config, q: QueryId)
    requires Consistent(n, off, cfg) && q in n.queries && q !in off
    ensures Consistent(Dequeue(n, q), off + {q}, cfg)
  {
    FamilyIsAboutQueries(n, Dequeue(n, q));
    DequeueKeepsQueue(n, off, n.udpw, ToSend, q);
    DequeueKeepsQueue(n, off, n.tcpw, TcpWait, q);
    DequeueKeepsQueue(n, off, n.childw, ChildWait, q);
    DequeueKeepsQueue(n, off, n.output, Finished, q);
  }

  lemma NoDupAppend<T>(s: seq<T>, x: T)
    requires NoDup(s) && x !in s
    ensures NoDup(s + [x])
  {
  }

  /** Same place in the family and still unfinished: what a change to one record must
      respect for the family to stay intact. */
  ghost predicate SameKin(u: Query, v: Query) {
    u.parent == v.parent && u.children == v.children && u.callback == v.callback &&
    (u.state != Finished ==> v.state != Finished || u.parent == None)
  }

  lemma WithQueryKeepsFamily(n: Net, q: QueryId, v: Query)
    requires Family(n) && q in n.queries && SameKin(n.queries[q], v)
    ensures Family(WithQuery(n, q, v))
  {
    var m := WithQuery(n, q, v);
    forall x | x in m.queries ensures ChildrenPointBack(m, x) && ParentListsChild(m, x) {
      assert ChildrenPointBack(n, x) && ParentListsChild(n, x);
    }
  }

  lemma EnqueueKeepsQueue(n: Net, off: set<QueryId>, q: QueryId, v: Query, queue: seq<QueryId>, st: QueryState)
    requires OnQueue(n, off, queue, st) && q in off
    ensures OnQueue(Enqueue(n, q, v), off - {q}, if v.state == st then queue + [q] else queue, st)
  {
    NoDupAppend(queue, q);
  }

  lemma EnqueueKeepsConsistent(n: Net, off: set<QueryId>, cfg: Config, q: QueryId, v: Query)
    requires Consistent(n, off, cfg) && q in off
    requires SameKin(n.queries[q], v) && FieldsOk(v, cfg) && RowOk(v)
    ensures Consistent(Enqueue(n, q, v), off - {q}, cfg)
  {
    var m := Enqueue(n, q, v);
    WithQueryKeepsFamily(n, q, v);
    FamilyIsAboutQueries(WithQuery(n, q, v), m);
    EnqueueKeepsQueue(n, off, q, v, n.udpw, ToSend);
    EnqueueKeepsQueue(n, off, q, v, n.tcpw, TcpWait);
    EnqueueKeepsQueue(n, off, q, v, n.childw, ChildWait);
    EnqueueKeepsQueue(n, off, q, v, n.output, Finished);
    assert Queued(m, off - {q});
    assert RowsOk(m, off - {q}, cfg);
  }

  lemma FamilyIsAboutQueries(n: Net, m: Net)
    requires Family(n) && m.queries == n.queries
    ensures Family(m)
  {
    forall x | x in m.queries ensures ChildrenPointBack(m, x) && ParentListsChild(m, x) {
      assert ChildrenPointBack(n, x) && ParentListsChild(n, x);
    }
  }

  /** A query being processed may be edited freely within its family place. */
  lemma EditKeepsConsistent(n: Net, off: set<QueryId>, cfg: Config, q: QueryId, v: Query)
    requires Consistent(n, off, cfg) && q in off
    requires SameKin(n.queries[q], v) && v.state != Finished && FieldsOk(v, cfg)
    ensures Consistent(WithQuery(n, q, v), off, cfg)
  {
    WithQueryKeepsFamily(n, q, v);
  }

  lemma OrphanChildren(n: Net, q: QueryId, x: QueryId)
    requires Family(n) && q in n.queries && x in n.queries
    ensures ChildrenPointBack(Orphan(n, q), x)
  {
    assert ChildrenPointBack(n, x) && ParentListsChild(n, q);
    UnlinkFacts(n.queries[x].children, q);
  }

  lemma OrphanParent(n: Net, q: QueryId, x: QueryId)
    requires Family(n) && q in n.queries && x in n.queries
    ensures ParentListsChild(Orphan(n, q), x)
  {
    assert ParentListsChild(n, x);
    if x != q && n.queries[x].parent.Some? {
      var p := n.queries[x].parent.value;
      assert ChildrenPointBack(n, p);
      UnlinkFacts(n.queries[p].children, q);
    }
  }

  lemma OrphanKeepsFamily(n: Net, q: QueryId)
    requires Family(n) && q in n.queries
    ensures Family(Orphan(n, q))
  {
    forall x | x in n.queries
      ensures ChildrenPointBack(Orphan(n, q), x) && ParentListsChild(Orphan(n, q), x)
    {
      OrphanChildren(n, q, x);
      OrphanParent(n, q, x);
    }
  }

  lemma OrphanKeepsConsistent(n: Net, off: set<QueryId>, cfg: Config, q: QueryId)
    requires Consistent(n, off, cfg) && q in n.queries
    requires n.queries[q].parent.Some? ==> n.queries[q].parent.value in off
    ensures Consistent(Orphan(n, q), off, cfg)
  {
    OrphanKeepsFamily(n, q);
    var m := Orphan(n, q);
    SameStatesStayQueued(n, m, off);
    OrphanKeepsRows(n, off, cfg, q);
  }

  lemma OrphanKeepsRows(n: Net, off: set<QueryId>, cfg: Config, q: QueryId)
    requires RowsOk(n, off, cfg) && q in n.queries
    requires n.queries[q].parent.Some? ==> n.queries[q].parent.value in off
    ensures RowsOk(Orphan(n, q), off, cfg)
  {
    forall x | x in n.queries && x !in off ensures RowOk(Orphan(n, q).queries[x]) {
      assert RowOk(n.queries[x]);
    }
  }

  lemma SameStatesStayQueued(n: Net, m: Net, off: set<QueryId>)
    requires Queued(n, off)
    requires m.udpw == n.udpw && m.tcpw == n.tcpw && m.childw == n.childw && m.output == n.output
    requires m.queries.Keys == n.queries.Keys
    requires forall x | x in n.queries :: m.queries[x].state == n.queries[x].state
    ensures Queued(m, off)
  {
    assert forall x :: x in m.queries <==> x in n.queries;
  }

  /** Taking q out of its sibling list and its queue. */
  function Detach(n: Net, q: QueryId): Net
    requires q in n.queries
  {
    Dequeue(Orphan(n, q), q)
  }

  ghost function Kids(n: Net, q: QueryId): set<QueryId>
    requires q in n.queries
  {
    set c | c in n.queries[q].children
  }

  /** Being below q is being q or being below one of its children. */
  lemma {:induction false} DoomedByChildren(n: Net, q: QueryId, d: QueryId)
    requires Family(n) && q in n.queries && d in n.queries
    ensures Doomed(n.queries, {q}, d) <==> d == q || Doomed(Detach(n, q).queries, Kids(n, q), d)
    ensures Doomed(n.queries, {q}, d) <==> d == q || Doomed(n.queries, Kids(n, q), d)
    decreases d
  {
    var qs := Detach(n, q).queries;
    assert ParentListsChild(n, d) && ChildrenPointBack(n, q);
    if d != q {
      assert qs[d].parent == n.queries[d].parent;
      var p := n.queries[d].parent;
      if p.Some? && p.value < d {
        DoomedByChildren(n, q, p.value);
      }
    }
  }

  /** Every list of the detached net is the old list without q. */
  lemma DetachDrops(n: Net, off: set<QueryId>, cfg: Config, q: QueryId)
    requires Consistent(n, off, cfg) && q in n.queries && q !in off
    requires n.queries[q].parent.Some? ==> n.queries[q].parent.value in off
    ensures var m := Detach(n, q);
      var rest := n.queries.Keys - {q};
      m.queries.Keys == n.queries.Keys &&
      m.udpw == Kept(n.udpw, rest) && m.tcpw == Kept(n.tcpw, rest) &&
      m.childw == Kept(n.childw, rest) && m.output == Kept(n.output, rest)
  {
    var rest := n.queries.Keys - {q};
    var m := Detach(n, q);
    QueueDrops(n, off, n.udpw, ToSend, q);
    QueueDrops(n, off, n.tcpw, TcpWait, q);
    QueueDrops(n, off, n.childw, ChildWait, q);
    QueueDrops(n, off, n.output, Finished, q);
  }

  lemma QueueDrops(n: Net, off: set<QueryId>, queue: seq<QueryId>, st: QueryState, q: QueryId)
    requires OnQueue(n, off, queue, st) && q in n.queries && q !in off
    ensures Unlink(queue, q) == Kept(queue, n.queries.Keys - {q})
    ensures n.queries[q].state != st ==> Unlink(queue, q) == queue
  {
    UnlinkIsKept(queue, q, n.queries.Keys - {q});
    UnlinkFacts(queue, q);
  }

  lemma DetachDropsChild(n: Net, q: QueryId, d: QueryId)
    requires Family(n) && q in n.queries && d in n.queries && d != q
    ensures Detach(n, q).queries[d] ==
      n.queries[d].(children := Kept(n.queries[d].children, n.queries.Keys - {q}))
  {
    var kids := n.queries[d].children;
    assert Detach(n, q).queries == Orphan(n, q).queries;
    assert ChildrenPointBack(n, d) && ParentListsChild(n, q);
    UnlinkIsKept(kids, q, n.queries.Keys - {q});
    UnlinkFacts(kids, q);
  }

  lemma DetachSurvivors(n: Net, q: QueryId)
    requires Family(n) && q in n.queries
    ensures Survivors(n.queries, {q}) == (n.queries.Keys - {q}) * Survivors(Detach(n, q).queries, Kids(n, q))
    ensures Survivors(n.queries, {q}) == Survivors(Detach(n, q).queries, Kids(n, q)) - {q}
  {
    forall d | d in n.queries
      ensures d in Survivors(n.queries, {q}) <==> d in Survivors(Detach(n, q).queries, Kids(n, q)) && d != q
    {
      DoomedByChildren(n, q, d);
    }
  }

  lemma DetachPruneAt(n: Net, q: QueryId, d: QueryId)
    requires Family(n) && q in n.queries && d in Survivors(n.queries, {q})
    ensures d in Prune(Detach(n, q), Kids(n, q)).queries
    ensures Prune(Detach(n, q), Kids(n, q)).queries[d] == Prune(n, {q}).queries[d]
  {
    DetachSurvivors(n, q);
    DetachDropsChild(n, q, d);
    KeptKept(n.queries[d].children, n.queries.Keys - {q}, Survivors(Detach(n, q).queries, Kids(n, q)));
  }

  lemma DetachPruneQueries(n: Net, q: QueryId)
    requires Family(n) && q in n.queries
    ensures Free(Prune(Detach(n, q), Kids(n, q)), q).queries == Prune(n, {q}).queries
  {
    var r := Free(Prune(Detach(n, q), Kids(n, q)), q).queries;
    var s := Prune(n, {q}).queries;
    DetachPruneKeys(n, q);
    forall d | d in s.Keys ensures r[d] == s[d] {
      DetachPruneAt(n, q, d);
    }
    MapsEqual(r, s);
  }

  lemma DetachPruneKeys(n: Net, q: QueryId)
    requires Family(n) && q in n.queries
    ensures Free(Prune(Detach(n, q), Kids(n, q)), q).queries.Keys == Prune(n, {q}).queries.Keys
  {
    DetachSurvivors(n, q);
  }

  lemma MapsEqual<K, V>(a: map<K, V>, b: map<K, V>)
    requires a.Keys == b.Keys
    requires forall k | k in b.Keys :: a[k] == b[k]
    ensures a == b
  {
  }

  /** Detaching q, cutting its children and freeing it cuts exactly the subtree of q. */
  lemma DetachPruneFree(n: Net, off: set<QueryId>, cfg: Config, q: QueryId)
    requires Consistent(n, off, cfg) && q in n.queries && q !in off
    requires n.queries[q].parent.Some? ==> n.queries[q].parent.value in off
    ensures Free(Prune(Detach(n, q), Kids(n, q)), q) == Prune(n, {q})
  {
    var rest := n.queries.Keys - {q};
    var keys1 := Survivors(Detach(n, q).queries, Kids(n, q));
    DetachDrops(n, off, cfg, q);
    DetachSurvivors(n, q);
    DetachPruneQueries(n, q);
    KeptKept(n.udpw, rest, keys1);
    KeptKept(n.tcpw, rest, keys1);
    KeptKept(n.childw, rest, keys1);
    KeptKept(n.output, rest, keys1);
  }

  lemma CutAt(n: Net, q: QueryId, d: QueryId)
    requires Family(n) && q in n.queries && d in Survivors(n.queries, {q})
    requires q in Survivors(n.queries, Kids(n, q))
    ensures d in Survivors(n.queries, Kids(n, q))
    ensures Orphaned(Prune(n, Kids(n, q)).queries, q, d) == Prune(n, {q}).queries[d]
  {
    DoomedByChildren(n, q, d);
    var kept := Survivors(n.queries, Kids(n, q));
    var keys := Survivors(n.queries, {q});
    CutSurvivors(n, q);
    var kids := n.queries[d].children;
    assert ChildrenPointBack(n, d) && ParentListsChild(n, q);
    KeptFacts(kids, kept);
    if n.queries[q].parent == Some(d) {
      UnlinkIsKept(Kept(kids, kept), q, keys);
      KeptKept(kids, kept, keys);
      assert kept * keys == keys;
    } else {
      KeptAgree(kids, kept, keys);
    }
  }

  lemma CutSurvivors(n: Net, q: QueryId)
    requires Family(n) && q in n.queries
    ensures Survivors(n.queries, {q}) == Survivors(n.queries, Kids(n, q)) - {q}
  {
    forall d | d in n.queries
      ensures d in Survivors(n.queries, {q}) <==> d in Survivors(n.queries, Kids(n, q)) && d != q
    {
      DoomedByChildren(n, q, d);
    }
  }

  /** For a query on no queue, cutting its children first and then taking it out of its
      sibling list and freeing it cuts exactly its subtree. */
  lemma CutOrphanFree(n: Net, off: set<QueryId>, q: QueryId)
    requires Family(n) && Queued(n, off) && q in off && q in Survivors(n.queries, Kids(n, q))
    ensures Free(Orphan(Prune(n, Kids(n, q)), q), q) == Prune(n, {q})
  {
    var kept := Survivors(n.queries, Kids(n, q));
    var keys := Survivors(n.queries, {q});
    CutSurvivors(n, q);
    KeptAgree(n.udpw, kept, keys);
    KeptAgree(n.tcpw, kept, keys);
    KeptAgree(n.childw, kept, keys);
    KeptAgree(n.output, kept, keys);
    var r := Free(Orphan(Prune(n, Kids(n, q)), q), q).queries;
    var s := Prune(n, {q}).queries;
    assert r.Keys == s.Keys;
    forall d | d in s.Keys ensures r[d] == s[d] {
      CutAt(n, q, d);
    }
    MapsEqual(r, s);
  }

  lemma OrphanRoot(n: Net, q: QueryId)
    requires q in n.queries && n.queries[q].parent == None
    ensures Orphan(n, q) == n
  {
    assert Orphan(n, q).queries == n.queries;
  }

  // ---------- completing: adns__query_done ----------

  datatype Verdict = Waits | Completes | Fails(status: Status)

  /** icb_hostaddr and icb_ptr: what a parent does once one child, already taken off its
      list of children, has finished. */
  function Consult(parent: Query, child: Query): Verdict {
    match child.callback
    case Ptr =>
      if child.status == StNxDomain || child.status == StNoData then Fails(StInconsistent)
      else if child.status != StOk then Fails(child.status)
      else if parent.queried !in child.addrs then Fails(StInconsistent)
      else if parent.children == [] then Completes
      else Waits
    case _ =>
      if parent.children != [] then Waits else Completes
  }

  /** What the parent's callback sees: the finished child and its subtree are gone, and the
      parent is off the childw queue. */
  ghost function Notified(n: Net, q: QueryId, p: QueryId): Net {
    var cut := Prune(n, {q});
    cut.(childw := Unlink(cut.childw, p))
  }

  /** adns__reset_preserved and the status: what adns__query_fail does before
      adns__query_done. */
  ghost function Reset(n: Net, q: QueryId, st: Status): Net
    requires q in n.queries
  {
    WithQuery(Prune(n, Kids(n, q)), q, n.queries[q].(children := [], status := st, addrs := []))
  }

  /** The parent on its way to adns__query_done or adns__query_fail. */
  ghost function Judged(n: Net, p: QueryId, verdict: Verdict): Net
    requires p in n.queries
  {
    if verdict.Fails? then Reset(n, p, verdict.status) else n
  }

  /** The callback of q run on its parent p: back to childw, or on to completion. */
  ghost function ParentTurn(n: Net, q: QueryId, p: QueryId): Net
    requires q in n.queries && p in Survivors(n.queries, {q})
  {
    var m := Notified(n, q, p);
    var verdict := Consult(m.queries[p], n.queries[q]);
    if verdict.Waits? then m.(childw := m.childw + [p]) else Judged(m, p, verdict)
  }

  /** The parent goes back to wait for its other children. */
  ghost predicate ParentStaysWaiting(n: Net, q: QueryId, p: QueryId)
    requires q in n.queries && p in Survivors(n.queries, {q})
  {
    Consult(Notified(n, q, p).queries[p], n.queries[q]).Waits?
  }

  /** adns__query_done on a query that is being processed: its children go, and either it
      reaches the output queue, or it goes too and its parent waits on or finishes in turn. */
  ghost function Complete(n: Net, q: QueryId): Net
    requires q in n.queries
    decreases q
  {
    var u := n.queries[q];
    if u.parent.Some? && u.parent.value < q && u.parent.value in Survivors(n.queries, {q}) then
      var p := u.parent.value;
      if ParentStaysWaiting(n, q, p) then ParentTurn(n, q, p) else Complete(ParentTurn(n, q, p), p)
    else
      Enqueue(Prune(n, Kids(n, q)), q, u.(state := Finished, id := -1, children := []))
  }

  /** adns__query_fail */
  ghost function Fail(n: Net, q: QueryId, st: Status): Net
    requires q in n.queries
  {
    Complete(Reset(n, q, st), q)
  }

  /** In a consistent net the parent of a processed query waits on childw and outlives it. */
  lemma ParentWaits(n: Net, cfg: Config, q: QueryId)
    requires Consistent(n, {q}, cfg) && n.queries[q].parent.Some?
    ensures var p := n.queries[q].parent.value;
      p < q && p in n.queries && n.queries[p].state == ChildWait && p in Survivors(n.queries, {q})
  {
    var p := n.queries[q].parent.value;
    assert ParentListsChild(n, q);
    assert ChildrenPointBack(n, p);
    assert RowOk(n.queries[p]);
    if Doomed(n.queries, {q}, p) {
      DoomedIsLater(n.queries, {q}, p, q);
    }
  }

  lemma UnlinkKept<T>(s: seq<T>, x: T, keys: set<T>)
    requires NoDup(s)
    ensures Unlink(Kept(s, keys), x) == Kept(Unlink(s, x), keys)
  {
    var rest := (set y | y in s) - {x};
    KeptFacts(s, keys);
    UnlinkIsKept(s, x, rest);
    UnlinkIsKept(Kept(s, keys), x, rest);
    KeptKept(s, keys, rest);
    KeptKept(s, rest, keys);
    assert keys * rest == rest * keys;
  }

  lemma NotifiedIsPrune(n: Net, q: QueryId, p: QueryId)
    requires NoDup(n.childw) && p in n.queries && n.queries[p].state == ChildWait
    ensures Prune(Dequeue(n, p), {q}) == Notified(n, q, p)
  {
    UnlinkKept(n.childw, p, Survivors(n.queries, {q}));
  }

  lemma NotifiedKeepsConsistent(n: Net, cfg: Config, q: QueryId)
    requires Consistent(n, {q}, cfg) && n.queries[q].parent.Some?
    ensures var p := n.queries[q].parent.value;
      Consistent(Notified(n, q, p), {p}, cfg) && p in Notified(n, q, p).queries
  {
    var p := n.queries[q].parent.value;
    ParentWaits(n, cfg, q);
    DequeueKeepsConsistent(n, {q}, cfg, p);
    PruneKeepsConsistent(Dequeue(n, p), {q} + {p}, cfg, {q});
    NotifiedIsPrune(n, q, p);
    assert ({q} + {p}) * Survivors(n.queries, {q}) == {p};
  }

  lemma CutChildren(n: Net, off: set<QueryId>, cfg: Config, q: QueryId)
    requires Consistent(n, off, cfg) && q in off && forall o | o in off :: o <= q
    ensures Consistent(Prune(n, Kids(n, q)), off, cfg)
    ensures off <= Survivors(n.queries, Kids(n, q))
    ensures Prune(n, Kids(n, q)).queries[q] == n.queries[q].(children := [])
  {
    assert ChildrenPointBack(n, q);
    forall o | o in off ensures o in Survivors(n.queries, Kids(n, q)) {
      if Doomed(n.queries, Kids(n, q), o) {
        DoomedIsLater(n.queries, Kids(n, q), o, q + 1);
      }
    }
    PruneKeepsConsistent(n, off, cfg, Kids(n, q));
    assert off * Survivors(n.queries, Kids(n, q)) == off;
    var k := Kept(n.queries[q].children, Survivors(n.queries, Kids(n, q)));
    KeptFacts(n.queries[q].children, Survivors(n.queries, Kids(n, q)));
    if k != [] {
      assert k[0] in k;
      assert Doomed(n.queries, Kids(n, q), k[0]);
    }
  }

  lemma JudgedKeepsConsistent(n: Net, cfg: Config, p: QueryId, verdict: Verdict)
    requires Consistent(n, {p}, cfg) && n.queries[p].state != Finished
    ensures Consistent(Judged(n, p, verdict), {p}, cfg)
    ensures Judged(n, p, verdict).queries[p].state != Finished
  {
    if verdict.Fails? {
      ResetKeepsConsistent(n, cfg, p, verdict.status);
    }
  }

  lemma ResetKeepsConsistent(n: Net, cfg: Config, q: QueryId, st: Status)
    requires Consistent(n, {q}, cfg) && n.queries[q].state != Finished
    ensures Consistent(Reset(n, q, st), {q}, cfg)
  {
    CutChildren(n, {q}, cfg, q);
    EditKeepsConsistent(Prune(n, Kids(n, q)), {q}, cfg, q, n.queries[q].(children := [], status := st, addrs := []));
  }

  lemma RelinkKeepsConsistent(n: Net, cfg: Config, p: QueryId)
    requires Consistent(n, {p}, cfg) && n.queries[p].state == ChildWait && RowOk(n.queries[p])
    ensures Consistent(n.(childw := n.childw + [p]), {}, cfg)
  {
    EnqueueKeepsConsistent(n, {p}, cfg, p, n.queries[p]);
    assert n.queries[p := n.queries[p]] == n.queries;
    assert {p} - {p} == {};
  }

  lemma ParentTurnKeepsConsistent(n: Net, cfg: Config, q: QueryId)
    requires Consistent(n, {q}, cfg) && n.queries[q].parent.Some?
    ensures n.queries[q].parent.value < q && n.queries[q].parent.value in Survivors(n.queries, {q})
    ensures var p := n.queries[q].parent.value;
      p in ParentTurn(n, q, p).queries &&
      ParentTurn(n, q, p).queries[p].state == ChildWait &&
      (ParentStaysWaiting(n, q, p) ==> Consistent(ParentTurn(n, q, p), {}, cfg)) &&
      (!ParentStaysWaiting(n, q, p) ==> Consistent(ParentTurn(n, q, p), {p}, cfg))
  {
    var p := n.queries[q].parent.value;
    var m := Notified(n, q, p);
    ParentWaits(n, cfg, q);
    NotifiedParent(n, cfg, q);
    NotifiedKeepsConsistent(n, cfg, q);
    TurnKeepsConsistent(n, cfg, q, p);
  }

  lemma NotifiedParent(n: Net, cfg: Config, q: QueryId)
    requires Consistent(n, {q}, cfg) && n.queries[q].parent.Some?
    ensures var p := n.queries[q].parent.value;
      var m := Notified(n, q, p);
      p in m.queries && m.queries[p].state == ChildWait && (m.queries[p].children != [] ==> RowOk(m.queries[p]))
  {
    ParentWaits(n, cfg, q);
    assert RowOk(n.queries[n.queries[q].parent.value]);
  }

  /** A finished child leaves its sibling list and is freed; its parent p comes off childw.
      The C code frees the child after the callback, which only reads its answer. */
  function LeaveParent(n: Net, q: QueryId, p: QueryId): Net
    requires q in n.queries
  {
    var freed := Free(Orphan(n, q), q);
    freed.(childw := Unlink(freed.childw, p))
  }

  /** Where the callback of a finished child leads, from a net in which its parent p is being
      processed. */
  ghost function CallbackResult(m: Net, p: QueryId, child: Query): Net
    requires p in m.queries
  {
    var verdict := Consult(m.queries[p], child);
    if verdict.Waits? then m.(childw := m.childw + [p]) else Complete(Judged(m, p, verdict), p)
  }

  /** The steps of adns__query_done on a child lead its parent to the callback, whose
      outcome is the outcome of the completion. */
  lemma CompleteAtParent(n: Net, cfg: Config, q: QueryId)
    requires Consistent(n, {q}, cfg) && n.queries[q].parent.Some?
    requires q in Survivors(n.queries, Kids(n, q))
    ensures var p := n.queries[q].parent.value;
      var m := LeaveParent(Prune(n, Kids(n, q)), q, p);
      p < q && p in m.queries && m.queries.Keys <= n.queries.Keys &&
      m.queries[p].state == ChildWait && Consistent(m, {p}, cfg) &&
      Complete(n, q) == CallbackResult(m, p, n.queries[q])
  {
    var p := n.queries[q].parent.value;
    CutOrphanFree(n, {q}, q);
    ParentWaits(n, cfg, q);
    NotifiedParent(n, cfg, q);
    NotifiedKeepsConsistent(n, cfg, q);
    CompleteUnfolds(n, q, p);
  }

  lemma CompleteNext(n: Net, q: QueryId, p: QueryId)
    requires q in n.queries && n.queries[q].parent == Some(p) && p < q && p in Survivors(n.queries, {q})
    ensures Complete(n, q) == if ParentStaysWaiting(n, q, p) then ParentTurn(n, q, p) else Complete(ParentTurn(n, q, p), p)
  {
    hide ParentTurn, ParentStaysWaiting, Survivors;
  }

  lemma CompleteUnfolds(n: Net, q: QueryId, p: QueryId)
    requires q in n.queries && n.queries[q].parent == Some(p) && p < q && p in Survivors(n.queries, {q})
    ensures Complete(n, q) == CallbackResult(Notified(n, q, p), p, n.queries[q])
  {
  }

  lemma TurnKeepsConsistent(n: Net, cfg: Config, q: QueryId, p: QueryId)
    requires q in n.queries && p in Survivors(n.queries, {q})
    requires Consistent(Notified(n, q, p), {p}, cfg) && Notified(n, q, p).queries[p].state == ChildWait
    requires Notified(n, q, p).queries[p].children != [] ==> RowOk(Notified(n, q, p).queries[p])
    ensures p in ParentTurn(n, q, p).queries && ParentTurn(n, q, p).queries[p].state == ChildWait
    ensures ParentStaysWaiting(n, q, p) ==> Consistent(ParentTurn(n, q, p), {}, cfg)
    ensures !ParentStaysWaiting(n, q, p) ==> Consistent(ParentTurn(n, q, p), {p}, cfg)
  {
    var m := Notified(n, q, p);
    if ParentStaysWaiting(n, q, p) {
      RelinkKeepsConsistent(m, cfg, p);
    } else {
      JudgedKeepsConsistent(m, cfg, p, Consult(m.queries[p], n.queries[q]));
    }
  }

  lemma CompleteRoot(n: Net, cfg: Config, q: QueryId)
    requires Consistent(n, {q}, cfg) && n.queries[q].parent.None?
    ensures Consistent(Complete(n, q), {}, cfg)
  {
    CutChildren(n, {q}, cfg, q);
    var v := n.queries[q].(state := Finished, id := -1, children := []);
    EnqueueKeepsConsistent(Prune(n, Kids(n, q)), {q}, cfg, q, v);
    assert {q} - {q} == {};
  }

  /** Completion leaves no query in limbo: the net is consistent with every query back on
      the queue its state names. */
  lemma {:induction false} CompleteKeepsConsistent(n: Net, cfg: Config, q: QueryId)
    requires Consistent(n, {q}, cfg) && n.queries[q].state != Finished
    ensures Consistent(Complete(n, q), {}, cfg)
    decreases q
  {
    hide Complete, ParentTurn, ParentStaysWaiting, Survivors, Family, RowsOk;
    if n.queries[q].parent.None? {
      CompleteRoot(n, cfg, q);
    } else {
      var p := n.queries[q].parent.value;
      ParentTurnKeepsConsistent(n, cfg, q);
      CompleteNext(n, q, p);
      if !ParentStaysWaiting(n, q, p) {
        CompleteKeepsConsistent(ParentTurn(n, q, p), cfg, p);
      }
    }
  }

  lemma FailKeepsConsistent(n: Net, cfg: Config, q: QueryId, st: Status)
    requires Consistent(n, {q}, cfg) && n.queries[q].state != Finished
    ensures Consistent(Fail(n, q, st), {}, cfg)
  {
    ResetKeepsConsistent(n, cfg, q, st);
    CompleteKeepsConsistent(Reset(n, q, st), cfg, q);
  }

  // ---------- what completion and cancellation leave alone ----------

  /** The queries the user submitted and has not yet collected. */
  ghost function Roots(n: Net): set<QueryId> {
    set q | q in n.queries && n.queries[q].parent.None?
  }

  /** Nothing joined udpw or tcpw, and what still waits there was not touched. */
  ghost predicate WaitersUntouched(n: Net, m: Net) {
    && (forall x | x in m.udpw :: x in n.udpw && x in n.queries && x in m.queries && m.queries[x] == n.queries[x])
    && TcpUntouched(n, m)
  }

  ghost predicate TcpUntouched(n: Net, m: Net) {
    forall x | x in m.tcpw :: x in n.tcpw && x in n.queries && x in m.queries && m.queries[x] == n.queries[x]
  }

  lemma UntouchedIsNotOverdue(n: Net, m: Net, now: Timeval)
    requires WaitersUntouched(n, m)
    ensures NoNewOverdue(n, m, now)
  {
  }

  /** From n to m, queries only finished or vanished: no query the user waits for is lost,
      the waiting ones were left alone and results were appended to the output queue. */
  ghost predicate Settled(n: Net, m: Net) {
    && m.queries.Keys <= n.queries.Keys
    && WaitersUntouched(n, m)
    && Roots(m) == Roots(n)
    && n.output <= m.output
    && SearchKept(n, m)
    && LonersKept(n, m)
  }

  /** A query of the user without children that waits for an answer or is finished. */
  ghost predicate Loner(n: Net, q: QueryId) {
    q in n.queries && n.queries[q].parent.None? && n.queries[q].children == [] &&
    (q in n.udpw || q in n.tcpw || q in n.output)
  }

  ghost predicate Stays(n: Net, m: Net, q: QueryId)
    requires q in n.queries
  {
    q in m.queries && m.queries[q] == n.queries[q] &&
    (q in n.udpw ==> q in m.udpw) && (q in n.tcpw ==> q in m.tcpw) && (q in n.output ==> q in m.output)
  }

  /** Such queries are nobody else's business: they stay where and as they are. */
  ghost predicate LonersKept(n: Net, m: Net) {
    forall q | Loner(n, q) :: Stays(n, m, q)
  }

  lemma LonersKeptTwice(n: Net, m: Net, k: Net)
    requires LonersKept(n, m) && LonersKept(m, k)
    ensures LonersKept(n, k)
  {
    forall q | Loner(n, q) ensures Stays(n, k, q) {
      assert Stays(n, m, q) && Loner(m, q);
    }
  }

  /** No query turned into a search-list query. */
  ghost predicate SearchKept(n: Net, m: Net) {
    forall x | x in m.queries && m.queries[x].search :: x in n.queries && n.queries[x].search
  }

  lemma SettledTwice(n: Net, m: Net, k: Net)
    requires Settled(n, m) && Settled(m, k)
    ensures Settled(n, k)
  {
    LonersKeptTwice(n, m, k);
    hide LonersKept;
  }

  lemma PruneSettles(n: Net, off: set<QueryId>, cfg: Config, roots: set<QueryId>)
    requires Consistent(n, off, cfg)
    requires forall r | r in roots && r in n.queries :: n.queries[r].parent.Some?
    ensures Settled(n, Prune(n, roots))
    ensures Prune(n, roots).output == n.output
  {
    var keys := Survivors(n.queries, roots);
    PruneLeavesWaiters(n, off, cfg, roots);
    KeptFacts(n.output, keys);
    forall x | x in n.output ensures x in keys {
      assert RowOk(n.queries[x]);
    }
    PruneKeepsLoners(n, roots);
  }

  lemma PruneKeepsLoners(n: Net, roots: set<QueryId>)
    requires forall r | r in roots && r in n.queries && Loner(n, r) :: n.queries[r].parent.Some?
    ensures LonersKept(n, Prune(n, roots))
  {
    var keys := Survivors(n.queries, roots);
    KeptFacts(n.udpw, keys);
    KeptFacts(n.tcpw, keys);
    KeptFacts(n.output, keys);
  }

  lemma PruneLeavesWaiters(n: Net, off: set<QueryId>, cfg: Config, roots: set<QueryId>)
    requires Queued(n, off) && RowsOk(n, off, cfg)
    ensures WaitersUntouched(n, Prune(n, roots))
  {
    var keys := Survivors(n.queries, roots);
    KeptFacts(n.udpw, keys);
    KeptFacts(n.tcpw, keys);
    forall x | x in n.udpw || x in n.tcpw ensures x in n.queries && n.queries[x].children == [] {
      assert RowOk(n.queries[x]);
    }
  }

  lemma EditSettles(n: Net, q: QueryId, v: Query)
    requires q in n.queries && v.parent == n.queries[q].parent && q !in n.udpw && q !in n.tcpw && q !in n.output
    requires v.search == n.queries[q].search
    requires forall x | x in n.udpw || x in n.tcpw :: x in n.queries
    ensures Settled(n, WithQuery(n, q, v))
  {
    assert Roots(WithQuery(n, q, v)) == Roots(n);
  }

  lemma EnqueueFinishedSettles(n: Net, cfg: Config, q: QueryId, v: Query)
    requires Consistent(n, {q}, cfg) && v.parent == n.queries[q].parent && v.state == Finished
    requires v.search == n.queries[q].search
    ensures Settled(n, Enqueue(n, q, v))
  {
    EditSettles(n, q, v);
  }

  lemma CompleteRootSettles(n: Net, cfg: Config, q: QueryId)
    requires Consistent(n, {q}, cfg) && n.queries[q].parent.None?
    ensures Settled(n, Complete(n, q)) && Complete(n, q).output == n.output + [q]
    ensures q in Complete(n, q).queries && Complete(n, q).queries[q].state == Finished
  {
    hide Prune, RowsOk, Settled;
    assert ChildrenPointBack(n, q);
    CutChildren(n, {q}, cfg, q);
    PruneSettles(n, {q}, cfg, Kids(n, q));
    var v := n.queries[q].(state := Finished, id := -1, children := []);
    EnqueueFinishedSettles(Prune(n, Kids(n, q)), cfg, q, v);
    SettledTwice(n, Prune(n, Kids(n, q)), Complete(n, q));
  }

  /** The root of the tree that q belongs to. */
  ghost function Root(qs: map<QueryId, Query>, q: QueryId): QueryId
    decreases q
  {
    if q in qs && qs[q].parent.Some? && qs[q].parent.value < q then Root(qs, qs[q].parent.value) else q
  }

  /** Completing q settles the net; if it completes the whole tree of q, then the result
      queued is that of the query the user submitted. */
  lemma {:induction false} CompleteSettles(n: Net, cfg: Config, q: QueryId)
    requires Consistent(n, {q}, cfg) && n.queries[q].state != Finished
    ensures Settled(n, Complete(n, q))
    ensures q in Complete(n, q).queries ==> Complete(n, q).queries[q].state == Finished
    ensures Complete(n, q).output == n.output || Complete(n, q).output == n.output + [Root(n.queries, q)]
    decreases q
  {
    if n.queries[q].parent.None? {
      CompleteRootSettles(n, cfg, q);
    } else {
      var p := n.queries[q].parent.value;
      ParentTurnKeepsConsistent(n, cfg, q);
      ParentTurnSettles(n, cfg, q);
      if !ParentStaysWaiting(n, q, p) {
        CompleteSettles(ParentTurn(n, q, p), cfg, p);
        SettledTwice(n, ParentTurn(n, q, p), Complete(ParentTurn(n, q, p), p));
        RootSurvives(n, cfg, q);
      }
    }
  }

  lemma ParentTurnSettles(n: Net, cfg: Config, q: QueryId)
    requires Consistent(n, {q}, cfg) && n.queries[q].parent.Some?
    requires n.queries[q].parent.value in Survivors(n.queries, {q})
    ensures var m := ParentTurn(n, q, n.queries[q].parent.value);
      Settled(n, m) && m.output == n.output && q !in m.queries
  {
    var p := n.queries[q].parent.value;
    var m := Notified(n, q, p);
    NotifiedSettles(n, cfg, q);
    NotifiedKeepsConsistent(n, cfg, q);
    JudgedSettles(m, cfg, p, Consult(m.queries[p], n.queries[q]));
    SettledTwice(n, m, ParentTurn(n, q, p));
  }

  lemma CutIsGone(n: Net, q: QueryId)
    requires q in n.queries
    ensures q !in Prune(n, {q}).queries
  {
  }

  /** The queue of those who wait for children does not matter here. */
  lemma ChildwAside(n: Net, m: Net, k: Net)
    requires Settled(n, m) && k == m.(childw := k.childw)
    ensures Settled(n, k)
  {
    hide LonersKept;
    KeptBesideChildw(n, m, k);
  }

  lemma KeptBesideChildw(n: Net, m: Net, k: Net)
    requires LonersKept(n, m) && k == m.(childw := k.childw)
    ensures LonersKept(n, k)
  {
    forall q | Loner(n, q) ensures Stays(n, k, q) {
      assert Stays(n, m, q);
    }
  }

  lemma NotifiedSettles(n: Net, cfg: Config, q: QueryId)
    requires Consistent(n, {q}, cfg) && n.queries[q].parent.Some?
    ensures var m := Notified(n, q, n.queries[q].parent.value);
      Settled(n, m) && m.output == n.output && q !in m.queries
  {
    hide Prune;
    var p := n.queries[q].parent.value;
    PruneSettles(n, {q}, cfg, {q});
    assert q !in Prune(n, {q}).queries by {
      CutIsGone(n, q);
    }
    ChildwAside(n, Prune(n, {q}), Notified(n, q, p));
  }

  lemma JudgedSettles(n: Net, cfg: Config, p: QueryId, verdict: Verdict)
    requires Consistent(n, {p}, cfg)
    ensures Settled(n, Judged(n, p, verdict)) && Judged(n, p, verdict).output == n.output
    ensures Settled(n, n.(childw := n.childw + [p]))
  {
    hide Settled, Consistent, Reset;
    SettledSelf(n, {p}, cfg);
    ChildwAside(n, n, n.(childw := n.childw + [p]));
    if verdict.Fails? {
      ResetSettles(n, cfg, p, verdict.status);
    }
  }

  lemma SettledSelf(n: Net, off: set<QueryId>, cfg: Config)
    requires Consistent(n, off, cfg)
    ensures Settled(n, n)
  {
  }

  lemma ResetSettles(n: Net, cfg: Config, q: QueryId, st: Status)
    requires Consistent(n, {q}, cfg)
    ensures Settled(n, Reset(n, q, st)) && Reset(n, q, st).output == n.output
  {
    hide Prune, RowsOk, Settled;
    var m := Prune(n, Kids(n, q));
    assert ChildrenPointBack(n, q);
    CutChildren(n, {q}, cfg, q);
    PruneSettles(n, {q}, cfg, Kids(n, q));
    EditSettles(m, q, n.queries[q].(children := [], status := st, addrs := []));
    SettledTwice(n, m, Reset(n, q, st));
  }

  /** Failing a query that the user submitted: it goes to the output queue with that status. */
  lemma FailRoot(n: Net, cfg: Config, q: QueryId, st: Status)
    requires Consistent(n, {q}, cfg) && n.queries[q].parent == None && n.queries[q].state != Finished
    ensures q in Fail(n, q, st).queries
    ensures Fail(n, q, st).queries[q] == n.queries[q].(children := [], status := st, addrs := [], state := Finished, id := -1)
  {
    assert q in n.queries;
    hide Consistent, Prune, Kids;
    var r := Reset(n, q, st);
    ResetKeepsConsistent(n, cfg, q, st);
    CompleteRootSettles(r, cfg, q);
    assert r.queries[q] == n.queries[q].(children := [], status := st, addrs := []);
    CompleteRootRecord(r, q);
  }

  lemma CompleteRootRecord(n: Net, q: QueryId)
    requires q in n.queries && n.queries[q].parent == None
    ensures q in Complete(n, q).queries && Complete(n, q).queries[q] == n.queries[q].(state := Finished, id := -1, children := [])
  {
    hide Prune;
  }

  /** A record that is replaced before the query is linked leaves no trace. */
  lemma EnqueueOver(n: Net, q: QueryId, u: Query, v: Query)
    ensures Enqueue(WithQuery(n, q, u), q, v) == Enqueue(n, q, v)
    ensures WithQuery(WithQuery(n, q, u), q, v) == WithQuery(n, q, v)
    ensures q in n.queries ==> WithQuery(n, q, n.queries[q]) == n
  {
    assert n.queries[q := u][q := v] == n.queries[q := v];
    assert q in n.queries ==> n.queries[q := n.queries[q]] == n.queries;
  }

  // ---------- search-list queries on tcpw ----------

  /** The search-list queries that wait for an answer over TCP. */
  ghost function TcpSearches(n: Net): set<QueryId> {
    set q | q in n.tcpw && q in n.queries && n.queries[q].search
  }

  /** A query of the user without children that waits for an answer over UDP, or is finished. */
  ghost predicate Aside(n: Net, q: QueryId) {
    Loner(n, q) && q !in n.tcpw
  }

  /** From n to m, except perhaps for those in s: no search-list query joined tcpw, and the
      queries of the user that wait for an answer over UDP or are finished stay as they are. */
  ghost predicate OnlyTouches(n: Net, m: Net, s: set<QueryId>) {
    TcpSearches(m) <= TcpSearches(n) + s &&
    forall q | Aside(n, q) && q !in s :: Stays(n, m, q) && q !in m.tcpw
  }

  lemma OnlyTouchesTwice(n: Net, m: Net, k: Net, s: set<QueryId>)
    requires OnlyTouches(n, m, s) && OnlyTouches(m, k, s)
    ensures OnlyTouches(n, k, s)
  {
    forall q | Aside(n, q) && q !in s ensures Stays(n, k, q) && q !in k.tcpw {
      assert Stays(n, m, q) && Aside(m, q);
    }
  }

  lemma OnlyTouchesSelf(n: Net)
    ensures OnlyTouches(n, n, {})
  {
  }

  lemma SettledJoins(n: Net, m: Net, s: set<QueryId>)
    requires TcpUntouched(n, m) && LonersKept(n, m)
    ensures OnlyTouches(n, m, s)
  {
  }

  lemma OnlyRetriesJoins(n: Net, m: Net, s: set<QueryId>)
    requires OnlyRetries(n, m)
    ensures OnlyTouches(n, m, s)
  {
  }

  /** Linking q, and charging whoever waits, lets no other query join. */
  lemma EnqueueJoins(n: Net, m: Net, q: QueryId, u: Query)
    requires OnlyRetries(Enqueue(n, q, u), m)
    ensures OnlyTouches(n, m, {q})
  {
    EnqueueSearches(n, q, u);
    OnlyRetriesJoins(Enqueue(n, q, u), m, {});
    forall x | Aside(n, x) && x != q ensures Stays(n, m, x) && x !in m.tcpw {
      assert Aside(Enqueue(n, q, u), x);
    }
  }

  lemma EnqueueSearches(n: Net, q: QueryId, u: Query)
    ensures TcpSearches(Enqueue(n, q, u)) <= TcpSearches(n) + {q}
    ensures !u.search ==> TcpSearches(Enqueue(n, q, u)) <= TcpSearches(n)
  {
  }

  lemma {:induction false} RootOfPruned(n: Net, roots: set<QueryId>, x: QueryId)
    requires x in Survivors(n.queries, roots)
    ensures Root(Prune(n, roots).queries, x) == Root(n.queries, x)
    decreases x
  {
    var p := n.queries[x].parent;
    if p.Some? && p.value < x {
      if p.value in n.queries {
        RootOfPruned(n, roots, p.value);
      }
    }
  }

  lemma {:induction false} RootOfSameParents(a: map<QueryId, Query>, b: map<QueryId, Query>, x: QueryId)
    requires a.Keys == b.Keys && forall y | y in a :: a[y].parent == b[y].parent
    ensures Root(a, x) == Root(b, x)
    decreases x
  {
    if x in a && a[x].parent.Some? && a[x].parent.value < x {
      RootOfSameParents(a, b, a[x].parent.value);
    }
  }

  lemma RootSurvives(n: Net, cfg: Config, q: QueryId)
    requires Consistent(n, {q}, cfg) && n.queries[q].parent.Some? && n.queries[q].parent.value < q
    requires n.queries[q].parent.value in Survivors(n.queries, {q})
    ensures var p := n.queries[q].parent.value;
      Root(ParentTurn(n, q, p).queries, p) == Root(n.queries, q)
  {
    var p := n.queries[q].parent.value;
    var m := Notified(n, q, p);
    RootOfPruned(n, {q}, p);
    NotifiedKeepsConsistent(n, cfg, q);
    ResetKeepsRoot(m, cfg, p, Consult(m.queries[p], n.queries[q]));
  }

  lemma ResetKeepsRoot(n: Net, cfg: Config, p: QueryId, verdict: Verdict)
    requires Consistent(n, {p}, cfg)
    ensures Root(Judged(n, p, verdict).queries, p) == Root(n.queries, p)
  {
    if verdict.Fails? {
      CutChildren(n, {p}, cfg, p);
      ResetSameRoot(n, p, verdict.status);
    }
  }

  lemma ResetSameRoot(n: Net, p: QueryId, st: Status)
    requires p in n.queries && p in Survivors(n.queries, Kids(n, p))
    ensures Root(Reset(n, p, st).queries, p) == Root(n.queries, p)
  {
    RootOfPruned(n, Kids(n, p), p);
    RootOfSameParents(Prune(n, Kids(n, p)).queries, Reset(n, p, st).queries, p);
  }

  lemma FailSettles(n: Net, cfg: Config, q: QueryId, st: Status)
    requires Consistent(n, {q}, cfg) && n.queries[q].state != Finished
    ensures Settled(n, Fail(n, q, st))
    ensures q in Fail(n, q, st).queries ==> Fail(n, q, st).queries[q].state == Finished
  {
    ResetKeepsConsistent(n, cfg, q, st);
    ResetSettles(n, cfg, q, st);
    CompleteSettles(Reset(n, q, st), cfg, q);
    SettledTwice(n, Reset(n, q, st), Fail(n, q, st));
  }

  /** adns_check on an arbitrary query never overlooks the childw queue: if nothing waits
      for the network, nothing waits for a child either. */
  lemma NothingWaitsForChildren(n: Net, cfg: Config)
    requires Consistent(n, {}, cfg)
    requires n.udpw == [] && n.tcpw == []
    ensures n.childw == []
  {
    if n.childw != [] {
      var last := LatestOf(n.childw);
      LatestHasLaterChild(n, cfg, last);
    }
  }

  lemma LatestHasLaterChild(n: Net, cfg: Config, last: QueryId)
    requires Consistent(n, {}, cfg) && n.udpw == [] && n.tcpw == [] && last in n.childw
    ensures exists c :: c in n.childw && c > last
  {
    assert RowOk(n.queries[last]) && ChildrenPointBack(n, last);
    var c := n.queries[last].children[0];
    assert c in n.queries[last].children;
    assert c in n.childw;
  }

  lemma LatestOf(s: seq<QueryId>) returns (last: QueryId)
    requires s != []
    ensures last in s && forall x | x in s :: x <= last
  {
    last := s[0];
    for i := 1 to |s|
      invariant last in s && forall j | 0 <= j < i :: s[j] <= last
    {
      if s[i] > last {
        last := s[i];
      }
    }
  }

  // ---------- new queries, and the records of waiting ones ----------

  /** query_alloc: a virgin query, on no queue. */
  lemma AllocKeepsConsistent(n: Net, off: set<QueryId>, cfg: Config, q: QueryId, u: Query)
    requires Consistent(n, off, cfg) && q !in n.queries
    requires u.parent == None && u.children == [] && FieldsOk(u, cfg)
    ensures Consistent(WithQuery(n, q, u), off + {q}, cfg)
  {
    var m := WithQuery(n, q, u);
    forall x | x in m.queries ensures ChildrenPointBack(m, x) && ParentListsChild(m, x) {
      if x != q {
        assert ChildrenPointBack(n, x) && ParentListsChild(n, x);
      }
    }
    AllocKeepsQueue(n, off, q, u, n.udpw, ToSend);
    AllocKeepsQueue(n, off, q, u, n.tcpw, TcpWait);
    AllocKeepsQueue(n, off, q, u, n.childw, ChildWait);
    AllocKeepsQueue(n, off, q, u, n.output, Finished);
  }

  lemma AllocKeepsQueue(n: Net, off: set<QueryId>, q: QueryId, u: Query, queue: seq<QueryId>, st: QueryState)
    requires OnQueue(n, off, queue, st) && q !in n.queries
    ensures OnQueue(WithQuery(n, q, u), off + {q}, queue, st)
  {
  }

  /** The last lines of pap_hostaddr and pa_ptr: the submitted child gets its parent. */
  function Adopt(n: Net, p: QueryId, c: QueryId): Net
    requires p in n.queries && c in n.queries
  {
    var qs := n.queries[c := n.queries[c].(parent := Some(p))];
    n.(queries := qs[p := qs[p].(children := qs[p].children + [c])])
  }

  lemma AdoptChildren(n: Net, p: QueryId, c: QueryId, x: QueryId)
    requires Family(n) && p in n.queries && c in n.queries && p < c && x in n.queries
    requires n.queries[c].parent == None && n.queries[c].state != Finished
    ensures ChildrenPointBack(Adopt(n, p, c), x)
  {
    assert ChildrenPointBack(n, x) && ChildrenPointBack(n, p);
    if x == p {
      NoDupAppend(n.queries[p].children, c);
    }
  }

  lemma AdoptKeepsFamily(n: Net, p: QueryId, c: QueryId)
    requires Family(n) && p in n.queries && c in n.queries && p < c
    requires n.queries[c].parent == None && n.queries[c].state != Finished && n.queries[c].callback != External
    ensures Family(Adopt(n, p, c))
  {
    var m := Adopt(n, p, c);
    forall x | x in m.queries ensures ChildrenPointBack(m, x) && ParentListsChild(m, x) {
      AdoptChildren(n, p, c, x);
      assert ParentListsChild(n, x);
    }
  }

  lemma AdoptKeepsConsistent(n: Net, off: set<QueryId>, cfg: Config, p: QueryId, c: QueryId)
    requires Consistent(n, off, cfg) && p in off && c in n.queries && p < c
    requires n.queries[c].parent == None && n.queries[c].state != Finished && n.queries[c].callback != External
    ensures Consistent(Adopt(n, p, c), off, cfg)
  {
    AdoptKeepsFamily(n, p, c);
    SameStatesStayQueued(n, Adopt(n, p, c), off);
    AdoptKeepsRows(n, off, cfg, p, c);
  }

  lemma AdoptKeepsRows(n: Net, off: set<QueryId>, cfg: Config, p: QueryId, c: QueryId)
    requires RowsOk(n, off, cfg) && p in off && p in n.queries && c in n.queries && p != c
    requires n.queries[c].state != Finished
    ensures RowsOk(Adopt(n, p, c), off, cfg)
  {
    forall x | x in n.queries ensures FieldsOk(Adopt(n, p, c).queries[x], cfg) && (x !in off ==> RowOk(Adopt(n, p, c).queries[x])) {
      assert FieldsOk(n.queries[x], cfg) && (x !in off ==> RowOk(n.queries[x]));
    }
  }

  /** Only the retry counts of queries waiting for TCP differ, and they only grew. */
  ghost predicate OnlyRetries(n: Net, m: Net) {
    && m.udpw == n.udpw && m.tcpw == n.tcpw && m.childw == n.childw && m.output == n.output
    && m.queries.Keys == n.queries.Keys
    && forall x | x in n.queries ::
         m.queries[x].retries >= n.queries[x].retries &&
         m.queries[x] == n.queries[x].(retries := m.queries[x].retries) &&
         (x !in n.tcpw ==> m.queries[x] == n.queries[x])
  }

  lemma OnlyRetriesSelf(n: Net)
    ensures OnlyRetries(n, n)
  {
  }

  lemma OnlyRetriesTwice(n: Net, m: Net, k: Net)
    requires OnlyRetries(n, m) && OnlyRetries(m, k)
    ensures OnlyRetries(n, k)
  {
  }

  lemma OnlyRetriesKeepsConsistent(n: Net, m: Net, off: set<QueryId>, cfg: Config)
    requires Consistent(n, off, cfg) && OnlyRetries(n, m)
    ensures Consistent(m, off, cfg) && Roots(m) == Roots(n)
  {
    SameStatesStayQueued(n, m, off);
    forall x | x in m.queries ensures ChildrenPointBack(m, x) && ParentListsChild(m, x) {
      assert ChildrenPointBack(n, x) && ParentListsChild(n, x);
    }
    OnlyRetriesKeepsRows(n, m, off, cfg);
  }

  lemma OnlyRetriesKeepsRows(n: Net, m: Net, off: set<QueryId>, cfg: Config)
    requires Queued(n, off) && RowsOk(n, off, cfg) && OnlyRetries(n, m)
    ensures RowsOk(m, off, cfg)
  {
    forall x | x in m.queries ensures FieldsOk(m.queries[x], cfg) && (x !in off ==> RowOk(m.queries[x])) {
      assert FieldsOk(n.queries[x], cfg) && (x !in off ==> RowOk(n.queries[x]));
      assert x in n.tcpw ==> n.queries[x].state == TcpWait;
    }
  }

  // ---------- deadlines ----------

  /** Whatever waits in m either waited in n with the same deadline, or is not overdue. */
  ghost predicate NoNewOverdue(n: Net, m: Net, now: Timeval) {
    && (forall x | x in m.udpw :: x in m.queries &&
         ((x in n.udpw && x in n.queries && m.queries[x].timeout == n.queries[x].timeout) ||
          !After(now, m.queries[x].timeout)))
    && (forall x | x in m.tcpw :: x in m.queries &&
         ((x in n.tcpw && x in n.queries && m.queries[x].timeout == n.queries[x].timeout) ||
          !After(now, m.queries[x].timeout)))
  }

  lemma NoNewOverdueTwice(n: Net, m: Net, k: Net, now: Timeval)
    requires NoNewOverdue(n, m, now) && NoNewOverdue(m, k, now)
    ensures NoNewOverdue(n, k, now)
  {
  }

  /** The members of a queue whose deadline has passed. */
  ghost function Overdue(n: Net, queue: seq<QueryId>, now: Timeval): set<QueryId> {
    set x | x in queue && x in n.queries && After(now, n.queries[x].timeout)
  }

  /** The net with one more retry for each of the given queries. */
  ghost function Charged(n: Net, qs: set<QueryId>): Net {
    n.(queries := map x | x in n.queries ::
      if x in qs then n.queries[x].(retries := n.queries[x].retries + 1) else n.queries[x])
  }

  ghost function OnTcpw(n: Net): set<QueryId> {
    set q | q in n.tcpw
  }

  /** The net after every query on tcpw was charged k times. */
  ghost function ChargedTimes(n: Net, k: nat): (m: Net)
    ensures m.tcpw == n.tcpw
  {
    if k == 0 then n else
      var m := ChargedTimes(n, k - 1);
      Charged(m, OnTcpw(m))
  }

  lemma {:induction false} ChargedTimesRetries(n: Net, k: nat, q: QueryId)
    requires q in n.tcpw && q in n.queries
    ensures q in ChargedTimes(n, k).queries && ChargedTimes(n, k).queries[q] == n.queries[q].(retries := n.queries[q].retries + k)
  {
    if k > 0 {
      ChargedTimesRetries(n, k - 1, q);
    }
  }

  /** No query on tcpw has been retried more than k times. */
  ghost predicate RetriedAtMost(n: Net, k: nat) {
    forall q | q in n.tcpw :: q in n.queries && n.queries[q].retries <= k
  }

  /** If all of nservers servers refuse at once, who waits has been retried at most nservers + j
      times exactly when it had been at most j times before; for j = 1 that is the bound of
      check.c. */
  lemma RefusalsKeepBound(n: Net, nservers: nat, j: nat)
    requires forall q | q in n.tcpw :: q in n.queries
    ensures RetriedAtMost(ChargedTimes(n, nservers), nservers + j) <==> RetriedAtMost(n, j)
  {
    forall q | q in n.tcpw
      ensures q in ChargedTimes(n, nservers).queries && ChargedTimes(n, nservers).queries[q].retries == n.queries[q].retries + nservers
    {
      ChargedTimesRetries(n, nservers, q);
    }
  }

  lemma ChargedIsOnlyRetries(n: Net, qs: set<QueryId>)
    requires forall x | x in qs :: x in n.tcpw
    ensures OnlyRetries(n, Charged(n, qs))
  {
  }

  lemma ChargeOneMore(n: Net, qs: set<QueryId>, q: QueryId)
    requires q in n.queries && q !in qs
    ensures var m := Charged(n, qs);
      WithQuery(m, q, m.queries[q].(retries := m.queries[q].retries + 1)) == Charged(n, qs + {q})
  {
    var m := Charged(n, qs);
    assert WithQuery(m, q, m.queries[q].(retries := m.queries[q].retries + 1)).queries == Charged(n, qs + {q}).queries;
  }

  lemma ChargeNone(n: Net)
    ensures Charged(n, {}) == n
  {
    assert Charged(n, {}).queries == n.queries;
  }

  lemma ChargeJust(n: Net, q: QueryId)
    requires q in n.queries
    ensures WithQuery(n, q, n.queries[q].(retries := n.queries[q].retries + 1)) == Charged(n, {q})
  {
    assert WithQuery(n, q, n.queries[q].(retries := n.queries[q].retries + 1)).queries == Charged(n, {q}).queries;
  }

  // ---------- sending ----------

  /** From n to m, the processed query q was put on udpw or tcpw with a fresh deadline; at
      most the retry counts of queries on tcpw changed besides. */
  ghost predicate Posted(n: Net, m: Net, q: QueryId, now: Timeval) {
    && m.queries.Keys == n.queries.Keys && q in n.queries
    && m.childw == n.childw && m.output == n.output
    && SameKin(n.queries[q], m.queries[q]) && m.queries[q].search == n.queries[q].search
    && (m.queries[q].state == ToSend || m.queries[q].state == TcpWait)
    && (forall x | x in n.queries && x != q ::
          m.queries[x] == n.queries[x].(retries := m.queries[x].retries) &&
          (x !in n.tcpw ==> m.queries[x] == n.queries[x]))
    && NoNewOverdue(n, m, now)
  }

  lemma PostedKeepsRoots(n: Net, m: Net, q: QueryId, now: Timeval)
    requires Posted(n, m, q, now)
    ensures Roots(m) == Roots(n)
  {
  }

  lemma EnqueueIsPosted(n: Net, m: Net, q: QueryId, u: Query, now: Timeval)
    requires q in n.queries && SameKin(n.queries[q], u) && !After(now, u.timeout) && u.search == n.queries[q].search
    requires u.state == ToSend || u.state == TcpWait
    requires OnlyRetries(Enqueue(n, q, u), m) && q !in n.udpw && q !in n.tcpw
    requires forall x | x in n.udpw || x in n.tcpw :: x in n.queries
    ensures Posted(n, m, q, now)
  {
    var e := Enqueue(n, q, u);
    assert forall x | x in n.queries && x != q :: e.queries[x] == n.queries[x];
  }

  /** What an event may do to the queries: none that the user waits for is lost or made up,
      nothing overdue is queued, and results already queued stay. */
  ghost predicate Handled(n: Net, m: Net, now: Timeval) {
    Roots(m) == Roots(n) && NoNewOverdue(n, m, now) && n.output <= m.output && SearchKept(n, m)
  }

  lemma HandledTwice(n: Net, m: Net, k: Net, now: Timeval)
    requires Handled(n, m, now) && Handled(m, k, now)
    ensures Handled(n, k, now)
  {
    NoNewOverdueTwice(n, m, k, now);
  }

  lemma SettledIsHandled(n: Net, m: Net, now: Timeval)
    requires Settled(n, m)
    ensures Handled(n, m, now)
  {
    UntouchedIsNotOverdue(n, m, now);
  }

  lemma PostedIsHandled(n: Net, m: Net, q: QueryId, now: Timeval)
    requires Posted(n, m, q, now)
    ensures Handled(n, m, now)
  {
    PostedKeepsRoots(n, m, q, now);
  }

  lemma OnlyRetriesIsHandled(n: Net, m: Net, now: Timeval)
    requires OnlyRetries(n, m) && forall x | x in n.udpw || x in n.tcpw :: x in n.queries
    ensures Handled(n, m, now)
  {
    assert Roots(m) == Roots(n);
  }

  lemma DequeueIsHandled(n: Net, off: set<QueryId>, cfg: Config, q: QueryId, now: Timeval)
    requires Consistent(n, off, cfg) && q in n.queries && n.queries[q].state != Finished
    ensures Handled(n, Dequeue(n, q), now)
  {
    UnlinkFacts(n.udpw, q);
    UnlinkFacts(n.tcpw, q);
  }

  lemma AdoptedRoots(n: Net, m: Net, p: QueryId, c: QueryId, u: Query)
    requires c !in n.queries && p in n.queries && p != c && u.parent == None
    requires m.queries.Keys == n.queries.Keys + {c}
    requires forall x | x in n.queries :: m.queries[x].parent == n.queries[x].parent
    ensures Roots(Adopt(m, p, c)) == Roots(n)
  {
  }

  lemma AdoptNotOverdue(m: Net, p: QueryId, c: QueryId, now: Timeval)
    requires p in m.queries && c in m.queries
    requires forall x | x in m.udpw || x in m.tcpw :: x in m.queries
    ensures NoNewOverdue(m, Adopt(m, p, c), now) && SearchKept(m, Adopt(m, p, c))
  {
  }

  lemma AllocNotOverdue(n: Net, c: QueryId, u: Query, now: Timeval)
    requires c !in n.queries && !u.search
    requires forall x | x in n.udpw || x in n.tcpw :: x in n.queries
    ensures NoNewOverdue(n, WithQuery(n, c, u), now) && SearchKept(n, WithQuery(n, c, u))
  {
  }

  lemma SearchKeptTwice(n: Net, m: Net, k: Net)
    requires SearchKept(n, m) && SearchKept(m, k)
    ensures SearchKept(n, k)
  {
  }

  lemma SpawnedRoots(n: Net, m: Net, p: QueryId, c: QueryId, u: Query, now: Timeval)
    requires c !in n.queries && p in n.queries && u.parent == None && p != c && Posted(WithQuery(n, c, u), m, c, now)
    ensures Roots(Adopt(m, p, c)) == Roots(n) && Adopt(m, p, c).output == n.output
  {
    hide NoNewOverdue;
    var a := WithQuery(n, c, u);
    assert forall x | x in n.queries :: a.queries[x] == n.queries[x];
    AdoptedRoots(n, m, p, c, u);
  }

  /** A child was allocated as c, put on a queue, and adopted by p. */
  lemma SpawnIsHandled(n: Net, m: Net, p: QueryId, c: QueryId, u: Query, now: Timeval)
    requires c !in n.queries && p in n.queries && u.parent == None && !u.search && p != c
    requires forall x | x in n.udpw || x in n.tcpw :: x in n.queries
    requires forall x | x in m.udpw || x in m.tcpw :: x in m.queries
    requires Posted(WithQuery(n, c, u), m, c, now)
    ensures Handled(n, Adopt(m, p, c), now)
  {
    hide NoNewOverdue, SearchKept, Roots, Adopt;
    var a := WithQuery(n, c, u);
    AllocNotOverdue(n, c, u, now);
    PostedIsHandled(a, m, c, now);
    AdoptNotOverdue(m, p, c, now);
    NoNewOverdueTwice(n, a, m, now);
    NoNewOverdueTwice(n, m, Adopt(m, p, c), now);
    SearchKeptTwice(n, a, m);
    SearchKeptTwice(n, m, Adopt(m, p, c));
    SpawnedRoots(n, m, p, c, u, now);
  }

  lemma EnqueueChildwIsHandled(n: Net, q: QueryId, u: Query, now: Timeval)
    requires q in n.queries && q !in n.udpw && q !in n.tcpw && u.parent == n.queries[q].parent && u.state == ChildWait
    requires u.search == n.queries[q].search
    requires forall x | x in n.udpw || x in n.tcpw :: x in n.queries
    ensures Handled(n, Enqueue(n, q, u), now)
  {
    assert Roots(Enqueue(n, q, u)) == Roots(n);
  }

  lemma HandledSelf(n: Net, off: set<QueryId>, cfg: Config, now: Timeval)
    requires Consistent(n, off, cfg)
    ensures Handled(n, n, now)
  {
  }

  lemma DetachRoot(n: Net, q: QueryId)
    requires q in n.queries && Orphan(n, q) == n
    ensures Detach(n, q) == Dequeue(n, q)
  {
  }

  lemma FinishedAlone(n: Net, cfg: Config, q: QueryId)
    requires Consistent(n, {}, cfg) && q in n.queries && n.queries[q].state == Finished
    ensures n.queries[q].parent == None && Kids(n, q) == {} && n.queries.Keys >= {q}
  {
    assert RowOk(n.queries[q]);
  }

  /** Collecting a finished query is cutting a subtree that is only itself. */
  lemma CollectIsPrune(n: Net, cfg: Config, q: QueryId)
    requires Consistent(n, {}, cfg) && q in n.queries && n.queries[q].state == Finished
    ensures Free(Dequeue(n, q), q) == Prune(n, {q})
  {
    FinishedAlone(n, cfg, q);
    hide Consistent, Prune, Dequeue, Orphan, Kids;
    OrphanRoot(n, q);
    DetachPruneFree(n, {}, cfg, q);
    DequeueKeepsConsistent(n, {}, cfg, q);
    DetachRoot(n, q);
    PruneNothing(Dequeue(n, q), {} + {q}, cfg);
  }

  lemma CollectKeepsConsistent(n: Net, cfg: Config, q: QueryId)
    requires Consistent(n, {}, cfg) && q in n.queries && n.queries[q].state == Finished
    ensures Consistent(Free(Dequeue(n, q), q), {}, cfg)
    ensures TcpUntouched(n, Free(Dequeue(n, q), q))
    ensures Roots(Free(Dequeue(n, q), q)) == Roots(n) - {q} && SearchKept(n, Free(Dequeue(n, q), q))
  {
    assert RowOk(n.queries[q]);
    CollectIsPrune(n, cfg, q);
    PruneKeepsConsistent(n, {}, cfg, {q});
    PruneLeavesWaiters(n, {}, cfg, {q});
    assert {} * Survivors(n.queries, {q}) == {};
    PruneRoots(n, q);
  }

  /** Cutting the tree of a root removes that root and no other. */
  lemma PruneRoots(n: Net, q: QueryId)
    requires q in n.queries && n.queries[q].parent == None
    ensures Roots(Prune(n, {q})) == Roots(n) - {q} && SearchKept(n, Prune(n, {q}))
  {
  }

  lemma OnSomeQueue(n: Net, cfg: Config, q: QueryId)
    requires Consistent(n, {}, cfg) && q in n.queries
    ensures q in n.udpw || q in n.tcpw || q in n.childw || q in n.output
  {
  }
}
