/** The operations on the memory of the answers, for all queries of one adns state: any order of
    them keeps the counters right, and then the final copy fits its block. */
module AnswerStore {
  import opened Common
  import opened AnswerMemory

  /** Where a piece of a finished answer lies in its block. */
  datatype Placed = Placed(at: nat, len: nat)

  /** The pointers of a finished answer. */
  datatype Final = Final(
    cname: Option<Placed>, owner: Option<Placed>, table: Option<Placed>, recs: seq<seq<Option<Placed>>>)

  /** What an answer says. */
  datatype Answer = Answer(
    cname: Option<seq<Byte>>, owner: Option<seq<Byte>>, table: Option<seq<Byte>>, recs: seq<seq<Option<seq<Byte>>>>)

  function StringText(heap: Heap, b: Option<BlockId>): Option<seq<Byte>>
    requires StringOk(heap, b)
  {
    if b.None? then None else Some(heap[b.value][..StrSize(heap[b.value])])
  }

  function PartText(heap: Heap, p: Part): (t: Option<seq<Byte>>)
    requires PartOk(heap, p)
    ensures t.None? <==> p.block.None?
    ensures t.Some? ==> 0 < |t.value| <= |heap[p.block.value]|
  {
    if p.block.None? then None
    else if p.Str? then Some(heap[p.block.value][..StrSize(heap[p.block.value])])
    else Some(heap[p.block.value][..p.bytes])
  }

  function RecordText(heap: Heap, r: Record): (t: seq<Option<seq<Byte>>>)
    requires RecordOk(heap, r)
    ensures |t| == |r|
  {
    seq(|r|, j requires 0 <= j < |r| => PartText(heap, r[j]))
  }

  function RecordsText(heap: Heap, recs: seq<Record>): (t: seq<seq<Option<seq<Byte>>>>)
    requires RecordsOk(heap, recs)
    ensures |t| == |recs|
  {
    seq(|recs|, i requires 0 <= i < |recs| => RecordText(heap, recs[i]))
  }

  /** What the answer of u says, with the pointers followed in the heap. */
  function Said(heap: Heap, u: Query): Answer
    requires PointersOk(heap, u)
  {
    Answer(StringText(heap, u.cname), StringText(heap, u.owner),
           if u.table.None? then None else Some(heap[u.table.value]), RecordsText(heap, u.recs))
  }

  /** The piece x of the block a reads t, and lies between low and high. */
  predicate Shows(a: seq<Byte>, low: nat, high: nat, x: Option<Placed>, t: Option<seq<Byte>>) {
    (x.None? <==> t.None?) &&
    (x.Some? ==> low <= x.value.at && x.value.at + x.value.len <= high && x.value.at + x.value.len <= |a| &&
                 a[x.value.at..x.value.at + x.value.len] == t.value)
  }

  ghost predicate ShowsRecord(a: seq<Byte>, low: nat, high: nat, x: seq<Option<Placed>>, t: seq<Option<seq<Byte>>>) {
    |x| == |t| && forall j | 0 <= j < |x| :: Shows(a, low, high, x[j], t[j])
  }

  ghost predicate ShowsRecords(a: seq<Byte>, low: nat, high: nat, x: seq<seq<Option<Placed>>>, t: seq<seq<Option<seq<Byte>>>>) {
    |x| == |t| && forall i | 0 <= i < |x| :: ShowsRecord(a, low, high, x[i], t[i])
  }

  /** The finished answer in the block a says t, and all of it lies behind the first low bytes. */
  ghost predicate ShowsAnswer(a: seq<Byte>, low: nat, high: nat, f: Final, t: Answer) {
    && Shows(a, low, high, f.cname, t.cname) && Shows(a, low, high, f.owner, t.owner)
    && Shows(a, low, high, f.table, t.table) && ShowsRecords(a, low, high, f.recs, t.recs)
  }

  /** The first n bytes are the same. */
  ghost predicate SameUpTo(a: seq<Byte>, b: seq<Byte>, n: nat) {
    |a| == |b| && forall k | 0 <= k < n && k < |a| :: a[k] == b[k]
  }

  lemma StillShows(a: seq<Byte>, b: seq<Byte>, low: nat, high: nat, more: nat, x: Option<Placed>, t: Option<seq<Byte>>)
    requires Shows(a, low, high, x, t) && SameUpTo(a, b, high) && high <= more
    ensures Shows(b, low, more, x, t)
  {
    if x.Some? {
      assert a[x.value.at..x.value.at + x.value.len] == b[x.value.at..x.value.at + x.value.len];
    }
  }

  lemma StillShowsRecord(a: seq<Byte>, b: seq<Byte>, low: nat, high: nat, more: nat, x: seq<Option<Placed>>, t: seq<Option<seq<Byte>>>)
    requires ShowsRecord(a, low, high, x, t) && SameUpTo(a, b, high) && high <= more
    ensures ShowsRecord(b, low, more, x, t)
  {
    hide Shows, SameUpTo;
    forall j | 0 <= j < |x| ensures Shows(b, low, more, x[j], t[j]) {
      StillShows(a, b, low, high, more, x[j], t[j]);
    }
  }

  lemma StillShowsRecords(a: seq<Byte>, b: seq<Byte>, low: nat, high: nat, more: nat, x: seq<seq<Option<Placed>>>, t: seq<seq<Option<seq<Byte>>>>)
    requires ShowsRecords(a, low, high, x, t) && SameUpTo(a, b, high) && high <= more
    ensures ShowsRecords(b, low, more, x, t)
  {
    hide ShowsRecord, SameUpTo;
    forall i | 0 <= i < |x| ensures ShowsRecord(b, low, more, x[i], t[i]) {
      StillShowsRecord(a, b, low, high, more, x[i], t[i]);
    }
  }

  /** The places of a final answer without any. */
  const NOTHING := Final(None, None, None, [])

  /** adns__query_done comes to a query whose records are all there, or which has none. */
  predicate Settled(u: Query) {
    (u.nrrs == u.wanted > 0 && u.table.Some?) || (u.nrrs == 0 && u.table.None?)
  }

  /** The calls that the library makes on the memory of its answers, in whatever order the
      replies and cancellations lead it to. */
  datatype Call =
    | NewCall(rrsz: nat)
    | OwnerCall(q: QueryId, name: seq<Byte>, ok: bool)
    | CnameCall(q: QueryId, name: seq<Byte>, ok: bool)
    | TableCall(q: QueryId, wanted: nat, ok: bool)
    | RecordCall(q: QueryId)
    | StringCall(q: QueryId, text: seq<Byte>, ok: bool)
    | AddressesCall(q: QueryId, bytes: seq<Byte>, ok: bool)
    | ChildCall(q: QueryId)
    | CheckerCall(q: QueryId, rrsz: nat)
    | ReadCall(q: QueryId)
    | HostAddrCall(c: QueryId, tempfail: bool)
    | ResetCall(q: QueryId)
    | CancelCall(q: QueryId)
    | FinalCall(q: QueryId, memory: bool)

  class Store {
    const align: nat
    /** sizeof(adns_answer) and sizeof(adns_rr_addr) */
    const header: nat
    const addrSize: nat

    var queries: map<QueryId, Query>
    var heap: Heap
    var nextQuery: QueryId
    var nextBlock: BlockId

    /** In the final stage: the next free byte of the answer block, and what is left to count. */
    var space: nat
    var left: int

    ghost predicate Valid()
      reads this
    {
      && align > 0 && addrSize > 0
      && AllOk(align, heap, queries) && Apart(queries) && FamilyOk(addrSize, queries)
      && (forall q | q in queries :: q < nextQuery) && (forall b | b in heap :: b < nextBlock)
    }

    constructor (align: nat, header: nat, addrSize: nat)
      requires align > 0 && addrSize > 0
      ensures Valid() && queries == map[] && this.align == align && this.header == header && this.addrSize == addrSize
    {
      this.align, this.header, this.addrSize := align, header, addrSize;
      queries, heap, nextQuery, nextBlock, space, left := map[], map[], 0, 0, 0, 0;
    }

    // ---------- allocating ----------

    static function Fresh(parent: Option<QueryId>, slot: Option<Slot>, rrsz: nat): Query {
      Query(parent, slot, rrsz, 0, 0, {}, None, None, None, 0, 0, [])
    }

    /** query_alloc, for a query of the user. */
    method NewQuery(rrsz: nat) returns (q: QueryId)
      requires Valid()
      modifies `queries, `nextQuery
      ensures Valid() && q == old(nextQuery) && q !in old(queries) && queries == old(queries)[q := Fresh(None, None, rrsz)]
    {
      hide QueryOk, SlotOk, FamilyOk, Apart, AllOk;
      q := nextQuery;
      FreshOk(q, Fresh(None, None, rrsz));
      queries := queries[q := Fresh(None, None, rrsz)];
      nextQuery := nextQuery + 1;
    }

    /** A new query without anything changes nothing for the others. */
    lemma FreshOk(q: QueryId, u: Query)
      requires Valid() && q == nextQuery && u == Fresh(u.parent, u.slot, u.rrsz)
      requires u.slot.None? || u.parent.Some?
      requires u.parent.Some? ==> u.parent.value in queries
      requires u.slot.Some? ==> u.rrsz == addrSize && SlotOk(queries[u.parent.value], u.slot.value)
      requires u.slot.Some? ==> forall c | c in queries && queries[c].parent == u.parent :: queries[c].slot != u.slot
      ensures AllOk(align, heap, queries[q := u]) && Apart(queries[q := u]) && FamilyOk(addrSize, queries[q := u])
    {
      hide QueryOk, SlotOk;
      NothingOk(u);
      var ns := queries[q := u];
      forall c | c in ns && ns[c].parent.Some? ensures ChildOk(addrSize, ns, c) {
        if c != q {
          assert ChildOk(addrSize, queries, c);
        }
      }
    }

    lemma NothingOk(u: Query)
      requires align > 0 && u == Fresh(u.parent, u.slot, u.rrsz)
      ensures QueryOk(align, heap, u)
    {
    }

    /** The record of q changes, its blocks do not. */
    method Set(q: QueryId, v: Query)
      requires Valid() && q in queries && QueryOk(align, heap, v) && SlotsKept(queries[q], v)
      requires v.parent == queries[q].parent && v.slot == queries[q].slot && v.rrsz == queries[q].rrsz
      requires v.allocations == queries[q].allocations
      modifies `queries
      ensures Valid() && queries == old(queries)[q := v]
    {
      hide QueryOk, SlotsKept, FamilyOk;
      UpdatedFamily(addrSize, queries, q, v);
      AgreesWithItself();
      UpdatedBlocks(align, heap, heap, queries, q, v);
      queries := queries[q := v];
    }

    lemma AgreesWithItself()
      requires Valid()
      ensures forall r | r in queries :: Agree(heap, heap, queries[r].allocations)
    {
      hide PointersOk, OwnedOnce, Counted;
    }

    /** adns__alloc_interim, with what is then copied into the block. */
    method AllocInterim(q: QueryId, c: seq<Byte>) returns (b: BlockId)
      requires Valid() && q in queries && c != []
      modifies `queries, `heap, `nextBlock
      ensures Valid() && b == old(nextBlock) && b !in old(heap) && heap == old(heap)[b := c]
      ensures queries == old(queries)[q := Allocated(align, old(queries)[q], b, |c|)]
    {
      hide QueryOk, FamilyOk, Round;
      b := nextBlock;
      ghost var v := Allocated(align, queries[q], b, |c|);
      Unreached(align, heap, queries[q], b, c, Round(align, |c|));
      SlotsOfSame(queries[q], v);
      UpdatedFamily(addrSize, queries, q, v);
      NewBlock(b, c);
      UpdatedBlocks(align, heap, heap[b := c], queries, q, v);
      queries := queries[q := Allocated(align, queries[q], b, |c|)];
      heap := heap[b := c];
      nextBlock := nextBlock + 1;
    }

    static lemma SlotsOfSame(u: Query, v: Query)
      requires u.recs == v.recs
      ensures SlotsKept(u, v)
    {
    }

    lemma NewBlock(b: BlockId, c: seq<Byte>)
      requires Valid() && b !in heap
      ensures forall r | r in queries :: Agree(heap, heap[b := c], queries[r].allocations) && b !in queries[r].allocations
    {
      hide PointersOk, OwnedOnce, Counted;
    }

    /** adns__alloc_preserved */
    method AllocPreserved(q: QueryId, c: seq<Byte>) returns (b: BlockId)
      requires Valid() && q in queries && c != []
      modifies `queries, `heap, `nextBlock
      ensures Valid() && b == old(nextBlock) && b !in old(heap) && heap == old(heap)[b := c]
      ensures queries == old(queries)[q := Preserved(align, old(queries)[q], b, |c|)]
    {
      hide QueryOk, FamilyOk, Round;
      ghost var u := queries[q];
      b := AllocInterim(q, c);
      var v := queries[q].(preserved := queries[q].preserved + Round(align, |c|));
      MorePreserved(align, heap, queries[q], v);
      SlotsOfSame(queries[q], v);
      Set(q, v);
    }

    /** save_owner; malloc may fail. */
    method SaveOwner(q: QueryId, name: seq<Byte>, ok: bool)
      requires Valid() && q in queries && queries[q].owner.None?
      modifies `queries, `heap, `nextBlock
      ensures Valid() && (!ok ==> queries == old(queries) && heap == old(heap))
      ensures ok ==> heap == old(heap)[old(nextBlock) := name + [0]]
      ensures ok ==>
        queries == old(queries)[q := Preserved(align, old(queries)[q], old(nextBlock), |name| + 1).(owner := Some(old(nextBlock)))]
    {
      hide QueryOk, FamilyOk, Round;
      if ok {
        OwnerReached(align, heap, queries[q], nextBlock, name + [0]);
        var b := AllocPreserved(q, name + [0]);
        SlotsOfSame(queries[q], queries[q].(owner := Some(b)));
        Set(q, queries[q].(owner := Some(b)));
      }
    }

    /** The canonical name of the answer, in adns__procdgram. */
    method SaveCname(q: QueryId, name: seq<Byte>, ok: bool)
      requires Valid() && q in queries && queries[q].cname.None?
      modifies `queries, `heap, `nextBlock
      ensures Valid() && (!ok ==> queries == old(queries) && heap == old(heap))
      ensures ok ==> heap == old(heap)[old(nextBlock) := name + [0]]
      ensures ok ==>
        queries == old(queries)[q := Preserved(align, old(queries)[q], old(nextBlock), |name| + 1).(cname := Some(old(nextBlock)))]
    {
      hide QueryOk, FamilyOk, Round;
      if ok {
        CnameReached(align, heap, queries[q], nextBlock, name + [0]);
        var b := AllocPreserved(q, name + [0]);
        SlotsOfSame(queries[q], queries[q].(cname := Some(b)));
        Set(q, queries[q].(cname := Some(b)));
      }
    }

    /** The table for the records that are wanted. */
    method AllocRecords(q: QueryId, wanted: nat, ok: bool)
      requires Valid() && q in queries && queries[q].table.None? && queries[q].rrsz * wanted > 0
      modifies `queries, `heap, `nextBlock
      ensures Valid() && (!ok ==> queries == old(queries) && heap == old(heap))
      ensures ok ==> heap == old(heap)[old(nextBlock) := Zeros(old(queries)[q].rrsz * wanted)]
      ensures ok ==>
        queries == old(queries)[q := Allocated(align, old(queries)[q], old(nextBlock), old(queries)[q].rrsz * wanted).(
          table := Some(old(nextBlock)), wanted := wanted)]
    {
      hide QueryOk, FamilyOk, Round;
      if ok {
        var c := Zeros(queries[q].rrsz * wanted);
        TableReached(align, heap, queries[q], nextBlock, c, wanted);
        var b := AllocInterim(q, c);
        SlotsOfSame(queries[q], queries[q].(table := Some(b), wanted := wanted));
        Set(q, queries[q].(table := Some(b), wanted := wanted));
      }
    }

    static function Zeros(n: nat): (s: seq<Byte>)
      ensures |s| == n
    {
      seq(n, _ => 0)
    }

    /** The parser of the record type comes to the next record. */
    method BeginRecord(q: QueryId)
      requires Valid() && q in queries && queries[q].table.Some? && |queries[q].recs| < queries[q].wanted && queries[q].nrrs == 0
      modifies `queries
      ensures Valid() && queries == old(queries)[q := old(queries)[q].(recs := old(queries)[q].recs + [[]])]
    {
      hide QueryOk, FamilyOk;
      RecordBegun(align, heap, queries[q]);
      Set(q, queries[q].(recs := queries[q].recs + [[]]));
    }

    /** It stores one part of the record, a string or a table, in a block of its own. */
    method AddPart(q: QueryId, p: Part, c: seq<Byte>, ok: bool)
      requires Valid() && q in queries && queries[q].recs != [] && queries[q].nrrs == 0
      requires p.block == Some(nextBlock) && (if p.Str? then 0 in c else 0 < p.bytes <= |c|)
      modifies `queries, `heap, `nextBlock
      ensures Valid() && (!ok ==> queries == old(queries) && heap == old(heap))
      ensures ok ==> heap == old(heap)[old(nextBlock) := c]
      ensures ok ==>
        queries == old(queries)[q := Allocated(align, old(queries)[q], old(nextBlock), |c|).(recs := WithPart(old(queries)[q].recs, p))]
    {
      hide QueryOk, FamilyOk, Round;
      if ok {
        PartReached(align, heap, queries[q], nextBlock, c, p);
        SlotsOfMore(queries[q].recs, p);
        var b := AllocInterim(q, c);
        Set(q, queries[q].(recs := WithPart(queries[q].recs, p)));
      }
    }

    static lemma SlotsOfMore(recs: seq<Record>, p: Part)
      requires recs != []
      ensures forall u: Query, v: Query | u.recs == recs && v.recs == WithPart(recs, p) :: SlotsKept(u, v)
    {
    }

    /** pap_hostaddr: the addresses are not in the datagram, so a child will have to find them;
        they will go into the part that is now added. */
    method AddChild(q: QueryId) returns (c: QueryId)
      requires Valid() && q in queries && queries[q].recs != [] && queries[q].nrrs == 0
      modifies `queries, `nextQuery
      ensures Valid() && c == old(nextQuery)
      ensures var u := old(queries)[q];
        queries == old(queries)[q := u.(recs := WithPart(u.recs, Tab(None, 0 - addrSize)))]
          [c := Fresh(Some(q), Some(Slot(|u.recs| - 1, |u.recs[|u.recs| - 1]|)), addrSize)]
    {
      hide QueryOk;
      ghost var u := queries[q];
      var s := Slot(|queries[q].recs| - 1, |queries[q].recs[|queries[q].recs| - 1]|);
      NotYet(q, s);
      PartPending(align, heap, queries[q], Tab(None, 0 - addrSize));
      SlotsOfMore(queries[q].recs, Tab(None, 0 - addrSize));
      Set(q, queries[q].(recs := WithPart(queries[q].recs, Tab(None, 0 - addrSize))));
      c := nextQuery;
      FreshOk(c, Fresh(Some(q), Some(s), addrSize));
      queries := queries[c := Fresh(Some(q), Some(s), addrSize)];
      nextQuery := nextQuery + 1;
    }

    /** A place that is not there yet is the slot of nobody. */
    lemma NotYet(q: QueryId, s: Slot)
      requires Valid() && q in queries && queries[q].recs != []
      requires s == Slot(|queries[q].recs| - 1, |queries[q].recs[|queries[q].recs| - 1]|)
      ensures forall c | c in queries && queries[c].parent == Some(q) :: queries[c].slot != Some(s)
    {
      hide QueryOk;
      forall c | c in queries && queries[c].parent == Some(q) ensures queries[c].slot != Some(s) {
        assert ChildOk(addrSize, queries, c);
      }
    }

    /** A child that is not to fill anything: icb_ptr. */
    method AddChecker(q: QueryId, rrsz: nat) returns (c: QueryId)
      requires Valid() && q in queries
      modifies `queries, `nextQuery
      ensures Valid() && c == old(nextQuery) && queries == old(queries)[c := Fresh(Some(q), None, rrsz)]
    {
      hide QueryOk, SlotOk, FamilyOk, Apart, AllOk;
      c := nextQuery;
      FreshOk(c, Fresh(Some(q), None, rrsz));
      queries := queries[c := Fresh(Some(q), None, rrsz)];
      nextQuery := nextQuery + 1;
    }

    /** All records have been read. */
    method RecordsDone(q: QueryId)
      requires Valid() && q in queries && queries[q].table.Some? && |queries[q].recs| == queries[q].wanted
      modifies `queries
      ensures Valid() && queries == old(queries)[q := old(queries)[q].(nrrs := old(queries)[q].wanted)]
    {
      hide QueryOk, FamilyOk;
      ghost var v := queries[q].(nrrs := queries[q].wanted);
      DoneOk(queries[q]);
      SlotsOfSame(queries[q], v);
      Set(q, queries[q].(nrrs := queries[q].wanted));
    }

    lemma DoneOk(u: Query)
      requires align > 0 && QueryOk(align, heap, u) && u.table.Some? && |u.recs| == u.wanted
      ensures QueryOk(align, heap, u.(nrrs := u.wanted))
    {
      hide Round;
      assert Reached(u.(nrrs := u.wanted)) == Reached(u);
    }

    // ---------- giving up and handing over ----------

    /** adns_cancel, with everything below: their memory is freed, and nothing that is left
        points to it. */
    method Cancel(q: QueryId)
      requires Valid()
      modifies `queries, `heap
      ensures Valid() && queries == Without(old(queries), q) && heap == Freed(old(heap), queries)
    {
      hide QueryOk, FamilyOk, Apart;
      WithoutOk(align, addrSize, heap, queries, q);
      queries := Without(queries, q);
      heap := Freed(heap, queries);
    }

    /** adns__reset_preserved: the children are cancelled and the records forgotten; what was
        preserved stays. */
    method Reset(q: QueryId)
      requires Valid() && q in queries
      modifies `queries, `heap
      ensures Valid() && queries == Childless(old(queries), q)[q := Forgotten(old(queries)[q])]
    {
      hide QueryOk, FamilyOk, Forgotten;
      CancelChildren(q);
      ForgottenOk(align, heap, queries[q]);
      ForgottenFamily(q);
      AgreesWithItself();
      UpdatedBlocks(align, heap, heap, queries, q, Forgotten(queries[q]));
      queries := queries[q := Forgotten(queries[q])];
    }

    method CancelChildren(q: QueryId)
      requires Valid() && q in queries
      modifies `queries, `heap
      ensures Valid() && queries == Childless(old(queries), q) && heap == Freed(old(heap), queries)
      ensures q in queries && queries[q] == old(queries)[q] && forall c | c in queries :: queries[c].parent != Some(q)
    {
      hide QueryOk, FamilyOk, Apart;
      ChildlessOk(align, addrSize, heap, queries, q);
      queries := Childless(queries, q);
      heap := Freed(heap, queries);
    }

    /** A query without children may lose its records. */
    lemma ForgottenFamily(q: QueryId)
      requires Valid() && q in queries && forall c | c in queries :: queries[c].parent != Some(q)
      ensures FamilyOk(addrSize, queries[q := Forgotten(queries[q])])
    {
      hide QueryOk, SlotOk;
      var ns := queries[q := Forgotten(queries[q])];
      forall c | c in ns && ns[c].parent.Some? ensures ChildOk(addrSize, ns, c) {
        assert ChildOk(addrSize, queries, c);
      }
    }

    /** The parent v of a child u after icb_hostaddr: the table that the child has, if any, is in
        the slot, and what was counted for it there is now counted here. */
    function Adopted(v: Query, u: Query, bytes: int): Query
      requires align > 0 && u.slot.Some? && SlotOk(v, u.slot.value) && (u.table.Some? ==> bytes > 0)
    {
      var w := v.(recs := Filled(v.recs, u.slot.value, Tab(u.table, bytes)));
      if u.table.None? then w else Allocated(align, w, u.table.value, bytes)
    }

    function Bytes(u: Query, tempfail: bool): int {
      (if tempfail then -1 else u.nrrs as int) * addrSize
    }

    /** icb_hostaddr on a finished child: the addresses that it found, if any, move with their
        block into the slot of its parent, and then the child and all below it are freed. */
    method HostAddrDone(c: QueryId, tempfail: bool)
      requires Valid() && c in queries && queries[c].parent.Some? && queries[c].slot.Some?
      requires Settled(queries[c]) && (tempfail ==> queries[c].table.None?)
      modifies `queries, `heap
      ensures Valid() && MovedUp(old(queries), queries, c, Bytes(old(queries)[c], tempfail))
      ensures old(queries)[c].table.Some? ==> KeepsBlock(old(heap), heap, old(queries)[c].table.value)
    {
      hide QueryOk, FamilyOk, Apart, AllOk, Filled, Round, SlotOk, Freed, Without, Adopted, Allocated, Bytes;
      SlotOfChild(c);
      BytesFound(queries[c], tempfail);
      if queries[c].table.None? {
        DropChild(c, Bytes(queries[c], tempfail));
      } else {
        TransferUp(c);
      }
    }

    /** The child has no addresses to give. */
    method DropChild(c: QueryId, bytes: int)
      requires Valid() && c in queries && queries[c].parent.Some? && queries[c].slot.Some? && queries[c].table.None?
      modifies `queries, `heap
      ensures Valid() && MovedUp(old(queries), queries, c, bytes)
    {
      hide QueryOk, FamilyOk, Apart, AllOk, Filled, Round, SlotOk, Freed, Without, Adopted, Allocated;
      var u := queries[c];
      var p := u.parent.value;
      SlotOfChild(c);
      ParentStays(c, p);
      var rest := Without(queries, c);
      FreedIds(rest);
      EmptyStore(c, p, bytes);
      queries, heap := rest[p := Adopted(rest[p], u, bytes)], Freed(heap, rest);
    }

    /** adns__transfer_interim, and then the child is freed without the block. */
    method TransferUp(c: QueryId)
      requires Valid() && c in queries && queries[c].parent.Some? && queries[c].slot.Some? && queries[c].table.Some?
      requires queries[c].nrrs == queries[c].wanted
      modifies `queries, `heap
      ensures Valid() && MovedUp(old(queries), queries, c, old(queries)[c].nrrs * addrSize)
      ensures KeepsBlock(old(heap), heap, old(queries)[c].table.value)
      ensures old(queries)[c].interim >= Round(align, old(queries)[c].nrrs * addrSize)
    {
      hide QueryOk, FamilyOk, Apart, AllOk, Filled, Round, SlotOk, Freed, Without, Adopted, Allocated;
      var u := queries[c];
      var p := u.parent.value;
      var b := u.table.value;
      SlotOfChild(c);
      ParentStays(c, p);
      var rest := Without(queries, c);
      FreedIds(rest);
      TableStore(c, p, b);
      queries, heap := rest[p := Adopted(rest[p], u, u.nrrs * addrSize)], Freed(heap, rest)[b := heap[b]];
    }

    static predicate KeepsBlock(heap: Heap, heap': Heap, b: BlockId) {
      b in heap && b in heap' && heap'[b] == heap[b]
    }

    /** The child c and all below it are gone, and its parent has its table. */
    ghost predicate MovedUp(qs: map<QueryId, Query>, ns: map<QueryId, Query>, c: QueryId, bytes: int)
      requires align > 0 && c in qs
    {
      var u := qs[c];
      u.parent.Some? && u.slot.Some? && u.parent.value in qs && (u.table.Some? ==> bytes > 0) &&
      SlotOk(qs[u.parent.value], u.slot.value) &&
      ns == Without(qs, c)[u.parent.value := Adopted(qs[u.parent.value], u, bytes)]
    }

    lemma SlotOfChild(c: QueryId)
      requires Valid() && c in queries && queries[c].parent.Some? && queries[c].slot.Some?
      ensures var p := queries[c].parent.value;
        p < c && p in queries && queries[c].rrsz == addrSize && SlotOk(queries[p], queries[c].slot.value)
    {
      hide QueryOk;
      assert ChildOk(addrSize, queries, c);
    }

    /** The siblings of c have slots of their own. */
    lemma AdoptedFamily(c: QueryId, p: QueryId, part: Part, v: Query)
      requires Valid() && c in queries && queries[c].parent == Some(p) && queries[c].slot.Some? && p in queries
      requires SlotOk(queries[p], queries[c].slot.value) && v.recs == Filled(queries[p].recs, queries[c].slot.value, part)
      requires v.parent == queries[p].parent && v.slot == queries[p].slot && v.rrsz == queries[p].rrsz
      requires p in Without(queries, c)
      ensures FamilyOk(addrSize, Without(queries, c)[p := v])
    {
      hide QueryOk, SlotOk, Filled;
      WithoutOk(align, addrSize, heap, queries, c);
      var rest := Without(queries, c);
      var ns := rest[p := v];
      forall d | d in ns && ns[d].parent.Some? ensures ChildOk(addrSize, ns, d) {
        assert d in queries && ChildOk(addrSize, queries, d) && d in rest && ChildOk(addrSize, rest, d);
        if ns[d].parent == Some(p) && ns[d].slot.Some? {
          OtherSlot(queries[p], v, queries[c].slot.value, part, ns[d].slot.value);
        }
      }
    }

    static lemma OtherSlot(u: Query, v: Query, s: Slot, part: Part, t: Slot)
      requires SlotOk(u, s) && SlotOk(u, t) && s != t && v.recs == Filled(u.recs, s, part)
      ensures SlotOk(v, t)
    {
    }

    lemma UpdatedAlone(h: Heap, rest: map<QueryId, Query>, p: QueryId, v: Query)
      requires align > 0 && AllOk(align, h, rest) && Apart(rest) && p in rest && QueryOk(align, h, v)
      requires v.allocations == rest[p].allocations
      ensures AllOk(align, h, rest[p := v]) && Apart(rest[p := v])
    {
      forall r | r in rest ensures Agree(h, h, rest[r].allocations) {
        assert QueryOk(align, h, rest[r]);
      }
      hide QueryOk;
      UpdatedBlocks(align, h, h, rest, p, v);
    }

    lemma EmptyAdopted(c: QueryId, bytes: int)
      requires Valid() && c in queries && queries[c].parent.Some? && queries[c].slot.Some? && queries[c].table.None?
      requires queries[c].parent.value in Without(queries, c)
      requires SlotOk(queries[queries[c].parent.value], queries[c].slot.value)
      ensures var rest := Without(queries, c);
        QueryOk(align, Freed(heap, rest), Adopted(queries[queries[c].parent.value], queries[c], bytes))
    {
      hide QueryOk, SlotOk, Filled;
      var rest := Without(queries, c);
      WithoutOk(align, addrSize, heap, queries, c);
      SlotEmpty(align, Freed(heap, rest), queries[queries[c].parent.value], queries[c].slot.value, bytes);
    }

    lemma ChildCounts(u: Query)
      requires align > 0 && QueryOk(align, heap, u) && u.table.Some? && u.nrrs == u.wanted
      ensures u.table.value in heap && |heap[u.table.value]| == u.rrsz * u.nrrs > 0
      ensures u.interim >= Round(align, u.rrsz * u.nrrs)
    {
      hide Round;
    }

    /** The block of a child's table belongs to nobody who is left. */
    lemma BlockLeftOver(c: QueryId, b: BlockId)
      requires Valid() && c in queries && b in queries[c].allocations
      ensures b !in Owned(Without(queries, c)) && forall r | r in Without(queries, c) :: b !in queries[r].allocations
    {
      hide QueryOk, FamilyOk;
    }

    lemma OthersAgree(rest: map<QueryId, Query>, b: BlockId)
      requires align > 0 && AllOk(align, Freed(heap, rest), rest) && b in heap && forall r | r in rest :: b !in rest[r].allocations
      ensures forall r | r in rest :: Agree(Freed(heap, rest), Freed(heap, rest)[b := heap[b]], rest[r].allocations)
    {
      hide PointersOk, OwnedOnce, Counted;
      forall r | r in rest ensures rest[r].allocations <= Freed(heap, rest).Keys {
        assert QueryOk(align, Freed(heap, rest), rest[r]);
      }
    }

    lemma TableAdopted(c: QueryId, p: QueryId, b: BlockId)
      requires Valid() && c in queries && queries[c].parent == Some(p) && queries[c].slot.Some?
      requires queries[c].table == Some(b) && queries[c].nrrs == queries[c].wanted && queries[c].rrsz == addrSize
      requires p in Without(queries, c) && SlotOk(queries[p], queries[c].slot.value)
      ensures b in heap && queries[c].nrrs * addrSize > 0 && queries[c].interim >= Round(align, queries[c].nrrs * addrSize)
      ensures QueryOk(align, Freed(heap, Without(queries, c))[b := heap[b]], Adopted(queries[p], queries[c], queries[c].nrrs * addrSize))
      ensures b in queries[c].allocations
    {
      hide SlotOk, Filled, Round, QueryOk;
      var u := queries[c];
      var rest := Without(queries, c);
      WithoutOk(align, addrSize, heap, queries, c);
      GivenAway(align, heap, u);
      ChildCounts(u);
      BlockLeftOver(c, b);
      OthersAgree(rest, b);
      var h := Freed(heap, rest);
      QueryFrame(align, h, h[b := heap[b]], rest[p]);
      SlotReached(align, h[b := heap[b]], rest[p], u.slot.value, b, u.nrrs * addrSize);
    }

    lemma FreedIds(rest: map<QueryId, Query>)
      requires forall b | b in heap :: b < nextBlock
      ensures forall b | b in Freed(heap, rest) :: b < nextBlock
    {
    }

    lemma BytesFound(u: Query, tempfail: bool)
      ensures !tempfail ==> Bytes(u, tempfail) == u.nrrs * addrSize
    {
    }

    lemma ParentStays(c: QueryId, p: QueryId)
      requires Valid() && c in queries && queries[c].parent == Some(p) && p < c && p in queries
      ensures p in Without(queries, c) && Without(queries, c)[p] == queries[p]
      ensures forall r | r in Without(queries, c) :: r < nextQuery
    {
      NotUnderLater(queries, p, c);
    }

    lemma EmptyStore(c: QueryId, p: QueryId, bytes: int)
      requires Valid() && c in queries && queries[c].parent == Some(p) && queries[c].slot.Some? && queries[c].table.None?
      requires p in Without(queries, c) && SlotOk(queries[p], queries[c].slot.value)
      ensures var rest := Without(queries, c); var ns := rest[p := Adopted(queries[p], queries[c], bytes)];
        AllOk(align, Freed(heap, rest), ns) && Apart(ns) && FamilyOk(addrSize, ns)
    {
      hide QueryOk, FamilyOk, Apart, Filled, SlotOk, Freed;
      var rest := Without(queries, c);
      var v := Adopted(queries[p], queries[c], bytes);
      WithoutOk(align, addrSize, heap, queries, c);
      AdoptedFamily(c, p, Tab(None, bytes), v);
      EmptyAdopted(c, bytes);
      UpdatedAlone(Freed(heap, rest), rest, p, v);
    }

    lemma TableStore(c: QueryId, p: QueryId, b: BlockId)
      requires Valid() && c in queries && queries[c].parent == Some(p) && queries[c].slot.Some? && queries[c].table == Some(b)
      requires queries[c].nrrs == queries[c].wanted && queries[c].rrsz == addrSize
      requires p in Without(queries, c) && SlotOk(queries[p], queries[c].slot.value)
      ensures b in heap && queries[c].nrrs * addrSize > 0 && queries[c].interim >= Round(align, queries[c].nrrs * addrSize)
      ensures var rest := Without(queries, c); var ns := rest[p := Adopted(queries[p], queries[c], queries[c].nrrs * addrSize)];
        AllOk(align, Freed(heap, rest)[b := heap[b]], ns) && Apart(ns) && FamilyOk(addrSize, ns)
    {
      hide QueryOk, FamilyOk, Filled, Round, SlotOk, Freed;
      var rest := Without(queries, c);
      WithoutOk(align, addrSize, heap, queries, c);
      TableAdopted(c, p, b);
      var v := Adopted(queries[p], queries[c], queries[c].nrrs * addrSize);
      AdoptedFamily(c, p, Tab(Some(b), queries[c].nrrs * addrSize), v);
      BlockLeftOver(c, b);
      OthersAgree(rest, b);
      UpdatedBlocks(align, Freed(heap, rest), Freed(heap, rest)[b := heap[b]], rest, p, v);
    }

    // ---------- the final copy ----------

    /** adns__alloc_final and the memcpy after it.  What was copied before stays. */
    method CopyFinal(answer: array<Byte>, c: seq<Byte>) returns (x: Placed)
      requires align > 0 && 0 < |c| && Round(align, |c|) <= left && space + left <= answer.Length
      modifies answer, `space, `left
      ensures left == old(left) - Round(align, |c|) && left >= 0 && space == old(space) + Round(align, |c|)
      ensures x == Placed(old(space), |c|) && Shows(answer[..], old(space), space, Some(x), Some(c))
      ensures SameUpTo(old(answer[..]), answer[..], old(space))
    {
      RoundFacts(align, |c|);
      hide Round;
      var at := space;
      forall i | 0 <= i < |c| {
        answer[at + i] := c[i];
      }
      assert answer[..][at..at + |c|] == c;
      left := left - Round(align, |c|);
      space := space + Round(align, |c|);
      x := Placed(at, |c|);
    }

    /** The rest of the counter fits behind the next free byte. */
    ghost predicate Room(answer: array<Byte>)
      reads this
    {
      left >= 0 && (left > 0 ==> space + left <= answer.Length)
    }

    /** adns__makefinal_str and adns__makefinal_block for one part. */
    method FinalPart(answer: array<Byte>, p: Part) returns (x: Option<Placed>)
      requires align > 0 && PartOk(heap, p) && Size(align, heap, p.block) <= left && Room(answer)
      modifies answer, `space, `left
      ensures Room(answer) && left >= old(left) - Size(align, heap, p.block) && space >= old(space)
      ensures Shows(answer[..], old(space), space, x, PartText(heap, p))
      ensures SameUpTo(old(answer[..]), answer[..], old(space))
    {
      x := None;
      if p.block.Some? {
        var t := PartText(heap, p).value;
        RoundGrows(align, |t|, |heap[p.block.value]|);
        RoundFacts(align, |t|);
        hide Round;
        var y := CopyFinal(answer, t);
        x := Some(y);
      }
    }

    /** The makefinal function of a record type. */
    method FinalRecord(answer: array<Byte>, r: Record) returns (x: seq<Option<Placed>>)
      requires align > 0 && RecordOk(heap, r) && RecordSize(align, heap, r) <= left && Room(answer)
      modifies answer, `space, `left
      ensures Room(answer) && left >= old(left) - RecordSize(align, heap, r) && space >= old(space)
      ensures ShowsRecord(answer[..], old(space), space, x, RecordText(heap, r))
      ensures SameUpTo(old(answer[..]), answer[..], old(space))
    {
      hide PartText, PartOk, Size, Shows, SameUpTo, Room;
      x := [];
      ghost var low, text := space, RecordText(heap, r);
      SameAsBefore(answer[..], low);
      assert r[..|r|] == r;
      for j := 0 to |r|
        invariant Room(answer) && left >= old(left) - RecordSize(align, heap, r[..j]) && space >= low
        invariant ShowsRecord(answer[..], low, space, x, text[..j]) && SameUpTo(old(answer[..]), answer[..], low)
      {
        RecordSteps(align, heap, r, j);
        ghost var before, high := answer[..], space;
        var y := FinalPart(answer, r[j]);
        StillShowsRecord(before, answer[..], low, high, space, x, text[..j]);
        LowerBound(answer[..], low, high, space, y, text[j]);
        SameThrough(old(answer[..]), before, answer[..], low, high);
        x := x + [y];
        assert text[..j + 1] == text[..j] + [text[j]];
      }
      assert text[..|r|] == text;
    }

    /** The loop of makefinal_query over the records. */
    method FinalRecords(answer: array<Byte>, recs: seq<Record>) returns (x: seq<seq<Option<Placed>>>)
      requires align > 0 && RecordsOk(heap, recs) && RecordsSize(align, heap, recs) <= left && Room(answer)
      modifies answer, `space, `left
      ensures Room(answer) && left >= old(left) - RecordsSize(align, heap, recs) && space >= old(space)
      ensures ShowsRecords(answer[..], old(space), space, x, RecordsText(heap, recs))
      ensures SameUpTo(old(answer[..]), answer[..], old(space))
    {
      hide RecordText, RecordOk, RecordSize, ShowsRecord, SameUpTo, Room;
      x := [];
      ghost var low, text := space, RecordsText(heap, recs);
      SameAsBefore(answer[..], low);
      assert recs[..|recs|] == recs;
      for i := 0 to |recs|
        invariant Room(answer) && left >= old(left) - RecordsSize(align, heap, recs[..i]) && space >= low
        invariant ShowsRecords(answer[..], low, space, x, text[..i]) && SameUpTo(old(answer[..]), answer[..], low)
      {
        RecordsSteps(align, heap, recs, i);
        ghost var before, high := answer[..], space;
        var y := FinalRecord(answer, recs[i]);
        StillShowsRecords(before, answer[..], low, high, space, x, text[..i]);
        LowerRecord(answer[..], low, high, space, y, text[i]);
        SameThrough(old(answer[..]), before, answer[..], low, high);
        x := x + [y];
        assert text[..i + 1] == text[..i] + [text[i]];
      }
      assert text[..|recs|] == text;
    }

    /** The copying of makefinal_query: the two names, the table, and what the records hold. */
    method FinalAnswer(answer: array<Byte>, u: Query) returns (f: Final)
      requires align > 0 && PointersOk(heap, u) && Settled(u) && Room(answer)
      requires KeptSize(align, heap, u) + LiveSize(align, heap, u) <= left
      modifies answer, `space, `left
      ensures left >= 0 && ShowsAnswer(answer[..], old(space), space, f, Said(heap, u))
    {
      TableText(u);
      hide PartText, Size, Shows, SameUpTo, Room, RecordsOk, RecordsSize, RecordsText, ShowsRecords;
      ghost var low := space;
      var cname := FinalPart(answer, Str(u.cname));
      ghost var a1, s1 := answer[..], space;
      var owner := FinalPart(answer, Str(u.owner));
      ghost var a2, s2 := answer[..], space;
      var table := FinalPart(answer, Tab(u.table, u.nrrs * u.rrsz));
      ghost var a3, s3 := answer[..], space;
      var recs := FinalRecords(answer, u.recs);
      f := Final(cname, owner, table, recs);
      RoomIsEnough(answer);
      StillShows(a1, a2, low, s1, s2, cname, PartText(heap, Str(u.cname)));
      StillShows(a2, a3, low, s2, s3, cname, PartText(heap, Str(u.cname)));
      StillShows(a3, answer[..], low, s3, space, cname, PartText(heap, Str(u.cname)));
      StillShows(a2, a3, s1, s2, s3, owner, PartText(heap, Str(u.owner)));
      StillShows(a3, answer[..], s1, s3, space, owner, PartText(heap, Str(u.owner)));
      LowerBound(answer[..], low, s1, space, owner, PartText(heap, Str(u.owner)));
      StillShows(a3, answer[..], s2, s3, space, table, PartText(heap, Tab(u.table, u.nrrs * u.rrsz)));
      LowerBound(answer[..], low, s2, space, table, PartText(heap, Tab(u.table, u.nrrs * u.rrsz)));
      LowerRecords(answer[..], low, s3, space, recs, RecordsText(heap, u.recs));
    }

    lemma RoomIsEnough(answer: array<Byte>)
      requires Room(answer)
      ensures left >= 0
    {
    }

    /** A table of which all records have been read is copied as it is. */
    lemma TableText(u: Query)
      requires PointersOk(heap, u) && Settled(u)
      ensures PartOk(heap, Str(u.cname)) && PartOk(heap, Str(u.owner)) && PartOk(heap, Tab(u.table, u.nrrs * u.rrsz))
      ensures Said(heap, u) == Answer(PartText(heap, Str(u.cname)), PartText(heap, Str(u.owner)),
                                      PartText(heap, Tab(u.table, u.nrrs * u.rrsz)), RecordsText(heap, u.recs))
    {
      if u.table.Some? {
        assert u.nrrs * u.rrsz == u.rrsz * u.wanted;
        assert heap[u.table.value][..u.nrrs * u.rrsz] == heap[u.table.value];
      }
    }

    /** makefinal_query, at the end of adns__query_done for a query of the user: one block is
        made that is large enough for all that the answer points to, whatever came before, and
        the answer in it says what it said; then everything else is freed.  Without memory for
        the block the answer is empty. */
    method MakeFinal(q: QueryId, memory: bool) returns (answer: array<Byte>, f: Final)
      requires Valid() && q in queries && Settled(queries[q]) && queries[q].parent.None?
      modifies this
      ensures Valid() && queries == Without(old(queries), q) && fresh(answer) && PointersOk(old(heap), old(queries)[q])
      ensures answer.Length == if memory then BlockSize(old(queries)[q].interim) else header
      ensures memory || old(queries)[q].interim == 0 ==>
        left >= 0 && ShowsAnswer(answer[..], Round(align, header), space, f, Said(old(heap), old(queries)[q]))
      ensures !memory && old(queries)[q].interim != 0 ==> f == NOTHING
    {
      hide QueryOk, FamilyOk, Apart, AllOk, Round, Said, ShowsAnswer, PointersOk, KeptSize, LiveSize, Settled;
      Counters(q);
      var u := queries[q];
      if u.interim != 0 && !memory {
        answer := new Byte[header](_ => 0);
        f := NOTHING;
      } else {
        RoundFacts(align, Round(align, header) + u.interim);
        answer := new Byte[BlockSize(u.interim)](_ => 0);
        space, left := Round(align, header), u.interim;
        f := FinalAnswer(answer, u);
      }
      Cancel(q);
    }

    function BlockSize(interim: int): nat
      requires align > 0
    {
      if interim > 0 then Round(align, Round(align, header) + interim) else header
    }

    lemma Counters(q: QueryId)
      requires Valid() && q in queries
      ensures var u := queries[q];
        u.interim >= 0 && PointersOk(heap, u) && KeptSize(align, heap, u) + LiveSize(align, heap, u) <= u.interim
    {
      hide PointersOk, OwnedOnce;
      assert QueryOk(align, heap, queries[q]);
    }

    /** The library makes the call only where its code can come to it. */
    predicate Possible(c: Call)
      reads this
    {
      match c
      case NewCall(_) => true
      case OwnerCall(q, _, _) => q in queries && queries[q].owner.None?
      case CnameCall(q, _, _) => q in queries && queries[q].cname.None?
      case TableCall(q, wanted, _) => q in queries && queries[q].table.None? && queries[q].rrsz * wanted > 0
      case RecordCall(q) =>
        q in queries && queries[q].table.Some? && |queries[q].recs| < queries[q].wanted && queries[q].nrrs == 0
      case StringCall(q, _, _) => q in queries && queries[q].recs != [] && queries[q].nrrs == 0
      case AddressesCall(q, bytes, _) => q in queries && queries[q].recs != [] && queries[q].nrrs == 0 && bytes != []
      case ChildCall(q) => q in queries && queries[q].recs != [] && queries[q].nrrs == 0
      case CheckerCall(q, _) => q in queries
      case ReadCall(q) => q in queries && queries[q].table.Some? && |queries[q].recs| == queries[q].wanted
      case HostAddrCall(q, tempfail) =>
        q in queries && queries[q].parent.Some? && queries[q].slot.Some? && Settled(queries[q]) && (tempfail ==> queries[q].table.None?)
      case ResetCall(q) => q in queries
      case CancelCall(_) => true
      case FinalCall(q, _) => q in queries && queries[q].parent.None? && Settled(queries[q])
    }

    method Make(c: Call)
      requires Valid() && Possible(c)
      modifies this
      ensures Valid()
    {
      hide QueryOk, FamilyOk, Apart, AllOk;
      match c {
        case NewCall(rrsz) => var q := NewQuery(rrsz);
        case OwnerCall(q, name, ok) => SaveOwner(q, name, ok);
        case CnameCall(q, name, ok) => SaveCname(q, name, ok);
        case TableCall(q, wanted, ok) => AllocRecords(q, wanted, ok);
        case RecordCall(q) => BeginRecord(q);
        case StringCall(q, text, ok) => AddPart(q, Str(Some(nextBlock)), text + [0], ok);
        case AddressesCall(q, bytes, ok) => AddPart(q, Tab(Some(nextBlock), |bytes|), bytes, ok);
        case ChildCall(q) => var child := AddChild(q);
        case CheckerCall(q, rrsz) => var child := AddChecker(q, rrsz);
        case ReadCall(q) => RecordsDone(q);
        case HostAddrCall(q, tempfail) => HostAddrDone(q, tempfail);
        case ResetCall(q) => Reset(q);
        case CancelCall(q) => Cancel(q);
        case FinalCall(q, memory) => var answer, f := MakeFinal(q, memory);
      }
    }

    /** Any number of calls, in any order: the counters cover what every answer reaches, and so
        the final copy of any answer fits. */
    method Run(calls: seq<Call>)
      requires Valid()
      modifies this
      ensures Valid()
    {
      for i := 0 to |calls|
        invariant Valid()
      {
        if Possible(calls[i]) {
          Make(calls[i]);
        }
      }
    }
  }

  lemma SameAsBefore(a: seq<Byte>, n: nat)
    ensures SameUpTo(a, a, n)
  {
  }

  lemma SameThrough(a: seq<Byte>, b: seq<Byte>, c: seq<Byte>, low: nat, high: nat)
    requires SameUpTo(a, b, low) && SameUpTo(b, c, high) && low <= high
    ensures SameUpTo(a, c, low)
  {
  }

  lemma LowerBound(a: seq<Byte>, low: nat, mid: nat, high: nat, x: Option<Placed>, t: Option<seq<Byte>>)
    requires Shows(a, mid, high, x, t) && low <= mid
    ensures Shows(a, low, high, x, t)
  {
  }

  lemma LowerRecord(a: seq<Byte>, low: nat, mid: nat, high: nat, x: seq<Option<Placed>>, t: seq<Option<seq<Byte>>>)
    requires ShowsRecord(a, mid, high, x, t) && low <= mid
    ensures ShowsRecord(a, low, high, x, t)
  {
  }

  lemma LowerRecords(a: seq<Byte>, low: nat, mid: nat, high: nat, x: seq<seq<Option<Placed>>>, t: seq<seq<Option<seq<Byte>>>>)
    requires ShowsRecords(a, mid, high, x, t) && low <= mid
    ensures ShowsRecords(a, low, high, x, t)
  {
    hide ShowsRecord;
    forall i | 0 <= i < |x| ensures ShowsRecord(a, low, high, x[i], t[i]) {
      LowerRecord(a, low, mid, high, x[i], t[i]);
    }
  }

  lemma RecordSteps(align: nat, heap: Heap, r: Record, j: nat)
    requires align > 0 && j < |r|
    ensures RecordSize(align, heap, r[..j + 1]) == RecordSize(align, heap, r[..j]) + Size(align, heap, r[j].block)
    ensures RecordSize(align, heap, r[..j + 1]) <= RecordSize(align, heap, r)
  {
    assert r[..j + 1][..j] == r[..j];
    RecordPrefix(align, heap, r, j + 1);
  }

  lemma {:induction false} RecordPrefix(align: nat, heap: Heap, r: Record, j: nat)
    requires align > 0 && j <= |r|
    ensures RecordSize(align, heap, r[..j]) <= RecordSize(align, heap, r)
  {
    hide Size;
    if j < |r| {
      RecordPrefix(align, heap, r[..|r| - 1], j);
      assert r[..|r| - 1][..j] == r[..j];
    } else {
      assert r[..j] == r;
    }
  }

  lemma RecordsSteps(align: nat, heap: Heap, recs: seq<Record>, i: nat)
    requires align > 0 && i < |recs|
    ensures RecordsSize(align, heap, recs[..i + 1]) == RecordsSize(align, heap, recs[..i]) + RecordSize(align, heap, recs[i])
    ensures RecordsSize(align, heap, recs[..i + 1]) <= RecordsSize(align, heap, recs)
  {
    hide RecordSize;
    assert recs[..i + 1][..i] == recs[..i];
    RecordsPrefix(align, heap, recs, i + 1);
  }

  lemma {:induction false} RecordsPrefix(align: nat, heap: Heap, recs: seq<Record>, i: nat)
    requires align > 0 && i <= |recs|
    ensures RecordsSize(align, heap, recs[..i]) <= RecordsSize(align, heap, recs)
  {
    hide RecordSize;
    if i < |recs| {
      RecordsPrefix(align, heap, recs[..|recs| - 1], i);
      assert recs[..|recs| - 1][..i] == recs[..i];
    } else {
      assert recs[..i] == recs;
    }
  }

  function Preserved(align: nat, u: Query, b: BlockId, size: nat): Query
    requires align > 0
  {
    Allocated(align, u, b, size).(preserved := u.preserved + Round(align, size))
  }

  lemma MorePreserved(align: nat, heap: Heap, u: Query, v: Query)
    requires align > 0 && QueryOk(align, heap, u) && v == u.(preserved := v.preserved) && v.preserved >= u.preserved
    ensures QueryOk(align, heap, v)
  {
    hide PointersOk, Reached, KeptSize, LiveSize;
    SameAnswer(align, heap, u, v);
  }
}
