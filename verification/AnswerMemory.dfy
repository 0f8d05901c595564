/** The memory of the answers: what each query has allocated, which of it can be reached from
    its answer, how a child's addresses move into a record of its parent, and the one block
    into which a finished answer is copied. */
module AnswerMemory {
  import opened Common

  type QueryId = nat
  type BlockId = nat
  type Heap = map<BlockId, seq<Byte>>

  // ---------- MEM_ROUND ----------

  /** MEM_ROUND, for a maximal alignment of align bytes. */
  function Round(align: nat, size: nat): nat
    requires align > 0
  {
    (size + align - 1) / align * align
  }

  lemma RoundFacts(align: nat, size: nat)
    requires align > 0
    ensures size <= Round(align, size) < size + align && Round(align, size) % align == 0
  {
    var q := (size + align - 1) / align;
    assert q * align + (size + align - 1) % align == size + align - 1;
    MultipleHasNoRest(q, align);
  }

  lemma MultipleHasNoRest(q: nat, align: nat)
    requires align > 0
    ensures (q * align) % align == 0 && (q * align) / align == q
  {
    var d := (q * align) / align;
    assert (d - q) * align == -((q * align) % align);
    assert d - q >= 1 ==> (d - q) * align >= align;
    assert d - q <= -1 ==> (d - q) * align <= 0 - align;
  }

  lemma RoundGrows(align: nat, a: nat, b: nat)
    requires align > 0 && a <= b
    ensures Round(align, a) <= Round(align, b)
  {
    var p, q := (a + align - 1) / align, (b + align - 1) / align;
    assert p * align <= a + align - 1 < q * align + align by {
      assert p * align + (a + align - 1) % align == a + align - 1;
      assert q * align + (b + align - 1) % align == b + align - 1;
    }
    assert q * align + align == (q + 1) * align;
    Multiples(p, q + 1, align);
    Multiples(q, p, align);
  }

  lemma Multiples(p: nat, q: nat, c: nat)
    ensures p >= q ==> p * c >= q * c
  {
    if p >= q {
      assert (p - q) * c >= 0;
    }
  }

  // ---------- answers ----------

  /** What the makefinal function of a record type visits in a record, in its order: strings, and
      tables of so many bytes. */
  datatype Part = Str(block: Option<BlockId>) | Tab(block: Option<BlockId>, bytes: int)

  type Record = seq<Part>

  /** Where in its parent's records a child puts its addresses: ctx.info.hostaddr, for a child
      with the callback icb_hostaddr. */
  datatype Slot = Slot(rec: nat, part: nat)

  /** A query, as far as the memory of its answer goes. */
  datatype Query = Query(
    parent: Option<QueryId>,
    slot: Option<Slot>,
    rrsz: nat,
    interim: int,
    preserved: int,
    allocations: set<BlockId>,
    cname: Option<BlockId>,
    owner: Option<BlockId>,
    table: Option<BlockId>,
    wanted: nat,
    nrrs: nat,
    recs: seq<Record>)

  /** The length of a C string with its terminating zero. */
  function StrSize(s: seq<Byte>): (n: nat)
    requires 0 in s
    ensures 0 < n <= |s| && s[n - 1] == 0 && 0 !in s[..n - 1]
  {
    if s[0] == 0 then 1 else
      var n := StrSize(s[1..]);
      assert s[..n] == [s[0]] + s[1..][..n - 1];
      n + 1
  }

  // ---------- what the counters have to cover ----------

  function Size(align: nat, heap: Heap, b: Option<BlockId>): nat
    requires align > 0
  {
    if b.Some? && b.value in heap then Round(align, |heap[b.value]|) else 0
  }

  function RecordSize(align: nat, heap: Heap, r: Record): nat
    requires align > 0
  {
    if r == [] then 0 else RecordSize(align, heap, r[..|r| - 1]) + Size(align, heap, r[|r| - 1].block)
  }

  function RecordsSize(align: nat, heap: Heap, recs: seq<Record>): nat
    requires align > 0
  {
    if recs == [] then 0 else RecordsSize(align, heap, recs[..|recs| - 1]) + RecordSize(align, heap, recs[|recs| - 1])
  }

  function KeptSize(align: nat, heap: Heap, u: Query): nat
    requires align > 0
  {
    Size(align, heap, u.cname) + Size(align, heap, u.owner)
  }

  function LiveSize(align: nat, heap: Heap, u: Query): nat
    requires align > 0
  {
    Size(align, heap, u.table) + RecordsSize(align, heap, u.recs)
  }

  // ---------- which blocks an answer reaches ----------

  function Only(b: Option<BlockId>): multiset<BlockId> {
    if b.Some? then multiset{b.value} else multiset{}
  }

  function RecordBlocks(r: Record): multiset<BlockId> {
    if r == [] then multiset{} else RecordBlocks(r[..|r| - 1]) + Only(r[|r| - 1].block)
  }

  function RecordsBlocks(recs: seq<Record>): multiset<BlockId> {
    if recs == [] then multiset{} else RecordsBlocks(recs[..|recs| - 1]) + RecordBlocks(recs[|recs| - 1])
  }

  function Reached(u: Query): multiset<BlockId> {
    Only(u.cname) + Only(u.owner) + Only(u.table) + RecordsBlocks(u.recs)
  }

  // ---------- what holds of each query ----------

  ghost predicate PartOk(heap: Heap, p: Part) {
    p.block.None? ||
    (p.block.value in heap &&
     (p.Str? ==> 0 in heap[p.block.value]) && (p.Tab? ==> 0 < p.bytes <= |heap[p.block.value]|))
  }

  ghost predicate StringOk(heap: Heap, b: Option<BlockId>) {
    b.Some? ==> b.value in heap && 0 in heap[b.value]
  }

  ghost predicate RecordOk(heap: Heap, r: Record) {
    forall j | 0 <= j < |r| :: PartOk(heap, r[j])
  }

  ghost predicate RecordsOk(heap: Heap, recs: seq<Record>) {
    forall i | 0 <= i < |recs| :: RecordOk(heap, recs[i])
  }

  /** Everything that the answer points to is there and long enough. */
  ghost predicate PointersOk(heap: Heap, u: Query) {
    && StringOk(heap, u.cname) && StringOk(heap, u.owner)
    && RecordsOk(heap, u.recs)
    && (u.table.None? ==> u.recs == [] && u.nrrs == 0)
    && (u.table.Some? ==> u.table.value in heap && |heap[u.table.value]| == u.rrsz * u.wanted > 0)
    && |u.recs| <= u.wanted && (u.nrrs == 0 || u.nrrs == |u.recs| == u.wanted)
  }

  /** It points to nothing twice, and to nothing but its own allocations. */
  ghost predicate OwnedOnce(u: Query) {
    forall b | b in Reached(u) :: Reached(u)[b] == 1 && b in u.allocations
  }

  /** The counters cover everything that can be reached. */
  ghost predicate Counted(align: nat, heap: Heap, u: Query)
    requires align > 0
  {
    KeptSize(align, heap, u) <= u.preserved && KeptSize(align, heap, u) + LiveSize(align, heap, u) <= u.interim
  }

  ghost predicate QueryOk(align: nat, heap: Heap, u: Query)
    requires align > 0
  {
    u.allocations <= heap.Keys && PointersOk(heap, u) && OwnedOnce(u) && Counted(align, heap, u)
  }

  // ---------- nothing but a query's own blocks matters to it ----------

  ghost predicate Agree(h: Heap, k: Heap, s: set<BlockId>) {
    forall b | b in s :: b in h && b in k && h[b] == k[b]
  }

  /** All blocks of the record are in s. */
  ghost predicate RecordWithin(r: Record, s: set<BlockId>) {
    forall j | 0 <= j < |r| :: r[j].block.Some? ==> r[j].block.value in s
  }

  lemma {:induction false} RecordFrame(align: nat, h: Heap, k: Heap, r: Record, s: set<BlockId>)
    requires align > 0 && Agree(h, k, s) && RecordWithin(r, s)
    ensures RecordSize(align, k, r) == RecordSize(align, h, r)
    decreases |r|
  {
    hide Round;
    if r != [] {
      RecordFrame(align, h, k, r[..|r| - 1], s);
    }
  }

  lemma RecordStaysOk(h: Heap, k: Heap, r: Record, s: set<BlockId>)
    requires Agree(h, k, s) && RecordWithin(r, s) && RecordOk(h, r)
    ensures RecordOk(k, r)
  {
    forall j | 0 <= j < |r| ensures PartOk(k, r[j]) {
      assert PartOk(h, r[j]);
    }
  }

  lemma {:induction false} RecordsFrame(align: nat, h: Heap, k: Heap, recs: seq<Record>, s: set<BlockId>)
    requires align > 0 && Agree(h, k, s) && forall i | 0 <= i < |recs| :: RecordWithin(recs[i], s)
    ensures RecordsSize(align, k, recs) == RecordsSize(align, h, recs)
    decreases |recs|
  {
    hide RecordSize, RecordWithin;
    if recs != [] {
      var n := |recs| - 1;
      RecordsFrame(align, h, k, recs[..n], s);
      RecordFrame(align, h, k, recs[n], s);
    }
  }

  lemma {:induction false} BlockOfRecord(r: Record, j: nat)
    requires j < |r| && r[j].block.Some?
    ensures r[j].block.value in RecordBlocks(r)
    decreases |r|
  {
    if j < |r| - 1 {
      BlockOfRecord(r[..|r| - 1], j);
    }
  }

  lemma {:induction false} BlockOfRecords(recs: seq<Record>, i: nat, b: BlockId)
    requires i < |recs| && b in RecordBlocks(recs[i])
    ensures b in RecordsBlocks(recs)
    decreases |recs|
  {
    hide RecordBlocks;
    if i < |recs| - 1 {
      BlockOfRecords(recs[..|recs| - 1], i, b);
    }
  }

  lemma OwnRecords(u: Query)
    requires OwnedOnce(u)
    ensures forall i | 0 <= i < |u.recs| :: RecordWithin(u.recs[i], u.allocations)
    ensures u.cname.Some? ==> u.cname.value in u.allocations
    ensures u.owner.Some? ==> u.owner.value in u.allocations
    ensures u.table.Some? ==> u.table.value in u.allocations
  {
    forall i, j | 0 <= i < |u.recs| && 0 <= j < |u.recs[i]| && u.recs[i][j].block.Some?
      ensures u.recs[i][j].block.value in u.allocations
    {
      BlockOfRecord(u.recs[i], j);
      BlockOfRecords(u.recs, i, u.recs[i][j].block.value);
      assert u.recs[i][j].block.value in Reached(u);
    }
    assert u.cname.Some? ==> u.cname.value in Reached(u);
    assert u.owner.Some? ==> u.owner.value in Reached(u);
    assert u.table.Some? ==> u.table.value in Reached(u);
  }

  lemma QueryFrame(align: nat, h: Heap, k: Heap, u: Query)
    requires align > 0 && QueryOk(align, h, u) && Agree(h, k, u.allocations)
    ensures QueryOk(align, k, u)
  {
    hide Round, RecordOk, OwnedOnce, RecordWithin, RecordsSize;
    OwnRecords(u);
    forall i | 0 <= i < |u.recs| ensures RecordOk(k, u.recs[i]) {
      RecordStaysOk(h, k, u.recs[i], u.allocations);
    }
    RecordsFrame(align, h, k, u.recs, u.allocations);
  }

  // ---------- changing the records ----------

  lemma RecordGrows(align: nat, heap: Heap, r: Record, p: Part)
    requires align > 0
    ensures RecordSize(align, heap, r + [p]) == RecordSize(align, heap, r) + Size(align, heap, p.block)
    ensures RecordBlocks(r + [p]) == RecordBlocks(r) + Only(p.block)
    ensures RecordOk(heap, r) && PartOk(heap, p) ==> RecordOk(heap, r + [p])
  {
    hide Size, Only;
    assert (r + [p])[..|r|] == r;
  }

  lemma RecordsGrow(align: nat, heap: Heap, recs: seq<Record>, r: Record)
    requires align > 0
    ensures RecordsSize(align, heap, recs + [r]) == RecordsSize(align, heap, recs) + RecordSize(align, heap, r)
    ensures RecordsBlocks(recs + [r]) == RecordsBlocks(recs) + RecordBlocks(r)
    ensures RecordsOk(heap, recs) && RecordOk(heap, r) ==> RecordsOk(heap, recs + [r])
  {
    hide RecordSize, RecordBlocks, RecordOk;
    assert (recs + [r])[..|recs|] == recs;
  }

  /** The last record gets one more part. */
  function WithPart(recs: seq<Record>, p: Part): seq<Record>
    requires recs != []
  {
    recs[..|recs| - 1] + [recs[|recs| - 1] + [p]]
  }

  lemma PartAdded(align: nat, heap: Heap, recs: seq<Record>, p: Part)
    requires align > 0 && recs != []
    ensures RecordsSize(align, heap, WithPart(recs, p)) == RecordsSize(align, heap, recs) + Size(align, heap, p.block)
    ensures RecordsBlocks(WithPart(recs, p)) == RecordsBlocks(recs) + Only(p.block)
    ensures RecordsOk(heap, recs) && PartOk(heap, p) ==> RecordsOk(heap, WithPart(recs, p))
  {
    hide Size, Only, RecordSize, RecordBlocks, RecordOk, PartOk;
    var n := |recs| - 1;
    LastAlone(recs);
    RecordGrows(align, heap, recs[n], p);
    RecordsGrow(align, heap, recs[..n], recs[n]);
    RecordsGrow(align, heap, recs[..n], recs[n] + [p]);
  }

  lemma {:induction false} PartReplaced(align: nat, heap: Heap, r: Record, j: nat, p: Part)
    requires align > 0 && j < |r| && r[j].block.None?
    ensures RecordSize(align, heap, r[j := p]) == RecordSize(align, heap, r) + Size(align, heap, p.block)
    decreases |r|
  {
    hide Round;
    var n := |r| - 1;
    if j == n {
      assert r[j := p][..n] == r[..n];
    } else {
      assert r[j := p][..n] == r[..n][j := p];
      PartReplaced(align, heap, r[..n], j, p);
    }
  }

  lemma NobodyOnly()
    ensures Only(None) == multiset{}
  {
  }

  lemma {:induction false} BlocksReplaced(r: Record, j: nat, p: Part)
    requires j < |r| && r[j].block.None?
    ensures RecordBlocks(r[j := p]) == RecordBlocks(r) + Only(p.block)
    decreases |r|
  {
    hide Only;
    var n := |r| - 1;
    if j == n {
      assert r[j := p][..n] == r[..n];
      NobodyOnly();
    } else {
      assert r[j := p][..n] == r[..n][j := p];
      BlocksReplaced(r[..n], j, p);
    }
  }

  /** The part in the slot of a child is filled in. */
  function Filled(recs: seq<Record>, s: Slot, p: Part): seq<Record>
    requires s.rec < |recs| && s.part < |recs[s.rec]|
  {
    recs[s.rec := recs[s.rec][s.part := p]]
  }

  lemma SlotFilled(align: nat, heap: Heap, recs: seq<Record>, s: Slot, p: Part)
    requires align > 0 && s.rec < |recs| && s.part < |recs[s.rec]| && recs[s.rec][s.part].block.None?
    ensures RecordsSize(align, heap, Filled(recs, s, p)) == RecordsSize(align, heap, recs) + Size(align, heap, p.block)
    ensures RecordsBlocks(Filled(recs, s, p)) == RecordsBlocks(recs) + Only(p.block)
  {
    hide RecordSize, RecordBlocks, RecordsSize, RecordsBlocks, Size, Only;
    PartReplaced(align, heap, recs[s.rec], s.part, p);
    BlocksReplaced(recs[s.rec], s.part, p);
    var r := recs[s.rec][s.part := p];
    SizesReplaced(align, heap, recs, s.rec, r);
    RecordsReplaced(recs, s.rec, r, Only(p.block));
  }

  lemma {:induction false} SizesReplaced(align: nat, heap: Heap, recs: seq<Record>, i: nat, r: Record)
    requires align > 0 && i < |recs|
    ensures RecordsSize(align, heap, recs[i := r]) - RecordSize(align, heap, r) ==
      RecordsSize(align, heap, recs) - RecordSize(align, heap, recs[i])
    decreases |recs|
  {
    hide RecordSize;
    var n := |recs| - 1;
    if i == n {
      assert recs[i := r][..n] == recs[..n];
    } else {
      assert recs[i := r][..n] == recs[..n][i := r];
      SizesReplaced(align, heap, recs[..n], i, r);
    }
  }

  lemma {:induction false} RecordsReplaced(recs: seq<Record>, i: nat, r: Record, more: multiset<BlockId>)
    requires i < |recs| && RecordBlocks(r) == RecordBlocks(recs[i]) + more
    ensures RecordsBlocks(recs[i := r]) == RecordsBlocks(recs) + more
    decreases |recs|
  {
    hide RecordBlocks;
    var n := |recs| - 1;
    if i == n {
      assert recs[i := r][..n] == recs[..n];
    } else {
      assert recs[i := r][..n] == recs[..n][i := r];
      RecordsReplaced(recs[..n], i, r, more);
    }
  }

  lemma FilledOk(heap: Heap, recs: seq<Record>, s: Slot, p: Part)
    requires s.rec < |recs| && s.part < |recs[s.rec]| && RecordsOk(heap, recs) && PartOk(heap, p)
    ensures RecordsOk(heap, Filled(recs, s, p))
  {
    hide PartOk;
  }

  // ---------- what one allocation does for a query ----------

  /** The query with one more block, counted. */
  function Allocated(align: nat, u: Query, b: BlockId, size: nat): Query
    requires align > 0
  {
    u.(allocations := u.allocations + {b}, interim := u.interim + Round(align, size))
  }

  lemma HeapGrows(align: nat, heap: Heap, u: Query, b: BlockId, c: seq<Byte>)
    requires align > 0 && QueryOk(align, heap, u) && b !in heap
    ensures QueryOk(align, heap[b := c], u) && b !in Reached(u) && Reached(u)[b] == 0
  {
    hide Counted, PointersOk;
    QueryFrame(align, heap, heap[b := c], u);
    assert b !in u.allocations;
  }

  /** The query u' reaches one block more than u, and has counted it. */
  lemma OneMoreReached(align: nat, heap: Heap, u: Query, u': Query, b: BlockId, c: seq<Byte>)
    requires align > 0 && QueryOk(align, heap, u) && b !in heap && PointersOk(heap[b := c], u')
    requires u'.allocations == u.allocations + {b} && Reached(u') == Reached(u) + multiset{b}
    requires Counted(align, heap[b := c], u')
    ensures QueryOk(align, heap[b := c], u')
  {
    hide PointersOk, Counted, Reached;
    HeapGrows(align, heap, u, b, c);
    forall x | x in Reached(u') ensures Reached(u')[x] == 1 && x in u'.allocations {
      if x != b {
        assert x in Reached(u);
      }
    }
  }

  lemma Unreached(align: nat, heap: Heap, u: Query, b: BlockId, c: seq<Byte>, more: nat)
    requires align > 0 && QueryOk(align, heap, u) && b !in heap
    ensures QueryOk(align, heap[b := c], u.(allocations := u.allocations + {b}, interim := u.interim + more))
  {
    HeapGrows(align, heap, u, b, c);
    hide PointersOk, Reached, Round;
    var u' := u.(allocations := u.allocations + {b}, interim := u.interim + more);
    SameAnswer(align, heap[b := c], u, u');
  }

  /** What an answer reaches does not depend on the counters. */
  lemma SameAnswer(align: nat, heap: Heap, u: Query, v: Query)
    requires align > 0 && v == u.(allocations := v.allocations, interim := v.interim, preserved := v.preserved)
    ensures Reached(v) == Reached(u) && KeptSize(align, heap, v) == KeptSize(align, heap, u)
    ensures LiveSize(align, heap, v) == LiveSize(align, heap, u) && (PointersOk(heap, u) ==> PointersOk(heap, v))
  {
  }

  lemma CnameReached(align: nat, heap: Heap, u: Query, b: BlockId, c: seq<Byte>)
    requires align > 0 && QueryOk(align, heap, u) && b !in heap && u.cname.None? && 0 in c
    ensures var r := Round(align, |c|);
      QueryOk(align, heap[b := c], Allocated(align, u, b, |c|).(preserved := u.preserved + r, cname := Some(b)))
  {
    hide Round;
    HeapGrows(align, heap, u, b, c);
    var u' := Allocated(align, u, b, |c|).(preserved := u.preserved + Round(align, |c|), cname := Some(b));
    assert Reached(u') == Reached(u) + multiset{b};
    OneMoreReached(align, heap, u, u', b, c);
  }

  lemma OwnerReached(align: nat, heap: Heap, u: Query, b: BlockId, c: seq<Byte>)
    requires align > 0 && QueryOk(align, heap, u) && b !in heap && u.owner.None? && 0 in c
    ensures var r := Round(align, |c|);
      QueryOk(align, heap[b := c], Allocated(align, u, b, |c|).(preserved := u.preserved + r, owner := Some(b)))
  {
    hide Round;
    HeapGrows(align, heap, u, b, c);
    var u' := Allocated(align, u, b, |c|).(preserved := u.preserved + Round(align, |c|), owner := Some(b));
    assert Reached(u') == Reached(u) + multiset{b};
    OneMoreReached(align, heap, u, u', b, c);
  }

  lemma TableReached(align: nat, heap: Heap, u: Query, b: BlockId, c: seq<Byte>, wanted: nat)
    requires align > 0 && QueryOk(align, heap, u) && b !in heap && u.table.None? && |c| == u.rrsz * wanted > 0
    ensures QueryOk(align, heap[b := c], Allocated(align, u, b, |c|).(table := Some(b), wanted := wanted))
  {
    hide Round;
    HeapGrows(align, heap, u, b, c);
    var u' := Allocated(align, u, b, |c|).(table := Some(b), wanted := wanted);
    assert Reached(u') == Reached(u) + multiset{b};
    OneMoreReached(align, heap, u, u', b, c);
  }

  lemma PartReached(align: nat, heap: Heap, u: Query, b: BlockId, c: seq<Byte>, p: Part)
    requires align > 0 && QueryOk(align, heap, u) && b !in heap && u.recs != [] && u.nrrs == 0
    requires p.block == Some(b) && PartOk(heap[b := c], p)
    ensures QueryOk(align, heap[b := c], Allocated(align, u, b, |c|).(recs := WithPart(u.recs, p)))
  {
    hide Round, WithPart, RecordsOk, RecordsSize, RecordsBlocks;
    HeapGrows(align, heap, u, b, c);
    PartAdded(align, heap[b := c], u.recs, p);
    WithPartLength(u.recs, p);
    var u' := Allocated(align, u, b, |c|).(recs := WithPart(u.recs, p));
    assert Reached(u') == Reached(u) + multiset{b};
    OneMoreReached(align, heap, u, u', b, c);
  }

  lemma WithPartLength(recs: seq<Record>, p: Part)
    requires recs != []
    ensures |WithPart(recs, p)| == |recs|
  {
  }

  /** A part that points nowhere yet. */
  lemma PartPending(align: nat, heap: Heap, u: Query, p: Part)
    requires align > 0 && QueryOk(align, heap, u) && u.recs != [] && u.nrrs == 0 && p.block.None?
    ensures QueryOk(align, heap, u.(recs := WithPart(u.recs, p)))
  {
    hide Round, WithPart, RecordsOk, RecordsSize, RecordsBlocks;
    PartAdded(align, heap, u.recs, p);
    WithPartLength(u.recs, p);
    var u' := u.(recs := WithPart(u.recs, p));
    assert Reached(u') == Reached(u);
  }

  lemma RecordBegun(align: nat, heap: Heap, u: Query)
    requires align > 0 && QueryOk(align, heap, u) && u.table.Some? && |u.recs| < u.wanted && u.nrrs == 0
    ensures QueryOk(align, heap, u.(recs := u.recs + [[]]))
  {
    hide Round, RecordsOk, RecordsSize, RecordsBlocks;
    RecordsGrow(align, heap, u.recs, []);
    var u' := u.(recs := u.recs + [[]]);
    assert Reached(u') == Reached(u);
  }

  /** adns__reset_preserved without the children. */
  function Forgotten(u: Query): (v: Query)
    ensures v.allocations == u.allocations
  {
    u.(nrrs := 0, table := None, recs := [], interim := u.preserved)
  }

  lemma ForgottenOk(align: nat, heap: Heap, u: Query)
    requires align > 0 && QueryOk(align, heap, u)
    ensures QueryOk(align, heap, Forgotten(u))
  {
    hide Round;
    ForgottenOnce(u);
    hide Reached, OwnedOnce;
  }

  lemma ForgottenOnce(u: Query)
    requires OwnedOnce(u)
    ensures OwnedOnce(Forgotten(u))
  {
    var v := Forgotten(u);
    assert Reached(v) <= Reached(u);
    hide Reached;
    forall b | b in Reached(v) ensures Reached(v)[b] == 1 && b in v.allocations {
      assert b in Reached(u) && Reached(v)[b] <= Reached(u)[b];
    }
  }

  /** What moves from a child to its parent: the table of addresses with its size. */
  lemma GivenAway(align: nat, heap: Heap, c: Query)
    requires align > 0 && QueryOk(align, heap, c) && c.table.Some?
    ensures c.table.value in c.allocations && Size(align, heap, c.table) == Round(align, c.rrsz * c.wanted)
  {
    assert c.table.value in Reached(c);
  }

  /** icb_hostaddr for the parent p of a child whose table is the block b. */
  lemma SlotReached(align: nat, heap: Heap, p: Query, s: Slot, b: BlockId, bytes: nat)
    requires align > 0 && QueryOk(align, heap, p) && SlotOk(p, s) && b in heap && b !in p.allocations && 0 < bytes == |heap[b]|
    ensures QueryOk(align, heap, Allocated(align, p, b, bytes).(recs := Filled(p.recs, s, Tab(Some(b), bytes))))
  {
    hide Round, Filled, RecordsOk, RecordsSize, RecordsBlocks;
    SlotFilled(align, heap, p.recs, s, Tab(Some(b), bytes));
    FilledOk(heap, p.recs, s, Tab(Some(b), bytes));
    FilledLength(p.recs, s, Tab(Some(b), bytes));
    var p' := Allocated(align, p, b, bytes).(recs := Filled(p.recs, s, Tab(Some(b), bytes)));
    assert Reached(p') == Reached(p) + multiset{b};
    hide Reached;
    forall x | x in Reached(p') ensures Reached(p')[x] == 1 && x in p'.allocations {
      if x != b {
        assert x in Reached(p);
      } else {
        assert b !in Reached(p);
      }
    }
  }

  lemma FilledLength(recs: seq<Record>, s: Slot, p: Part)
    requires s.rec < |recs| && s.part < |recs[s.rec]|
    ensures |Filled(recs, s, p)| == |recs|
  {
  }

  /** The part in the slot is a table that is not there yet. */
  ghost predicate SlotOk(p: Query, s: Slot) {
    s.rec < |p.recs| && s.part < |p.recs[s.rec]| && p.recs[s.rec][s.part].Tab? && p.recs[s.rec][s.part].block.None?
  }

  /** A child without records leaves its slot without a table. */
  lemma SlotEmpty(align: nat, heap: Heap, p: Query, s: Slot, bytes: int)
    requires align > 0 && QueryOk(align, heap, p) && SlotOk(p, s)
    ensures QueryOk(align, heap, p.(recs := Filled(p.recs, s, Tab(None, bytes))))
  {
    hide Round, Filled, RecordsOk, RecordsSize, RecordsBlocks;
    SlotFilled(align, heap, p.recs, s, Tab(None, bytes));
    FilledOk(heap, p.recs, s, Tab(None, bytes));
    FilledLength(p.recs, s, Tab(None, bytes));
    assert Reached(p.(recs := Filled(p.recs, s, Tab(None, bytes)))) == Reached(p);
  }

  // ---------- the queries of one adns state ----------

  /** d is q or one of its descendants. */
  predicate Under(qs: map<QueryId, Query>, d: QueryId, q: QueryId)
    decreases d
  {
    d == q || (d in qs && qs[d].parent.Some? && qs[d].parent.value < d && Under(qs, qs[d].parent.value, q))
  }

  ghost predicate ChildOk(addrSize: nat, qs: map<QueryId, Query>, c: QueryId)
    requires c in qs && qs[c].parent.Some?
  {
    var p := qs[c].parent.value;
    p < c && p in qs && (qs[c].slot.Some? ==> qs[c].rrsz == addrSize && SlotOk(qs[p], qs[c].slot.value))
  }

  /** No two children fill the same slot. */
  ghost predicate OwnSlots(qs: map<QueryId, Query>) {
    forall c, d | c in qs && d in qs && c != d && qs[c].slot.Some? :: qs[c].parent != qs[d].parent || qs[c].slot != qs[d].slot
  }

  ghost predicate FamilyOk(addrSize: nat, qs: map<QueryId, Query>) {
    (forall c | c in qs && qs[c].parent.Some? :: ChildOk(addrSize, qs, c)) && OwnSlots(qs)
  }

  ghost predicate Apart(qs: map<QueryId, Query>) {
    forall q, r | q in qs && r in qs && q != r :: qs[q].allocations !! qs[r].allocations
  }

  ghost predicate AllOk(align: nat, heap: Heap, qs: map<QueryId, Query>)
    requires align > 0
  {
    forall q | q in qs :: QueryOk(align, heap, qs[q])
  }

  /** What was in its slots is in the slots of the new record. */
  ghost predicate SlotsKept(u: Query, v: Query) {
    forall s | SlotOk(u, s) :: SlotOk(v, s)
  }

  /** One query changed, with blocks that are its own. */
  lemma UpdatedFamily(addrSize: nat, qs: map<QueryId, Query>, q: QueryId, v: Query)
    requires FamilyOk(addrSize, qs) && q in qs && SlotsKept(qs[q], v)
    requires v.parent == qs[q].parent && v.slot == qs[q].slot && v.rrsz == qs[q].rrsz
    ensures FamilyOk(addrSize, qs[q := v])
  {
    var ns := qs[q := v];
    forall c | c in ns && ns[c].parent.Some? ensures ChildOk(addrSize, ns, c) {
      assert ChildOk(addrSize, qs, c);
    }
  }

  lemma UpdatedBlocks(align: nat, heap: Heap, heap': Heap, qs: map<QueryId, Query>, q: QueryId, v: Query)
    requires align > 0 && AllOk(align, heap, qs) && Apart(qs) && q in qs && QueryOk(align, heap', v)
    requires forall r | r in qs && r != q :: Agree(heap, heap', qs[r].allocations) && qs[r].allocations !! v.allocations
    ensures AllOk(align, heap', qs[q := v]) && Apart(qs[q := v])
  {
    hide QueryOk, Agree;
    forall r | r in qs && r != q ensures QueryOk(align, heap', qs[r]) {
      QueryFrame(align, heap, heap', qs[r]);
    }
  }

  /** A part of the queries that is closed under parents, and the blocks that they own. */
  lemma RemovedOk(align: nat, addrSize: nat, heap: Heap, heap': Heap, qs: map<QueryId, Query>, ns: map<QueryId, Query>)
    requires align > 0 && AllOk(align, heap, qs) && Apart(qs) && FamilyOk(addrSize, qs)
    requires forall r | r in ns :: r in qs && ns[r] == qs[r] && Agree(heap, heap', qs[r].allocations)
    requires forall r | r in ns && ns[r].parent.Some? :: ns[r].parent.value in ns
    ensures AllOk(align, heap', ns) && Apart(ns) && FamilyOk(addrSize, ns)
  {
    hide QueryOk, Agree, SlotOk;
    forall r | r in ns ensures QueryOk(align, heap', ns[r]) {
      QueryFrame(align, heap, heap', qs[r]);
    }
    forall c | c in ns && ns[c].parent.Some? ensures ChildOk(addrSize, ns, c) {
      assert ChildOk(addrSize, qs, c);
    }
  }

  /** The queries without q and its descendants. */
  function Without(qs: map<QueryId, Query>, q: QueryId): map<QueryId, Query> {
    map r | r in qs && !Under(qs, r, q) :: qs[r]
  }

  /** The queries without the descendants of q. */
  function Childless(qs: map<QueryId, Query>, q: QueryId): map<QueryId, Query> {
    map r | r in qs && (r == q || !Under(qs, r, q)) :: qs[r]
  }

  /** The blocks of the given queries; freeing the others leaves no pointer dangling. */
  function Owned(qs: map<QueryId, Query>): set<BlockId> {
    set q, b | q in qs && b in qs[q].allocations :: b
  }

  function Freed(heap: Heap, qs: map<QueryId, Query>): Heap {
    map b | b in heap && b in Owned(qs) :: heap[b]
  }

  lemma FreedAgrees(align: nat, heap: Heap, qs: map<QueryId, Query>, r: QueryId)
    requires align > 0 && r in qs && QueryOk(align, heap, qs[r])
    ensures Agree(heap, Freed(heap, qs), qs[r].allocations)
  {
  }

  lemma WithoutOk(align: nat, addrSize: nat, heap: Heap, qs: map<QueryId, Query>, q: QueryId)
    requires align > 0 && AllOk(align, heap, qs) && Apart(qs) && FamilyOk(addrSize, qs)
    ensures var ns := Without(qs, q);
      AllOk(align, Freed(heap, ns), ns) && Apart(ns) && FamilyOk(addrSize, ns)
  {
    hide QueryOk, Agree, SlotOk;
    var ns := Without(qs, q);
    forall r | r in ns ensures Agree(heap, Freed(heap, ns), qs[r].allocations) {
      FreedAgrees(align, heap, ns, r);
    }
    forall r | r in ns && ns[r].parent.Some? ensures ns[r].parent.value in ns {
      assert ChildOk(addrSize, qs, r);
    }
    RemovedOk(align, addrSize, heap, Freed(heap, ns), qs, ns);
  }

  lemma ChildlessOk(align: nat, addrSize: nat, heap: Heap, qs: map<QueryId, Query>, q: QueryId)
    requires align > 0 && AllOk(align, heap, qs) && Apart(qs) && FamilyOk(addrSize, qs)
    ensures var ns := Childless(qs, q);
      AllOk(align, Freed(heap, ns), ns) && Apart(ns) && FamilyOk(addrSize, ns)
    ensures forall r | r in Childless(qs, q) :: qs[r].parent != Some(q)
  {
    hide QueryOk, Agree, SlotOk;
    var ns := Childless(qs, q);
    forall r | r in ns ensures Agree(heap, Freed(heap, ns), qs[r].allocations) {
      FreedAgrees(align, heap, ns, r);
    }
    forall r | r in ns && ns[r].parent.Some? ensures ns[r].parent.value in ns && ns[r].parent.value != q {
      assert ChildOk(addrSize, qs, r);
      if r == q {
        NotUnderLater(qs, ns[r].parent.value, q);
      }
    }
    RemovedOk(align, addrSize, heap, Freed(heap, ns), qs, ns);
  }

  lemma {:induction false} NotUnderLater(qs: map<QueryId, Query>, p: QueryId, q: QueryId)
    requires p < q
    ensures !Under(qs, p, q)
    decreases p
  {
    if p in qs && qs[p].parent.Some? && qs[p].parent.value < p {
      NotUnderLater(qs, qs[p].parent.value, q);
    }
  }
}
