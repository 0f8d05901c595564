/** Arithmetic of double hashing: with a prime table size every probe sequence visits every slot. */
module Probing {
  predicate Prime(p: nat) {
    p >= 2 && forall d :: 2 <= d < p ==> p % d != 0
  }

  lemma ModUnique(a: int, p: nat, q: int, r: int)
    requires p > 0 && a == q * p + r && 0 <= r < p
    ensures a % p == r
  {
    var d := a / p - q;
    assert d * p == r - a % p;
    assert d >= 1 ==> d * p >= p;
    assert d <= -1 ==> d * p + p <= 0;
  }

  lemma MultipleModZero(q: int, p: nat)
    requires p > 0
    ensures (q * p) % p == 0
  {
    ModUnique(q * p, p, q, 0);
  }

  /** The multiple k * a is one of p. */
  predicate Annihilates(p: nat, a: nat, k: nat)
    requires p > 0
  {
    (k * a) % p == 0
  }

  /** The remainder of m by k annihilates a as m and k do. */
  lemma RemainderAnnihilates(p: nat, a: nat, m: nat, k: nat)
    requires p > 0 && k > 0 && Annihilates(p, a, m) && Annihilates(p, a, k)
    ensures Annihilates(p, a, m % k)
  {
    var q, x, y := m / k, (m * a) / p, (k * a) / p;
    assert m * a == x * p && k * a == y * p;
    assert (m % k) * a == (x - q * y) * p by {
      assert m % k == m - q * k;
      assert (m - q * k) * a == m * a - q * (k * a);
      assert q * (y * p) == (q * y) * p;
    }
    MultipleModZero(x - q * y, p);
  }

  /** Euclid's lemma, in the form double hashing needs it. */
  lemma NoEarlyReturn(p: nat, a: nat, m: nat)
    requires Prime(p) && 0 < a < p && 0 < m < p
    ensures (m * a) % p != 0
  {
    if Annihilates(p, a, m) {
      hide Prime, Annihilates;
      var k := LeastAnnihilator(p, a, m);
      ItselfAnnihilates(p, a);
      RemainderAnnihilates(p, a, p, k);
      LeastDivides(p, a, k);
    }
  }

  lemma ItselfAnnihilates(p: nat, a: nat)
    requires p > 0
    ensures Annihilates(p, a, p) && (0 < a < p ==> !Annihilates(p, a, 1))
  {
    assert p * a == a * p;
    MultipleModZero(a, p);
    if 0 < a < p {
      ModUnique(a, p, 0, a);
    }
  }

  lemma LeastDivides(p: nat, a: nat, k: nat)
    requires Prime(p) && 0 < a < p && 0 < k <= p && Annihilates(p, a, k) && Annihilates(p, a, p % k)
    requires forall j :: 0 < j < k ==> !Annihilates(p, a, j)
    ensures k == p
  {
    hide Annihilates;
    ItselfAnnihilates(p, a);
    assert 0 <= p % k < k;
    assert p % k == 0;
  }

  lemma LeastAnnihilator(p: nat, a: nat, m: nat) returns (k: nat)
    requires p > 0 && 0 < m < p && Annihilates(p, a, m)
    ensures 0 < k <= m && Annihilates(p, a, k)
    ensures forall j :: 0 < j < k ==> !Annihilates(p, a, j)
  {
    hide Annihilates;
    k := 1;
    while !Annihilates(p, a, k)
      invariant 0 < k <= m
      invariant forall j :: 0 < j < k ==> !Annihilates(p, a, j)
      decreases m - k
    {
      k := k + 1;
    }
  }

  /** The slot examined at step j. */
  function Slot(h: nat, incr: nat, size: nat, j: nat): (s: nat)
    requires size > 0
    ensures s < size
  {
    (h + j * incr) % size
  }

  /** Advancing without leaving the range of the table, as the code does, is addition modulo its size. */
  function NextSlot(idx: nat, incr: nat, size: nat): nat
    requires idx < size && incr <= size
  {
    if idx >= size - incr then idx - (size - incr) else idx + incr
  }

  lemma NextSlotIsSlot(h: nat, incr: nat, size: nat, j: nat)
    requires 0 < incr < size
    ensures NextSlot(Slot(h, incr, size, j), incr, size) == Slot(h, incr, size, j + 1)
  {
    var q := (h + j * incr) / size;
    var idx := Slot(h, incr, size, j);
    assert h + (j + 1) * incr == q * size + idx + incr;
    if idx >= size - incr {
      ModUnique(h + (j + 1) * incr, size, q + 1, idx + incr - size);
    } else {
      ModUnique(h + (j + 1) * incr, size, q, idx + incr);
    }
  }

  lemma SlotsDistinct(h: nat, incr: nat, size: nat, i: nat, j: nat)
    requires Prime(size) && 0 < incr < size && i < j < size
    ensures Slot(h, incr, size, i) != Slot(h, incr, size, j)
  {
    if Slot(h, incr, size, i) == Slot(h, incr, size, j) {
      var x, y := (h + i * incr) / size, (h + j * incr) / size;
      assert (j - i) * incr == (y - x) * size;
      MultipleModZero(y - x, size);
      NoEarlyReturn(size, incr, j - i);
    }
  }

  function Visited(h: nat, incr: nat, size: nat, n: nat): set<nat>
    requires size > 0
  {
    set j | 0 <= j < n :: Slot(h, incr, size, j)
  }

  lemma {:induction false} VisitedCount(h: nat, incr: nat, size: nat, n: nat)
    requires Prime(size) && 0 < incr < size && n <= size
    ensures |Visited(h, incr, size, n)| == n
  {
    hide Prime, Slot;
    if n > 0 {
      VisitedCount(h, incr, size, n - 1);
      var s := Slot(h, incr, size, n - 1);
      forall j | 0 <= j < n - 1 ensures Slot(h, incr, size, j) != s {
        SlotsDistinct(h, incr, size, j, n - 1);
      }
      assert s !in Visited(h, incr, size, n - 1);
      assert Visited(h, incr, size, n) == Visited(h, incr, size, n - 1) + {s};
    } else {
      assert Visited(h, incr, size, 0) == {};
    }
  }

  lemma {:induction false} SubsetOfSameSize(a: set<nat>, b: set<nat>)
    requires a <= b && |a| == |b|
    ensures a == b
    decreases |a|
  {
    if a != {} {
      var x :| x in a;
      SubsetOfSameSize(a - {x}, b - {x});
      assert a == (a - {x}) + {x} && b == (b - {x}) + {x};
    }
  }

  function Below(n: nat): set<nat> {
    if n == 0 then {} else Below(n - 1) + {n - 1}
  }

  lemma {:induction false} BelowFacts(n: nat)
    ensures |Below(n)| == n
    ensures forall x: nat :: x in Below(n) <==> x < n
  {
    if n > 0 {
      BelowFacts(n - 1);
    }
  }

  /** The probe sequence passes every slot within size steps. */
  lemma EverySlotVisited(h: nat, incr: nat, size: nat, s: nat) returns (j: nat)
    requires Prime(size) && 0 < incr < size && s < size
    ensures j < size && Slot(h, incr, size, j) == s
  {
    hide Prime, Slot;
    var v := Visited(h, incr, size, size);
    VisitedCount(h, incr, size, size);
    BelowFacts(size);
    assert v <= Below(size);
    SubsetOfSameSize(v, Below(size));
    assert s in v;
    j :| 0 <= j < size && Slot(h, incr, size, j) == s;
  }
}

/** The message index of a catalog: _nl_find_msg and the augmented hash table of _nl_load_domain. */
module CatalogIndex {
  import opened Common
  import opened Probing

  /** The part of a catalog string before its first NUL: what strcmp and hash_string see. */
  function Key(s: string): (k: string)
    ensures |k| <= |s| && k == s[..|k|] && '\0' !in k
    ensures if '\0' in s then |k| < |s| && s[|k|] == '\0' else k == s
  {
    if s == [] || s[0] == '\0' then [] else [s[0]] + Key(s[1..])
  }

  /** The original strings.  A static string comes without its terminator, a system dependent
      one with it, which is why the code compares lengths with >= and with >. */
  datatype Strings = Strings(fixed: seq<string>, sysdep: seq<string>)

  predicate Terminated(t: Strings) {
    forall i :: 0 <= i < |t.sysdep| ==> '\0' in t.sysdep[i]
  }

  function Count(t: Strings): nat {
    |t.fixed| + |t.sysdep|
  }

  function KeyAt(t: Strings, i: nat): string
    requires i < Count(t)
  {
    if i < |t.fixed| then Key(t.fixed[i]) else Key(t.sysdep[i - |t.fixed|])
  }

  /** The comparison of the probe loop. */
  predicate SameMessage(t: Strings, i: nat, msgid: string)
    requires i < Count(t)
  {
    if i < |t.fixed| then |t.fixed[i]| >= |msgid| && Key(t.fixed[i]) == msgid
    else |t.sysdep[i - |t.fixed|]| > |msgid| && Key(t.sysdep[i - |t.fixed|]) == msgid
  }

  lemma SameMessageIsKey(t: Strings, i: nat, msgid: string)
    requires Terminated(t) && i < Count(t)
    ensures SameMessage(t, i, msgid) <==> KeyAt(t, i) == msgid
  {
  }

  /** The reference: the first of the strings i, i+1, ..., n-1 with the given key. */
  function Search(t: Strings, msgid: string, i: nat, n: nat): (r: Option<nat>)
    requires i <= n <= Count(t)
    ensures r.Some? ==> i <= r.value < n && KeyAt(t, r.value) == msgid
    ensures forall j :: i <= j < n && (r.Some? ==> j < r.value) ==> KeyAt(t, j) != msgid
    decreases n - i
  {
    if i == n then None
    else if KeyAt(t, i) == msgid then Some(i)
    else Search(t, msgid, i + 1, n)
  }

  // ---------- the table ----------

  function Start(hash: string -> nat, key: string, size: nat): nat
    requires size > 2
  {
    hash(key) % size
  }

  function Incr(hash: string -> nat, key: string, size: nat): (r: nat)
    requires size > 2
    ensures 0 < r < size
  {
    1 + hash(key) % (size - 2)
  }

  /** The slot of step j for a key. */
  function At(hash: string -> nat, key: string, size: nat, j: nat): (s: nat)
    requires size > 2
    ensures s < size
  {
    Slot(Start(hash, key, size), Incr(hash, key, size), size, j)
  }

  /** The slot of step j holds a string with this key. */
  predicate Holds(hash: string -> nat, t: Strings, tab: seq<nat>, key: string, j: nat)
    requires |tab| > 2
  {
    var v := tab[At(hash, key, |tab|, j)];
    0 < v <= Count(t) && KeyAt(t, v - 1) == key
  }

  /** Whatever precedes step b on the probe sequence of key is in use, and the strings with
      this key among it have lower numbers. */
  ghost predicate Reachable(hash: string -> nat, t: Strings, tab: seq<nat>, key: string, b: nat)
    requires |tab| > 2
  {
    forall a :: 0 <= a < b ==>
      tab[At(hash, key, |tab|, a)] != 0 &&
      (Holds(hash, t, tab, key, a) ==> tab[At(hash, key, |tab|, a)] < tab[At(hash, key, |tab|, b)])
  }

  /** A valid table for the first n strings. */
  ghost predicate Indexes(hash: string -> nat, t: Strings, tab: seq<nat>, n: nat) {
    |tab| > 2 && Prime(|tab|) && n <= Count(t) &&
    (forall v :: v in tab ==> v <= n) &&
    (forall v :: 1 <= v <= n ==> v in tab) &&
    (forall key, b :: 0 <= b < |tab| && Holds(hash, t, tab, key, b) ==> Reachable(hash, t, tab, key, b))
  }

  /** No search for the key has stopped before step j. */
  ghost predicate Passed(hash: string -> nat, t: Strings, tab: seq<nat>, key: string, j: nat)
    requires |tab| > 2
  {
    forall a :: 0 <= a < j ==> tab[At(hash, key, |tab|, a)] != 0 && !Holds(hash, t, tab, key, a)
  }

  /** Every value of the table lies on every probe sequence. */
  lemma OnEveryPath(hash: string -> nat, tab: seq<nat>, key: string, v: nat) returns (j: nat)
    requires |tab| > 2 && Prime(|tab|) && v in tab
    ensures j < |tab| && tab[At(hash, key, |tab|, j)] == v
  {
    hide Prime, Slot;
    var s :| 0 <= s < |tab| && tab[s] == v;
    j := EverySlotVisited(Start(hash, key, |tab|), Incr(hash, key, |tab|), |tab|, s);
  }

  lemma AtDistinct(hash: string -> nat, key: string, size: nat, i: nat, j: nat)
    requires size > 2 && Prime(size) && i < size && j < size && i != j
    ensures At(hash, key, size, i) != At(hash, key, size, j)
  {
    hide Prime, Slot;
    if i < j {
      SlotsDistinct(Start(hash, key, size), Incr(hash, key, size), size, i, j);
    } else {
      SlotsDistinct(Start(hash, key, size), Incr(hash, key, size), size, j, i);
    }
  }

  lemma AtNext(hash: string -> nat, key: string, size: nat, j: nat)
    requires size > 2
    ensures NextSlot(At(hash, key, size, j), Incr(hash, key, size), size) == At(hash, key, size, j + 1)
  {
    hide Slot, NextSlot;
    NextSlotIsSlot(Start(hash, key, size), Incr(hash, key, size), size, j);
  }

  lemma AtZero(hash: string -> nat, key: string, size: nat)
    requires size > 2
    ensures At(hash, key, size, 0) == hash(key) % size
  {
    assert Start(hash, key, size) + 0 * Incr(hash, key, size) == Start(hash, key, size);
    ModUnique(Start(hash, key, size), size, 0, Start(hash, key, size));
  }

  // ---------- looking up ----------

  /** A string that has the key lies on its probe sequence, before the first free slot. */
  lemma StringIsMet(hash: string -> nat, t: Strings, tab: seq<nat>, n: nat, i: nat) returns (b: nat)
    requires Indexes(hash, t, tab, n) && i < n
    ensures b < |tab| && tab[At(hash, KeyAt(t, i), |tab|, b)] == i + 1
    ensures Holds(hash, t, tab, KeyAt(t, i), b) && Reachable(hash, t, tab, KeyAt(t, i), b)
  {
    hide At, Prime, KeyAt;
    b := OnEveryPath(hash, tab, KeyAt(t, i), i + 1);
  }

  lemma FreeMeansAbsent(hash: string -> nat, t: Strings, tab: seq<nat>, n: nat, key: string, j: nat)
    requires Indexes(hash, t, tab, n) && Passed(hash, t, tab, key, j) && tab[At(hash, key, |tab|, j)] == 0
    ensures Search(t, key, 0, n) == None
  {
    hide At, Prime, KeyAt, Indexes;
    assert |tab| > 2 && n <= Count(t) by {
      IndexesFacts(hash, t, tab, n);
    }
    if Search(t, key, 0, n).Some? {
      var b := StringIsMet(hash, t, tab, n, Search(t, key, 0, n).value);
    }
  }

  lemma IndexesFacts(hash: string -> nat, t: Strings, tab: seq<nat>, n: nat)
    requires Indexes(hash, t, tab, n)
    ensures |tab| > 2 && Prime(|tab|) && n <= Count(t)
    ensures forall s :: 0 <= s < |tab| ==> tab[s] <= n
  {
    assert forall s :: 0 <= s < |tab| ==> tab[s] in tab;
  }

  lemma MatchIsFirst(hash: string -> nat, t: Strings, tab: seq<nat>, n: nat, key: string, j: nat)
    requires Indexes(hash, t, tab, n) && j < |tab| && Passed(hash, t, tab, key, j) && Holds(hash, t, tab, key, j)
    ensures Search(t, key, 0, n) == Some(tab[At(hash, key, |tab|, j)] - 1)
  {
    hide At, Prime, KeyAt, Indexes;
    IndexesFacts(hash, t, tab, n);
    var v := tab[At(hash, key, |tab|, j)];
    var r := Search(t, key, 0, n);
    assert r.Some? && r.value <= v - 1;
    if r.value < v - 1 {
      var b := StringIsMet(hash, t, tab, n, r.value);
    }
  }

  /** The probe loop of _nl_find_msg: it ends, and finds what a linear search finds. */
  method FindMsg(hash: string -> nat, t: Strings, tab: array<nat>, msgid: string) returns (r: Option<nat>)
    requires Terminated(t) && Indexes(hash, t, tab[..], Count(t)) && 0 in tab[..]
    ensures r == Search(t, msgid, 0, Count(t))
  {
    hide At, Prime, KeyAt, Indexes, SameMessage, NextSlot;
    IndexesFacts(hash, t, tab[..], Count(t));
    ghost var z := OnEveryPath(hash, tab[..], msgid, 0);
    var size := tab.Length;
    var idx := hash(msgid) % size;
    var incr := Incr(hash, msgid, size);
    AtZero(hash, msgid, size);
    ghost var j: nat := 0;
    while true
      invariant j <= z && idx == At(hash, msgid, size, j) && Passed(hash, t, tab[..], msgid, j)
      decreases z - j
    {
      var nstr := tab[idx];
      if nstr == 0 {
        FreeMeansAbsent(hash, t, tab[..], Count(t), msgid, j);
        return None;
      }
      SameMessageIsKey(t, nstr - 1, msgid);
      if SameMessage(t, nstr - 1, msgid) {
        MatchIsFirst(hash, t, tab[..], Count(t), msgid, j);
        return Some(nstr - 1);
      }
      AtNext(hash, msgid, size, j);
      idx := NextSlot(idx, incr, size);
      j := j + 1;
    }
  }

  // ---------- building ----------

  function Free(tab: seq<nat>): set<nat> {
    set s: nat | 0 <= s < |tab| && tab[s] == 0 :: s
  }

  /** Step z is the first free slot of the key. */
  ghost predicate FirstFree(hash: string -> nat, tab: seq<nat>, key: string, z: nat)
    requires |tab| > 2
  {
    z < |tab| && tab[At(hash, key, |tab|, z)] == 0 &&
    forall a :: 0 <= a < z ==> tab[At(hash, key, |tab|, a)] != 0
  }

  /** Storing the next string in the first free slot of its key keeps the table valid. */
  lemma PlacingKeepsIndexes(hash: string -> nat, t: Strings, tab: seq<nat>, n: nat, z: nat)
    requires Indexes(hash, t, tab, n) && n < Count(t) && FirstFree(hash, tab, KeyAt(t, n), z)
    ensures Indexes(hash, t, tab[At(hash, KeyAt(t, n), |tab|, z) := n + 1], n + 1)
    ensures Free(tab[At(hash, KeyAt(t, n), |tab|, z) := n + 1]) == Free(tab) - {At(hash, KeyAt(t, n), |tab|, z)}
  {
    hide At, Prime, KeyAt;
    var k := KeyAt(t, n);
    var s := At(hash, k, |tab|, z);
    var tab' := tab[s := n + 1];
    forall v | 1 <= v <= n + 1 ensures v in tab' {
      var m := s;
      if v <= n {
        assert v in tab;
        m :| 0 <= m < |tab| && tab[m] == v;
      }
      assert tab'[m] == v;
    }
    forall v | v in tab' ensures v <= n + 1 {
      assert v == n + 1 || v in tab;
    }
    assert forall m :: 0 <= m < |tab| && m != s ==> tab'[m] == tab[m];
    assert Free(tab') == Free(tab) - {s};
    forall key, b | 0 <= b < |tab'| && Holds(hash, t, tab', key, b) ensures Reachable(hash, t, tab', key, b) {
      PlacingKeepsReachable(hash, t, tab, n, z, key, b);
    }
  }

  lemma PlacingKeepsReachable(hash: string -> nat, t: Strings, tab: seq<nat>, n: nat, z: nat, key: string, b: nat)
    requires Indexes(hash, t, tab, n) && n < Count(t) && FirstFree(hash, tab, KeyAt(t, n), z)
    requires b < |tab| && Holds(hash, t, tab[At(hash, KeyAt(t, n), |tab|, z) := n + 1], key, b)
    ensures Reachable(hash, t, tab[At(hash, KeyAt(t, n), |tab|, z) := n + 1], key, b)
  {
    hide At, Prime, KeyAt, Indexes;
    IndexesFacts(hash, t, tab, n);
    var s := At(hash, KeyAt(t, n), |tab|, z);
    var tab' := tab[s := n + 1];
    if At(hash, key, |tab|, b) == s {
      if b != z {
        AtDistinct(hash, key, |tab|, b, z);
      }
      forall a | 0 <= a < b ensures At(hash, key, |tab|, a) != s {
        AtDistinct(hash, key, |tab|, a, b);
      }
    } else {
      assert Holds(hash, t, tab, key, b);
      HoldsReachable(hash, t, tab, n, key, b);
    }
  }

  lemma HoldsReachable(hash: string -> nat, t: Strings, tab: seq<nat>, n: nat, key: string, b: nat)
    requires Indexes(hash, t, tab, n) && b < |tab| && Holds(hash, t, tab, key, b)
    ensures Reachable(hash, t, tab, key, b)
  {
  }

  /** The insertion loop of _nl_load_domain. */
  method Insert(hash: string -> nat, tab: array<nat>, key: string, v: nat) returns (ghost z: nat)
    requires tab.Length > 2 && Prime(tab.Length) && 0 in tab[..]
    modifies tab
    ensures FirstFree(hash, old(tab[..]), key, z)
    ensures tab[..] == old(tab[..])[At(hash, key, tab.Length, z) := v]
  {
    hide At, Prime, NextSlot;
    ghost var last := OnEveryPath(hash, tab[..], key, 0);
    var size := tab.Length;
    var idx := hash(key) % size;
    var incr := Incr(hash, key, size);
    AtZero(hash, key, size);
    z := 0;
    while tab[idx] != 0
      invariant z <= last && idx == At(hash, key, size, z)
      invariant tab[..] == old(tab[..])
      invariant forall a :: 0 <= a < z ==> tab[At(hash, key, size, a)] != 0
      decreases last - z
    {
      AtNext(hash, key, size, z);
      idx := NextSlot(idx, incr, size);
      z := z + 1;
    }
    assert FirstFree(hash, tab[..], key, z);
    tab[idx] := v;
    assert tab[..] == old(tab[..])[idx := v];
  }

  /** The augmented table: a copy of the static one, then one insertion for each system
      dependent string.  It is valid for all strings and keeps a free slot. */
  method Augment(hash: string -> nat, t: Strings, stored: seq<nat>) returns (tab: array<nat>)
    requires Indexes(hash, t, stored, |t.fixed|) && |Free(stored)| > |t.sysdep|
    ensures fresh(tab) && Indexes(hash, t, tab[..], Count(t))
    ensures |Free(tab[..])| == |Free(stored)| - |t.sysdep|
    ensures 0 in tab[..]
  {
    hide At, Prime, Indexes, Reachable;
    IndexesFacts(hash, t, stored, |t.fixed|);
    tab := new nat[|stored|](i requires 0 <= i < |stored| => stored[i]);
    assert tab[..] == stored;
    for i := 0 to |t.sysdep|
      invariant tab.Length == |stored|
      invariant Indexes(hash, t, tab[..], |t.fixed| + i)
      invariant |Free(tab[..])| == |Free(stored)| - i
    {
      IndexesFacts(hash, t, tab[..], |t.fixed| + i);
      ghost var was := tab[..];
      FreeIsZero(was);
      ghost var z := Insert(hash, tab, Key(t.sysdep[i]), 1 + |t.fixed| + i);
      PlacingKeepsIndexes(hash, t, was, |t.fixed| + i, z);
      assert |Free(tab[..])| == |Free(was)| - 1;
    }
    FreeIsZero(tab[..]);
  }

  lemma FreeIsZero(tab: seq<nat>)
    requires |Free(tab)| > 0
    ensures 0 in tab
  {
    var s :| s in Free(tab);
    assert tab[s] == 0;
  }

  // ---------- the path without a hash table ----------

  /** strcmp on keys, as an order: a before b, equal, or after it. */
  function StrCmp(a: string, b: string): (r: int)
    ensures r == 0 <==> a == b
  {
    if a == [] then (if b == [] then 0 else -1)
    else if b == [] then 1
    else if a[0] != b[0] then a[0] as int - b[0] as int
    else
      assert a == [a[0]] + a[1..] && b == [b[0]] + b[1..];
      StrCmp(a[1..], b[1..])
  }

  lemma {:induction false} StrCmpTransitive(a: string, b: string, c: string)
    requires StrCmp(a, b) < 0 && StrCmp(b, c) < 0
    ensures StrCmp(a, c) < 0
  {
    if a != [] && a[0] == b[0] == c[0] {
      StrCmpTransitive(a[1..], b[1..], c[1..]);
    }
  }

  lemma {:induction false} StrCmpSwaps(a: string, b: string)
    ensures StrCmp(a, b) == -StrCmp(b, a)
  {
    if a != [] && b != [] && a[0] == b[0] {
      StrCmpSwaps(a[1..], b[1..]);
    }
  }

  ghost predicate Sorted(t: Strings) {
    forall i, j :: 0 <= i < j < |t.fixed| ==> StrCmp(KeyAt(t, i), KeyAt(t, j)) < 0
  }

  /** The binary search of _nl_find_msg over the static strings. */
  method FindMsgSorted(t: Strings, msgid: string) returns (r: Option<nat>)
    requires Sorted(t)
    ensures r == Search(t, msgid, 0, |t.fixed|)
  {
    hide StrCmp, Search;
    var bottom, top := 0, |t.fixed|;
    while bottom < top
      invariant bottom <= top <= |t.fixed|
      invariant forall i :: 0 <= i < bottom ==> StrCmp(KeyAt(t, i), msgid) < 0
      invariant forall i :: top <= i < |t.fixed| ==> StrCmp(msgid, KeyAt(t, i)) < 0
    {
      var act := (bottom + top) / 2;
      var cmp := StrCmp(msgid, Key(t.fixed[act]));
      StrCmpSwaps(msgid, Key(t.fixed[act]));
      if cmp < 0 {
        forall i | act < i < |t.fixed| ensures StrCmp(msgid, KeyAt(t, i)) < 0 {
          StrCmpTransitive(msgid, KeyAt(t, act), KeyAt(t, i));
        }
        top := act;
      } else if cmp > 0 {
        forall i | 0 <= i < act ensures StrCmp(KeyAt(t, i), msgid) < 0 {
          StrCmpTransitive(KeyAt(t, i), KeyAt(t, act), msgid);
        }
        bottom := act + 1;
      } else {
        FoundIsFirst(t, msgid, act);
        return Some(act);
      }
    }
    NowhereFound(t, msgid, bottom);
    return None;
  }

  lemma FoundIsFirst(t: Strings, msgid: string, act: nat)
    requires Sorted(t) && act < |t.fixed| && KeyAt(t, act) == msgid
    ensures Search(t, msgid, 0, |t.fixed|) == Some(act)
  {
    var s := Search(t, msgid, 0, |t.fixed|);
    assert s.Some? && s.value <= act;
  }

  lemma NowhereFound(t: Strings, msgid: string, k: nat)
    requires k <= |t.fixed|
    requires forall i :: 0 <= i < k ==> StrCmp(KeyAt(t, i), msgid) < 0
    requires forall i :: k <= i < |t.fixed| ==> StrCmp(msgid, KeyAt(t, i)) < 0
    ensures Search(t, msgid, 0, |t.fixed|) == None
  {
  }
}
