/** Bind tables: a doubly linked list that reorders itself while it is traversed. */
module Binds {
  import opened Common

  // ---------- the order, on values ----------

  /** What the order of a list depends on: whether an entry is live, and its hits. */
  datatype Stat = Stat(live: bool, hits: nat)

  ghost predicate Sorted(v: seq<Stat>) {
    forall a, b :: 0 <= a < b < |v| && v[a].live && v[b].live ==> v[a].hits >= v[b].hits
  }

  /** Element i moved forward to position j. */
  function Moved<T>(s: seq<T>, i: nat, j: nat): (r: seq<T>)
    requires j <= i < |s|
    ensures |r| == |s|
  {
    s[..j] + [s[i]] + s[j..i] + s[i + 1..]
  }

  lemma MovedAt<T>(s: seq<T>, i: nat, j: nat, k: nat)
    requires j <= i < |s| && k < |s|
    ensures Moved(s, i, j)[k] == if k < j || k > i then s[k] else if k == j then s[i] else s[k - 1]
  {
  }

  lemma MovedIsPermutation<T>(s: seq<T>, i: nat, j: nat)
    requires j <= i < |s|
    ensures multiset(Moved(s, i, j)) == multiset(s)
  {
    assert s == s[..j] + s[j..i] + [s[i]] + s[i + 1..];
  }

  /** Where the entry at i belongs after a hit: right behind the last live entry before it
      that has as many hits. */
  ghost predicate Place(v: seq<Stat>, i: nat, j: nat) {
    j <= i < |v| && (j > 0 ==> v[j - 1].live && v[j - 1].hits >= v[i].hits) &&
    forall k :: j <= k < i ==> !(v[k].live && v[k].hits >= v[i].hits)
  }

  /** One more hit for the live entry at i, which then moves to its place, keeps the order. */
  lemma HitKeepsOrder(v: seq<Stat>, i: nat, j: nat)
    requires i < |v| && v[i].live && Sorted(v)
    requires Place(v[i := Stat(true, v[i].hits + 1)], i, j)
    ensures Sorted(Moved(v[i := Stat(true, v[i].hits + 1)], i, j))
  {
    var w := v[i := Stat(true, v[i].hits + 1)];
    var m := Moved(w, i, j);
    forall a, b | 0 <= a < b < |m| && m[a].live && m[b].live ensures m[a].hits >= m[b].hits {
      MovedAt(w, i, j, a);
      MovedAt(w, i, j, b);
    }
  }

  /** A new entry, without hits, at position j keeps the order exactly when no live entry
      behind it has been hit: always at the end, not always behind an entry it is stacked on. */
  lemma AddKeepsOrder(v: seq<Stat>, j: nat)
    requires j <= |v| && Sorted(v)
    ensures Sorted(v[..j] + [Stat(true, 0)] + v[j..]) <==> forall b :: j <= b < |v| && v[b].live ==> v[b].hits == 0
  {
    var w := v[..j] + [Stat(true, 0)] + v[j..];
    assert forall k :: 0 <= k < |w| ==> w[k] == if k < j then v[k] else if k == j then Stat(true, 0) else v[k - 1];
    forall b | j <= b < |v| && v[b].live && Sorted(w) ensures v[b].hits == 0 {
      assert w[b + 1] == v[b] && w[j].live;
    }
  }

  // ---------- the list ----------

  /** What a bind is for: its mask, the name of its function and the user flags it asks for. */
  datatype Info = Info(mask: string, name: string, flags: nat)

  class Entry {
    var info: Info
    var next: Entry?
    var prev: Entry?
    var nhits: nat
    var deleted: bool

    constructor (i: Info)
      ensures info == i && nhits == 0 && !deleted
    {
      info, next, prev, nhits, deleted := i, null, null, 0, false;
    }
  }

  /** The next and prev fields spell out the list s. */
  ghost predicate Linked(head: Entry?, s: seq<Entry>)
    reads s
  {
    Distinct(s) && head == At(s, 0) &&
    (forall k :: 0 <= k < |s| ==> s[k].next == At(s, k + 1) && s[k].prev == At(s, k - 1))
  }

  ghost function At(s: seq<Entry>, k: int): Entry? {
    if 0 <= k < |s| then s[k] else null
  }

  ghost function Stats(s: seq<Entry>): (v: seq<Stat>)
    reads s
    ensures |v| == |s|
  {
    seq(|s|, k requires 0 <= k < |s| reads s => Stat(!s[k].deleted, s[k].nhits))
  }

  ghost predicate Distinct(s: seq<Entry>) {
    forall a, b :: 0 <= a < b < |s| ==> s[a] != s[b]
  }

  ghost predicate Unlinked(s: seq<Entry>, i: nat)
    reads s
  {
    i < |s| && Distinct(s) &&
    (forall k :: 0 <= k < |s| && k != i ==> s[k].next == if k == i - 1 then At(s, i + 1) else At(s, k + 1)) &&
    (forall k :: 0 <= k < |s| && k != i ==> s[k].prev == if k == i + 1 then At(s, i - 1) else At(s, k - 1))
  }

  /** The neighbours of a position in a list without its element i. */
  lemma AroundUnlinked(s: seq<Entry>, i: nat, k: int)
    requires i < |s|
    ensures At(s[..i] + s[i + 1..], k) == if k < i then At(s, k) else At(s, k + 1)
  {
  }

  lemma LinksUnlinked(s: seq<Entry>, i: nat, k: nat)
    requires Unlinked(s, i) && k + 1 < |s|
    ensures var t := s[..i] + s[i + 1..]; t[k].next == At(t, k + 1) && t[k].prev == At(t, k - 1)
  {
    var t := s[..i] + s[i + 1..];
    AroundUnlinked(s, i, k - 1);
    AroundUnlinked(s, i, k + 1);
    if k < i {
      assert t[k] == s[k];
    } else {
      assert t[k] == s[k + 1];
    }
  }

  lemma UnlinkedIsLinked(s: seq<Entry>, i: nat)
    requires Unlinked(s, i)
    ensures Linked(if i == 0 then At(s, 1) else s[0], s[..i] + s[i + 1..])
  {
    var t := s[..i] + s[i + 1..];
    assert Distinct(t);
    AroundUnlinked(s, i, 0);
    forall k | 0 <= k < |t| ensures t[k].next == At(t, k + 1) && t[k].prev == At(t, k - 1) {
      LinksUnlinked(s, i, k);
    }
  }

  ghost predicate Inserted(s: seq<Entry>, e: Entry, j: nat)
    reads s, e
  {
    j <= |s| && Distinct(s) && e !in s && e.next == At(s, j) && e.prev == At(s, j - 1) &&
    (forall k :: 0 <= k < |s| ==> s[k].next == if k == j - 1 then e else At(s, k + 1)) &&
    (forall k :: 0 <= k < |s| ==> s[k].prev == if k == j then e else At(s, k - 1))
  }

  /** The neighbours of a position in a list with e inserted at j. */
  lemma AroundInserted(s: seq<Entry>, e: Entry, j: nat, k: int)
    requires j <= |s|
    ensures At(s[..j] + [e] + s[j..], k) == if k < j then At(s, k) else if k == j then e else At(s, k - 1)
  {
  }

  lemma LinksInserted(s: seq<Entry>, e: Entry, j: nat, k: nat)
    requires Inserted(s, e, j) && k <= |s|
    ensures var t := s[..j] + [e] + s[j..]; t[k].next == At(t, k + 1) && t[k].prev == At(t, k - 1)
  {
    var t := s[..j] + [e] + s[j..];
    AroundInserted(s, e, j, k - 1);
    AroundInserted(s, e, j, k + 1);
    if k < j {
      assert t[k] == s[k];
    } else if k == j {
      assert t[k] == e;
    } else {
      assert t[k] == s[k - 1];
    }
  }

  lemma InsertedIsLinked(s: seq<Entry>, e: Entry, j: nat)
    requires Inserted(s, e, j)
    ensures Linked(if j == 0 then e else s[0], s[..j] + [e] + s[j..])
  {
    var t := s[..j] + [e] + s[j..];
    DistinctInserted(s, e, j);
    AroundInserted(s, e, j, 0);
    AroundInserted(s, e, j, j);
    forall k | 0 <= k < |t| ensures t[k].next == At(t, k + 1) && t[k].prev == At(t, k - 1) {
      LinksInserted(s, e, j, k);
    }
    assert At(t, 0) == t[0];
  }

  lemma DistinctInserted(s: seq<Entry>, e: Entry, j: nat)
    requires Distinct(s) && e !in s && j <= |s|
    ensures Distinct(s[..j] + [e] + s[j..])
  {
    var t := s[..j] + [e] + s[j..];
    forall i, k | 0 <= i < k < |t| ensures t[i] != t[k] {
      assert t[i] == if i < j then s[i] else if i == j then e else s[i - 1];
      assert t[k] == if k < j then s[k] else if k == j then e else s[k - 1];
    }
  }

  lemma LinksAt(head: Entry?, s: seq<Entry>, k: nat)
    requires Linked(head, s) && k < |s|
    ensures s[k].next == At(s, k + 1) && s[k].prev == At(s, k - 1)
  {
  }

  predicate Named(e: Entry, mask: string, name: string)
    reads e
  {
    !e.deleted && e.info.mask == mask && e.info.name == name
  }

  /** Where the first live entry with that mask and name is, or the length of the list. */
  ghost function Found(s: seq<Entry>, mask: string, name: string): (i: nat)
    reads s
    ensures i <= |s|
  {
    if s == [] || Named(s[0], mask, name) then 0 else 1 + Found(s[1..], mask, name)
  }

  lemma FoundFrom(s: seq<Entry>, mask: string, name: string, i: nat)
    requires i <= |s|
    ensures s[0..] == s && Found(s[i..], mask, name) ==
      if i == |s| || Named(s[i], mask, name) then 0 else 1 + Found(s[i + 1..], mask, name)
  {
    assert i < |s| ==> s[i..][0] == s[i] && s[i..][1..] == s[i + 1..];
  }

  lemma {:induction false} FoundIsLive(s: seq<Entry>, mask: string, name: string)
    ensures var i := Found(s, mask, name); i < |s| ==> Named(s[i], mask, name)
  {
    if s != [] && !Named(s[0], mask, name) {
      FoundIsLive(s[1..], mask, name);
    }
  }

  function Lower(c: char): char {
    if 'A' <= c <= 'Z' then c - 'A' + 'a' else c
  }

  /** strncasecmp of the text with as much of the mask. */
  predicate Begins(mask: string, text: string) {
    |text| <= |mask| && forall k :: 0 <= k < |text| ==> Lower(mask[k]) == Lower(text[k])
  }

  /** A live entry that the user may run and whose mask begins with the text. */
  predicate Hopeful(e: Entry, text: string, allowed: nat -> bool)
    reads e
  {
    !e.deleted && allowed(e.info.flags) && Begins(e.info.mask, text)
  }

  /** The entry at i is the first whole match, or there is none and it is the only partial one. */
  ghost predicate Wins(s: seq<Entry>, i: nat, text: string, allowed: nat -> bool)
    requires i < |s|
    reads s
  {
    Hopeful(s[i], text, allowed) &&
    if |s[i].info.mask| == |text| then
      forall k: nat :: k < i && Hopeful(s[k], text, allowed) ==> |s[k].info.mask| != |text|
    else
      forall k: nat :: k < |s| && k != i ==> !Hopeful(s[k], text, allowed)
  }

  class Table {
    var entries: Entry?
    ghost var list: seq<Entry>
    /** Neither MATCH_MASK, MATCH_PARTIAL nor MATCH_NONE */
    const exact: bool
    /** BIND_BREAKABLE and BIND_STACKABLE */
    const breakable: bool
    const stackable: bool

    ghost predicate Valid()
      reads this, list
    {
      Linked(entries, list)
    }

    constructor (isExact: bool, canBreak: bool, canStack: bool)
      ensures exact == isExact && breakable == canBreak && stackable == canStack && Valid() && list == []
    {
      exact, breakable, stackable, entries, list := isExact, canBreak, canStack, null, [];
    }

    /** Taking an entry out, as in bind_entry_exec and bind_entry_really_del. */
    method Unlink(e: Entry, ghost i: nat)
      requires Valid() && i < |list| && list[i] == e
      modifies this`entries, this`list, list`next, list`prev
      ensures list == old(list)[..i] + old(list)[i + 1..] && Valid()
    {
      ghost var s := list;
      Bypass(e, i);
      hide Linked, Unlinked;
      UnlinkedIsLinked(s, i);
      list := list[..i] + list[i + 1..];
    }

    method Bypass(e: Entry, ghost i: nat)
      requires Valid() && i < |list| && list[i] == e
      modifies this`entries, list`next, list`prev
      ensures Unlinked(list, i) && entries == if i == 0 then At(list, 1) else list[0]
    {
      ghost var s := list;
      assert s[i].prev == At(s, i - 1) && s[i].next == At(s, i + 1);
      if e.prev != null {
        assert e.prev in s;
        e.prev.next := e.next;
      } else {
        entries := e.next;
      }
      if e.next != null {
        assert e.next in s;
        e.next.prev := e.prev;
      }
    }

    /** Putting an entry behind prev, or in front if there is none. */
    method InsertAfter(prev: Entry?, e: Entry, ghost j: nat)
      requires Valid() && e !in list && j <= |list|
      requires prev == At(list, j - 1)
      modifies this`entries, this`list, list`next, list`prev, e`next, e`prev
      ensures list == old(list)[..j] + [e] + old(list)[j..] && Valid()
    {
      ghost var s := list;
      SetLinks(prev, e, j);
      hide Linked, Inserted;
      InsertedIsLinked(s, e, j);
      list := list[..j] + [e] + list[j..];
    }

    method SetLinks(prev: Entry?, e: Entry, ghost j: nat)
      requires Valid() && e !in list && j <= |list|
      requires prev == At(list, j - 1)
      modifies this`entries, list`next, list`prev, e`next, e`prev
      ensures Inserted(list, e, j) && entries == if j == 0 then e else list[0]
    {
      ghost var s := list;
      if prev != null {
        assert s[j - 1].next == At(s, j);
        e.next := prev.next;
        prev.next := e;
      } else {
        e.next := entries;
        entries := e;
      }
      e.prev := prev;
      if e.next != null {
        assert e.next in s;
        e.next.prev := e;
      }
    }

    /** bind_entry_lookup in one table. */
    method Lookup(mask: string, name: string) returns (e: Entry?, ghost i: nat)
      requires Valid()
      ensures i == Found(list, mask, name) && e == At(list, i)
    {
      hide Linked, Found;
      e, i := entries, 0;
      LinkedFacts(entries, list);
      FoundFrom(list, mask, name, 0);
      while e != null
        invariant i <= |list| && e == At(list, i) && Found(list, mask, name) == i + Found(list[i..], mask, name)
        decreases |list| - i
      {
        FoundFrom(list, mask, name, i);
        if Named(e, mask, name) {
          return;
        }
        LinksAt(entries, list, i);
        e, i := e.next, i + 1;
      }
      FoundFrom(list, mask, name, i);
    }

    /** bind_entry_add: a new entry behind the first live one with that mask and name, or at the
        end; but in a table that is not stackable the entry found is overwritten, and keeps its
        place, its hits and, unless there are new ones, its flags. */
    method Add(mask: string, name: string, flags: Option<nat>) returns (e: Entry)
      requires Valid()
      modifies this`entries, this`list, list`next, list`prev, list`info
      ensures Valid() && !e.deleted
      ensures var i := old(Found(list, mask, name));
        if i < |old(list)| && !stackable then
          e == old(list)[i] && list == old(list) && Stats(list) == old(Stats(list)) &&
          e.info == Info(mask, name, if flags.Some? then flags.value else old(list[Found(list, mask, name)].info.flags))
        else
          var j := if i < |old(list)| then i + 1 else i;
          fresh(e) && e.nhits == 0 && list == old(list)[..j] + [e] + old(list)[j..] &&
          e.info == Info(mask, name, if flags.Some? then flags.value else 0)
      ensures forall x :: x in old(list) && x != e ==> x.info == old(x.info)
    {
      hide Linked, Found;
      var last: Entry?;
      ghost var i;
      last, i := Lookup(mask, name);
      FoundIsLive(list, mask, name);
      if last != null && !stackable {
        e := last;
        Overwrite(e, Info(mask, name, if flags.Some? then flags.value else e.info.flags));
        return;
      }
      ghost var j := i + 1;
      if last == null {
        last := FindLast();
        j := |list|;
      }
      e := new Entry(Info(mask, name, if flags.Some? then flags.value else 0));
      InsertAfter(last, e, j);
    }

    method Overwrite(e: Entry, info: Info)
      requires Valid() && e in list
      modifies e`info
      ensures Valid() && e.info == info && Stats(list) == old(Stats(list))
    {
      e.info := info;
    }

    method FindLast() returns (last: Entry?)
      requires Valid()
      ensures last == At(list, |list| - 1)
    {
      last := entries;
      if last != null {
        ghost var k: nat := 0;
        while last.next != null
          invariant k < |list| && last == list[k]
          decreases |list| - k
        {
          assert list[k].next == At(list, k + 1);
          last, k := last.next, k + 1;
        }
        assert list[k].next == At(list, k + 1);
      }
    }

    /** The last live entry before e with as many hits. */
    method FindPlace(e: Entry, ghost i: nat) returns (prev: Entry?, ghost j: nat)
      requires Valid() && i < |list| && list[i] == e
      ensures Place(Stats(list), i, j) && prev == At(list, j - 1)
      ensures e.prev == prev <==> i == j
    {
      hide Linked;
      j := i;
      prev := e.prev;
      LinkedFacts(entries, list);
      LinksAt(entries, list, i);
      while prev != null && (prev.deleted || prev.nhits < e.nhits)
        invariant j <= i && prev == At(list, j - 1)
        invariant forall k :: j <= k < i ==> list[k].deleted || list[k].nhits < e.nhits
        decreases j
      {
        LinksAt(entries, list, j - 1);
        prev := prev.prev;
        j := j - 1;
      }
    }

    /** Removing e and adding it again behind prev. */
    method MoveBehind(e: Entry, prev: Entry?, ghost i: nat, ghost j: nat)
      requires Valid() && j <= i < |list| && list[i] == e && prev == At(list, j - 1)
      modifies this`entries, this`list, list`next, list`prev
      ensures Valid() && list == Moved(old(list), i, j)
    {
      hide Linked, Moved;
      ghost var s := list;
      assert Distinct(s) by {
        LinkedFacts(entries, s);
      }
      Unlink(e, i);
      InsertAfter(prev, e, j);
      MovedByHand(s, i, j);
    }

    method GiveHit(e: Entry, ghost i: nat)
      requires Valid() && i < |list| && list[i] == e
      modifies e`nhits
      ensures Valid() && e.nhits == old(e.nhits) + 1 && Stats(list) == Hit(old(Stats(list)), i)
    {
      ghost var v := Stats(list);
      e.nhits := e.nhits + 1;
      StatsAfterHit(list, i, v);
    }

    /** bind_entry_exec: a hit, and in an exact-match table the move that it earns. */
    method Exec(e: Entry, ghost i: nat) returns (ghost j: nat)
      requires Valid() && i < |list| && list[i] == e
      modifies this`entries, this`list, list`next, list`prev, e`nhits
      ensures Valid() && e.nhits == old(e.nhits) + 1 && j <= i
      ensures list == Moved(old(list), i, j) && (!exact ==> j == i)
      ensures exact ==> Place(Hit(old(Stats(list)), i), i, j)
    {
      hide Linked, Moved, Place;
      ghost var s := list;
      GiveHit(e, i);
      MovedNowhere(s, i);
      if !exact {
        return i;
      }
      var prev: Entry?;
      prev, j := FindPlace(e, i);
      PlaceFacts(Stats(s), i, j);
      if e.prev != prev {
        MoveBehind(e, prev, i, j);
      }
    }

    /** What Exec means for the traversal: the entries behind e stay where they are, nothing is
        lost, and the order of the live entries is kept. */
    method ExecInPlace(e: Entry, ghost i: nat)
      requires Valid() && i < |list| && list[i] == e && !e.deleted
      modifies this`entries, this`list, list`next, list`prev, e`nhits
      ensures Valid() && e.nhits == old(e.nhits) + 1
      ensures |list| == |old(list)| && Permuted(list, old(list)) && list[i + 1..] == old(list)[i + 1..]
      ensures exact && old(Sorted(Stats(list))) ==> Sorted(Stats(list))
    {
      hide Linked, Moved, Sorted, Place;
      ghost var s, v := list, Stats(list);
      assert Distinct(s) by {
        LinkedFacts(entries, s);
      }
      ghost var j := Exec(e, i);
      StatsAfterHit(s, i, v);
      MovedFacts(s, i, j);
      StatsMoved(s, i, j);
      if exact && Sorted(v) {
        HitKeepsOrder(v, i, j);
      }
    }

    /** One turn of the traversal, at entry i of the list s that it found. */
    method Visit(e: Entry, matches: Info -> bool, ghost i: nat, ghost s: seq<Entry>, ghost before: map<Entry, nat>, ghost fired: seq<Entry>)
      returns (ran: bool)
      requires Valid() && i < |list| == |s| && list[i] == e && Permuted(list, s) && list[i..] == s[i..]
      requires HitsSo(s, before, fired) && e !in fired
      modifies this`entries, this`list, s`next, s`prev, e`nhits
      ensures ran == (!e.deleted && matches(e.info))
      ensures Valid() && |list| == |s| && Permuted(list, s) && list[i + 1..] == s[i + 1..]
      ensures HitsSo(s, before, if ran then fired + [e] else fired)
      ensures exact && old(Sorted(Stats(list))) ==> Sorted(Stats(list))
    {
      hide Linked, Sorted;
      assert list[i + 1..] == list[i..][1..] && s[i + 1..] == s[i..][1..];
      assert forall k :: 0 <= k < |list| ==> list[k] in s by {
        SameElements(list, s);
      }
      ran := !e.deleted && matches(e.info);
      if ran {
        ExecInPlace(e, i);
        assert forall x :: x in fired + [e] <==> x in fired || x == e;
      }
    }

    /** bind_vcheck_hits: the traversal, which saves the next entry before it runs one.  It runs
        the live matching entries of the list as it found it, each once, in that order, and
        stops early only where a callback breaks a breakable table. */
    method Check(matches: Info -> bool, breaks: Entry -> bool) returns (hits: nat, fired: seq<Entry>)
      requires Valid()
      modifies this`entries, this`list, list`next, list`prev, list`nhits
      ensures Valid() && Permuted(list, old(list))
      ensures fired == Fired(old(list), old(Wanted(list, matches)), if breakable then breaks else (_) => false)
      ensures hits == |fired|
      ensures forall e :: e in old(list) ==> e.nhits == old(e.nhits) + if e in fired then 1 else 0
      ensures exact && old(Sorted(Stats(list))) ==> Sorted(Stats(list))
    {
      hide Linked, Fired, Sorted, Permuted, HitsSo, FiredSo;
      ghost var s0, wanted, before := list, Wanted(list, matches), HitsOf(list);
      ghost var stop := if breakable then breaks else (_) => false;
      ghost var i: nat := 0;
      fired, hits := [], 0;
      var entry := entries;
      LinkedFacts(entries, list);
      NothingFired(s0, wanted, stop);
      while entry != null
        invariant Valid() && |list| == |s0| && Permuted(list, s0)
        invariant i <= |s0| && entry == At(s0, i) && list[i..] == s0[i..]
        invariant FiredSo(s0, wanted, stop, fired, i) && hits == |fired| && HitsSo(s0, before, fired)
        invariant exact && old(Sorted(Stats(list))) ==> Sorted(Stats(list))
        decreases |s0| - i
      {
        Suffixes(list, s0, i);
        NextOf(entries, list, i);
        FiredGoesOn(s0, wanted, stop, fired, i);
        assert entry in s0;
        var next := entry.next;
        var ran := Visit(entry, matches, i, s0, before, fired);
        if ran {
          hits := hits + 1;
          fired := fired + [entry];
          if breakable && breaks(entry) {
            break;
          }
        }
        i := i + 1;
        entry := next;
      }
      AllFired(s0, wanted, stop, fired, i);
      HitsAre(s0, before, fired);
    }

    /** bind_vcheck_hits for a table of partial matches: a whole match wins, the first of them,
        else the only partial match there is.  The winner gains a hit, and nothing moves. */
    method CheckPartial(text: string, allowed: nat -> bool) returns (winner: Entry?, ghost i: nat)
      requires Valid() && !exact
      modifies this`entries, this`list, list`next, list`prev, list`nhits
      ensures Valid() && list == old(list)
      ensures winner != null ==> i < |list| && winner == list[i] && old(Wins(list, i, text, allowed))
      ensures winner == null ==> forall k: nat :: k < |list| ==> !old(Wins(list, k, text, allowed))
      ensures forall e :: e in list ==> e.nhits == old(e.nhits) + if e == winner then 1 else 0
    {
      hide Linked;
      ghost var s := list;
      winner, i := FindPartial(text, allowed);
      assert forall k: nat :: k < |list| ==> Wins(list, k, text, allowed) == old(Wins(list, k, text, allowed));
      if winner != null {
        ghost var j := Exec(winner, i);
        MovedNowhere(s, i);
      }
    }

    method FindPartial(text: string, allowed: nat -> bool) returns (winner: Entry?, ghost j: nat)
      requires Valid()
      ensures winner != null ==> j < |list| && winner == list[j] && Wins(list, j, text, allowed)
      ensures winner == null ==> forall k: nat :: k < |list| ==> !Wins(list, k, text, allowed)
    {
      hide Linked, Begins;
      var tie: nat, entry: Entry? := 0, entries;
      ghost var i: nat, other: nat := 0, 0;
      winner, j := null, 0;
      LinkedFacts(entries, list);
      while entry != null
        invariant i <= |list| && entry == At(list, i)
        invariant forall k: nat :: k < i && Hopeful(list[k], text, allowed) ==> |list[k].info.mask| != |text|
        invariant tie == 0 ==> forall k: nat :: k < i ==> !Hopeful(list[k], text, allowed)
        invariant tie >= 1 ==> j < i && winner == list[j] && Hopeful(winner, text, allowed)
        invariant tie == 1 ==> forall k: nat :: k < i && k != j ==> !Hopeful(list[k], text, allowed)
        invariant tie >= 2 ==> other < j && Hopeful(list[other], text, allowed)
        decreases |list| - i
      {
        if Hopeful(entry, text, allowed) {
          other := j;
          winner, j := entry, i;
          if |entry.info.mask| == |text| {
            return;
          }
          tie := tie + 1;
        }
        LinksAt(entries, list, i);
        entry, i := entry.next, i + 1;
      }
      if tie != 1 {
        ghost var l := j;
        winner := null;
        assert tie >= 2 ==> forall k: nat :: k < |list| && Wins(list, k, text, allowed) ==> k == other && k == l;
      }
    }

    /** One turn of the cleanup, at entry k of the list s that it found. */
    method CleanOne(e: Entry, ghost s: seq<Entry>, ghost dead: set<Entry>, ghost k: nat) returns (next: Entry?)
      requires Valid() && k < |s| && e == s[k] && list == CleanTo(s, dead, k) && (e.deleted <==> e in dead)
      modifies this`entries, this`list, s`next, s`prev
      ensures Valid() && next == At(s, k + 1) && list == CleanTo(s, dead, k + 1)
    {
      hide Linked, Live;
      ghost var p := Live(s[..k], dead);
      LiveStep(s, dead, k);
      LiveMembers(s, dead, k);
      Middle(p, s, k);
      NextOf(entries, list, |p|);
      next := e.next;
      if e.deleted {
        Unlink(e, |p|);
        assert p + [] == p;
      }
    }

    /** internal_bind_cleanup on one table: the entries marked as deleted are taken out, the
        others stay in their order. */
    method Cleanup()
      requires Valid()
      modifies this`entries, this`list, list`next, list`prev
      ensures Valid() && list == Live(old(list), old(Dead(list)))
    {
      hide Linked, Live, CleanTo;
      ghost var s0, dead := list, Dead(list);
      ghost var k: nat := 0;
      var entry := entries;
      LinkedFacts(entries, list);
      CleanBounds(s0, dead);
      while entry != null
        invariant Valid() && k <= |s0| && entry == At(s0, k) && list == CleanTo(s0, dead, k)
        decreases |s0| - k
      {
        assert entry in s0;
        entry := CleanOne(entry, s0, dead, k);
        k := k + 1;
      }
    }
  }

  /** The list s with its first k entries cleaned. */
  ghost function CleanTo(s: seq<Entry>, dead: set<Entry>, k: nat): seq<Entry>
    requires k <= |s|
  {
    Live(s[..k], dead) + s[k..]
  }

  lemma CleanBounds(s: seq<Entry>, dead: set<Entry>)
    ensures CleanTo(s, dead, 0) == s && CleanTo(s, dead, |s|) == Live(s, dead)
  {
    LiveNone(s, dead);
    assert s[..|s|] == s && s[|s|..] == [] && Live(s, dead) + [] == Live(s, dead) && [] + s == s;
  }

  /** The entries that are not deleted, in their order. */
  ghost function Live(s: seq<Entry>, dead: set<Entry>): seq<Entry> {
    if s == [] then []
    else Live(s[..|s| - 1], dead) + if s[|s| - 1] in dead then [] else [s[|s| - 1]]
  }

  lemma LiveNone(s: seq<Entry>, dead: set<Entry>)
    ensures Live(s[..0], dead) == [] && s[0..] == s
  {
  }

  lemma Middle(p: seq<Entry>, s: seq<Entry>, k: nat)
    requires k < |s|
    ensures var t := p + s[k..];
      t[|p|] == s[k] && At(t, |p| + 1) == At(s, k + 1) && t[..|p|] == p && t[|p| + 1..] == s[k + 1..] &&
      (p + [s[k]]) + s[k + 1..] == t
  {
  }

  lemma {:induction false} LiveMembers(s: seq<Entry>, dead: set<Entry>, k: nat)
    requires k <= |s|
    ensures forall m :: 0 <= m < |Live(s[..k], dead) + s[k..]| ==> (Live(s[..k], dead) + s[k..])[m] in s
    decreases k
  {
    hide Live;
    if k > 0 {
      LiveMembers(s, dead, k - 1);
      LiveStep(s, dead, k - 1);
      var t, u := Live(s[..k - 1], dead) + s[k - 1..], Live(s[..k], dead) + s[k..];
      assert forall m :: 0 <= m < |u| ==> u[m] in t;
    } else {
      LiveNone(s, dead);
    }
  }

  lemma LiveStep(s: seq<Entry>, dead: set<Entry>, k: nat)
    requires k < |s|
    ensures Live(s[..k + 1], dead) == Live(s[..k], dead) + if s[k] in dead then [] else [s[k]]
    ensures s[k..] == [s[k]] + s[k + 1..]
  {
    assert s[..k + 1][..k] == s[..k];
  }

  ghost function Dead(s: seq<Entry>): set<Entry>
    reads s
  {
    set e | e in s && e.deleted
  }

  ghost predicate Permuted(s: seq<Entry>, t: seq<Entry>) {
    multiset(s) == multiset(t)
  }

  /** The live entries that match. */
  ghost function Wanted(s: seq<Entry>, matches: Info -> bool): set<Entry>
    reads s
  {
    set e | e in s && !e.deleted && matches(e.info)
  }

  /** The entries that a traversal runs. */
  ghost function Fired(s: seq<Entry>, wanted: set<Entry>, stops: Entry -> bool): seq<Entry> {
    if s == [] then []
    else if s[0] !in wanted then Fired(s[1..], wanted, stops)
    else [s[0]] + if stops(s[0]) then [] else Fired(s[1..], wanted, stops)
  }

  lemma LinkedFacts(head: Entry?, s: seq<Entry>)
    requires Linked(head, s)
    ensures Distinct(s) && head == At(s, 0)
  {
  }

  lemma PlaceFacts(v: seq<Stat>, i: nat, j: nat)
    requires Place(v, i, j)
    ensures j <= i < |v|
  {
  }

  /** One more hit for entry i. */
  function Hit(v: seq<Stat>, i: nat): seq<Stat>
    requires i < |v|
  {
    v[i := Stat(v[i].live, v[i].hits + 1)]
  }

  lemma StatsAfterHit(s: seq<Entry>, i: nat, v: seq<Stat>)
    requires i < |s| && Distinct(s) && |v| == |s|
    requires forall k :: 0 <= k < |s| ==> v[k].live == !s[k].deleted && v[k].hits == if k == i then s[k].nhits - 1 else s[k].nhits
    ensures Stats(s) == Hit(v, i)
  {
  }

  lemma MovedNowhere<T>(s: seq<T>, i: nat)
    requires i < |s|
    ensures Moved(s, i, i) == s
  {
  }

  lemma MovedByHand<T>(s: seq<T>, i: nat, j: nat)
    requires j <= i < |s|
    ensures var t := s[..i] + s[i + 1..]; t[..j] + [s[i]] + t[j..] == Moved(s, i, j)
  {
  }

  lemma NextOf(head: Entry?, s: seq<Entry>, i: nat)
    requires Linked(head, s) && i < |s|
    ensures s[i].next == At(s, i + 1)
  {
  }

  lemma SameElements(s: seq<Entry>, t: seq<Entry>)
    requires Permuted(s, t)
    ensures forall e :: e in s <==> e in t
  {
    assert forall e :: e in s <==> e in multiset(s);
    assert forall e :: e in t <==> e in multiset(t);
  }

  ghost function HitsOf(s: seq<Entry>): map<Entry, nat>
    reads s
  {
    map e | e in s :: e.nhits
  }

  /** Those that were run have one hit more than before. */
  ghost predicate HitsSo(s: seq<Entry>, before: map<Entry, nat>, fired: seq<Entry>)
    reads s
  {
    forall e :: e in s ==> e in before && e.nhits == before[e] + if e in fired then 1 else 0
  }

  lemma HitsAre(s: seq<Entry>, before: map<Entry, nat>, fired: seq<Entry>)
    requires HitsSo(s, before, fired)
    ensures forall e :: e in s ==> e in before && e.nhits == before[e] + if e in fired then 1 else 0
  {
  }

  /** How far a traversal of s has come at entry i. */
  ghost predicate FiredSo(s: seq<Entry>, wanted: set<Entry>, stops: Entry -> bool, fired: seq<Entry>, i: nat) {
    i <= |s| && Distinct(s) && (forall e :: e in fired ==> e in s[..i]) &&
    Fired(s, wanted, stops) == fired + Fired(s[i..], wanted, stops)
  }

  lemma NothingFired(s: seq<Entry>, wanted: set<Entry>, stops: Entry -> bool)
    requires Distinct(s)
    ensures FiredSo(s, wanted, stops, [], 0) && s[0..] == s && Permuted(s, s) && HitsSo(s, HitsOf(s), [])
  {
    hide Fired;
    assert [] + Fired(s, wanted, stops) == Fired(s, wanted, stops);
  }

  lemma FiredGoesOn(s: seq<Entry>, wanted: set<Entry>, stops: Entry -> bool, fired: seq<Entry>, i: nat)
    requires FiredSo(s, wanted, stops, fired, i) && i < |s|
    ensures s[i] !in fired
    ensures s[i] !in wanted ==> FiredSo(s, wanted, stops, fired, i + 1)
    ensures s[i] in wanted && !stops(s[i]) ==> FiredSo(s, wanted, stops, fired + [s[i]], i + 1)
    ensures s[i] in wanted && stops(s[i]) ==> Fired(s, wanted, stops) == fired + [s[i]]
  {
    assert s[i..][0] == s[i] && s[i..][1..] == s[i + 1..];
    assert s[..i + 1] == s[..i] + [s[i]];
    assert s[i] !in s[..i];
    Assoc(fired, [s[i]], Fired(s[i + 1..], wanted, stops));
    assert [s[i]] + [] == [s[i]];
  }

  lemma AllFired(s: seq<Entry>, wanted: set<Entry>, stops: Entry -> bool, fired: seq<Entry>, i: nat)
    requires (FiredSo(s, wanted, stops, fired, i) && i == |s|) || Fired(s, wanted, stops) == fired
    ensures Fired(s, wanted, stops) == fired
  {
    if FiredSo(s, wanted, stops, fired, i) && i == |s| {
      assert s[i..] == [] && fired + [] == fired;
    }
  }

  lemma MovedFacts(s: seq<Entry>, i: nat, j: nat)
    requires j <= i < |s|
    ensures Permuted(Moved(s, i, j), s) && |Moved(s, i, j)| == |s| && Moved(s, i, j)[i + 1..] == s[i + 1..]
  {
    MovedIsPermutation(s, i, j);
  }

  lemma StatsMoved(s: seq<Entry>, i: nat, j: nat)
    requires j <= i < |s|
    ensures Stats(Moved(s, i, j)) == Moved(Stats(s), i, j)
  {
    hide Moved;
    forall k | 0 <= k < |s| ensures Stats(Moved(s, i, j))[k] == Moved(Stats(s), i, j)[k] {
      MovedAt(s, i, j, k);
      MovedAt(Stats(s), i, j, k);
    }
  }

  lemma Suffixes(s: seq<Entry>, t: seq<Entry>, i: nat)
    requires |s| == |t| && i < |t| && s[i..] == t[i..]
    ensures s[i] == t[i] && At(s, i + 1) == At(t, i + 1)
  {
    assert s[i..][0] == t[i..][0];
    assert i + 1 < |s| ==> s[i..][1] == t[i..][1];
  }

  /** A traversal runs wanted entries only, each once, in their order; and all of them, up to
      the first that stops it. */
  lemma {:induction false} FiredExactly(s: seq<Entry>, wanted: set<Entry>, stops: Entry -> bool)
    requires Distinct(s)
    ensures var f := Fired(s, wanted, stops);
      Distinct(f) && (forall e :: e in f ==> e in s && e in wanted) &&
      ((forall e :: e in f ==> !stops(e)) ==> forall e :: e in s && e in wanted ==> e in f) &&
      forall k :: 0 <= k < |f| - 1 ==> !stops(f[k])
  {
    if s != [] {
      assert Distinct(s[1..]) && s[0] !in s[1..];
      FiredExactly(s[1..], wanted, stops);
    }
  }
}
