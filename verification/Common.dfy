/** Shared vocabulary: bytes, options, and sequences used as linked lists. */
module Common {
  type Byte = x: int | 0 <= x < 256

  datatype Option<+T> = None | Some(value: T)

  ghost predicate NoDup<T>(s: seq<T>) {
    forall i, j :: 0 <= i < j < |s| ==> s[i] != s[j]
  }

  /** LIST_UNLINK on a list without duplicates: the list without its element x. */
  function Unlink<T(==)>(s: seq<T>, x: T): seq<T> {
    if s == [] then []
    else if s[0] == x then s[1..]
    else [s[0]] + Unlink(s[1..], x)
  }

  lemma {:induction false} UnlinkFacts<T>(s: seq<T>, x: T)
    requires NoDup(s)
    ensures NoDup(Unlink(s, x)) && x !in Unlink(s, x)
    ensures forall y :: y in Unlink(s, x) ==> y in s
    ensures forall y :: y in s && y != x ==> y in Unlink(s, x)
    ensures x !in s ==> Unlink(s, x) == s
    ensures |Unlink(s, x)| == if x in s then |s| - 1 else |s|
  {
    if s != [] {
      assert NoDup(s[1..]) && s[0] !in s[1..];
      if s[0] != x {
        UnlinkFacts(s[1..], x);
      }
    }
  }

  /** The elements of s that lie in keys, in their order. */
  ghost function Kept<T>(s: seq<T>, keys: set<T>): seq<T> {
    if s == [] then []
    else if s[0] in keys then [s[0]] + Kept(s[1..], keys)
    else Kept(s[1..], keys)
  }

  lemma {:induction false} KeptFacts<T>(s: seq<T>, keys: set<T>)
    ensures forall y :: y in Kept(s, keys) ==> y in s && y in keys
    ensures forall y :: y in s && y in keys ==> y in Kept(s, keys)
    ensures NoDup(s) ==> NoDup(Kept(s, keys))
    ensures (forall y :: y in s ==> y in keys) ==> Kept(s, keys) == s
  {
    if s != [] {
      assert NoDup(s) ==> NoDup(s[1..]) && s[0] !in s[1..];
      KeptFacts(s[1..], keys);
    }
  }

  lemma {:induction false} KeptKept<T>(s: seq<T>, a: set<T>, b: set<T>)
    ensures Kept(Kept(s, a), b) == Kept(s, a * b)
  {
    if s != [] {
      KeptKept(s[1..], a, b);
      if s[0] in a {
        assert Kept(s, a)[1..] == Kept(s[1..], a);
      }
    }
  }

  /** Unlinking x is keeping everything else. */
  lemma {:induction false} UnlinkIsKept<T>(s: seq<T>, x: T, keys: set<T>)
    requires NoDup(s)
    requires forall y :: y in s ==> (y in keys <==> y != x)
    ensures Unlink(s, x) == Kept(s, keys)
  {
    if s != [] {
      assert NoDup(s[1..]);
      if s[0] == x {
        KeptFacts(s[1..], keys);
      } else {
        UnlinkIsKept(s[1..], x, keys);
      }
    }
  }

  /** Two key sets that agree on s keep the same elements of s. */
  lemma {:induction false} KeptAgree<T>(s: seq<T>, a: set<T>, b: set<T>)
    requires forall y :: y in s ==> (y in a <==> y in b)
    ensures Kept(s, a) == Kept(s, b)
  {
    if s != [] {
      KeptAgree(s[1..], a, b);
    }
  }

  // ---------- sequences ----------

  lemma Assoc<T>(a: seq<T>, b: seq<T>, c: seq<T>)
    ensures (a + b) + c == a + (b + c)
  {
  }

  lemma LastAlone<T>(s: seq<T>)
    requires s != []
    ensures s[|s| - 1..] == [s[|s| - 1]] && s == s[..|s| - 1] + [s[|s| - 1]]
  {
  }

  lemma SliceOfOne<T>(s: seq<T>, i: nat)
    requires i < |s|
    ensures s[i..i + 1] == [s[i]]
  {
  }

  /** More places than values: two places hold the same value. */
  lemma {:induction false} Pigeonhole(s: seq<nat>, n: nat) returns (a: nat, b: nat)
    requires |s| > n && forall k :: 0 <= k < |s| ==> s[k] < n
    ensures a < b < |s| && s[a] == s[b]
    decreases n
  {
    assert s[0] < n;
    if n - 1 in s {
      var k :| 0 <= k < |s| && s[k] == n - 1;
      var t := s[..k] + s[k + 1..];
      assert forall j :: 0 <= j < |t| ==> t[j] == s[if j < k then j else j + 1];
      if n - 1 in t {
        var j :| 0 <= j < |t| && t[j] == n - 1;
        a, b := if j < k then j else k, if j < k then k else j + 1;
      } else {
        a, b := Pigeonhole(t, n - 1);
        a, b := if a < k then a else a + 1, if b < k then b else b + 1;
      }
    } else {
      a, b := Pigeonhole(s, n - 1);
    }
  }
}
