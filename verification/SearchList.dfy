/** The order in which adns__search_next tries the names of a search-list query. */
module SearchList {
  import opened Common

  /** The name as given, or the name with an entry of the search list appended. */
  datatype Candidate = Bare | Entry(index: nat)

  datatype Choice = Choice(candidate: Candidate, pos: nat, doneAbs: int)

  /** The selection at the top of adns__search_next; None is the nxdomain failure. */
  function Next(pos: nat, doneAbs: int, n: nat): Option<Choice> {
    if doneAbs < 0 then Some(Choice(Bare, pos, 1))
    else if pos >= n then
      if doneAbs != 0 then None else Some(Choice(Bare, pos, 1))
    else Some(Choice(Entry(pos), pos + 1, doneAbs))
  }

  /** How many candidates are left. */
  function Left(pos: nat, doneAbs: int, n: nat): nat {
    (if pos < n then n - pos else 0) + (if doneAbs <= 0 then 1 else 0)
  }

  /** All candidates that repeated calls will still try, in order. */
  function Remaining(pos: nat, doneAbs: int, n: nat): (r: seq<Candidate>)
    ensures |r| == Left(pos, doneAbs, n)
    decreases Left(pos, doneAbs, n)
  {
    match Next(pos, doneAbs, n)
    case None => []
    case Some(c) => [c.candidate] + Remaining(c.pos, c.doneAbs, n)
  }

  /** Where a search stands after k more names. */
  function After(pos: nat, doneAbs: int, n: nat, k: nat): (r: (nat, int))
    ensures pos <= n ==> r.0 <= n
    decreases k
  {
    if k == 0 || Next(pos, doneAbs, n).None? then (pos, doneAbs)
    else
      var c := Next(pos, doneAbs, n).value;
      After(c.pos, c.doneAbs, n, k - 1)
  }

  /** What is left after k names is what was left without its first k names. */
  lemma {:induction false} RemainingAfter(pos: nat, doneAbs: int, n: nat, k: nat)
    requires k <= |Remaining(pos, doneAbs, n)|
    ensures var a := After(pos, doneAbs, n, k); Remaining(a.0, a.1, n) == Remaining(pos, doneAbs, n)[k..]
    decreases k
  {
    if k > 0 {
      var c := Next(pos, doneAbs, n).value;
      RemainingAfter(c.pos, c.doneAbs, n, k - 1);
      assert Remaining(pos, doneAbs, n)[k..] == Remaining(c.pos, c.doneAbs, n)[k - 1..];
    }
  }

  lemma {:induction false} AfterTwice(pos: nat, doneAbs: int, n: nat, j: nat, k: nat)
    ensures var a := After(pos, doneAbs, n, j); After(a.0, a.1, n, k) == After(pos, doneAbs, n, j + k)
    decreases j
  {
    if j > 0 && Next(pos, doneAbs, n).Some? {
      var c := Next(pos, doneAbs, n).value;
      AfterTwice(c.pos, c.doneAbs, n, j - 1, k);
    }
  }

  function Entries(lo: nat, n: nat): (r: seq<Candidate>)
    requires lo <= n
    ensures |r| == n - lo && forall k :: 0 <= k < |r| ==> r[k] == Entry(lo + k)
    decreases n - lo
  {
    if lo == n then [] else [Entry(lo)] + Entries(lo + 1, n)
  }

  lemma {:induction false} RemainingEntries(pos: nat, doneAbs: int, n: nat)
    requires pos <= n && doneAbs >= 0
    ensures Remaining(pos, doneAbs, n) == Entries(pos, n) + (if doneAbs == 0 then [Bare] else [])
    decreases n - pos
  {
    if pos < n {
      RemainingEntries(pos + 1, doneAbs, n);
    } else if doneAbs == 0 {
      assert Remaining(pos, 1, n) == [];
    }
  }

  /** A fresh search tries the bare name first when it has at least ndots dots and last
      otherwise, and every entry of the list exactly once, in order. */
  lemma Plan(n: nat, bareFirst: bool)
    ensures Remaining(0, if bareFirst then -1 else 0, n) ==
      if bareFirst then [Bare] + Entries(0, n) else Entries(0, n) + [Bare]
  {
    if bareFirst {
      RemainingEntries(0, 1, n);
      assert Entries(0, n) + [] == Entries(0, n);
    } else {
      RemainingEntries(0, 0, n);
    }
  }
}
