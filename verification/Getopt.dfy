/** getopt: the exchange of argument blocks, and whole scans in each of its three orderings. */
module Getopt {
  import opened Common

  // ---------- exchange ----------

  /** s with the blocks [b, m) and [m, t) exchanged. */
  function Rotated<T>(s: seq<T>, b: nat, m: nat, t: nat): (r: seq<T>)
    requires b <= m <= t <= |s|
    ensures |r| == |s|
  {
    s[..b] + s[m..t] + s[b..m] + s[t..]
  }

  /** s with the blocks of length len at i and at j swapped. */
  function Swapped<T>(s: seq<T>, i: nat, j: nat, len: nat): (r: seq<T>)
    requires i + len <= j && j + len <= |s|
    ensures |r| == |s|
  {
    s[..i] + s[j..j + len] + s[i + len..j] + s[i..i + len] + s[j + len..]
  }

  lemma SwappedAt<T>(s: seq<T>, i: nat, j: nat, len: nat, k: nat)
    requires i + len <= j && j + len <= |s| && k < |s|
    ensures Swapped(s, i, j, len)[k] ==
      if i <= k < i + len then s[k - i + j] else if j <= k < j + len then s[k - j + i] else s[k]
  {
  }

  lemma RotatedAt<T>(s: seq<T>, b: nat, m: nat, t: nat, k: nat)
    requires b <= m <= t <= |s| && k < |s|
    ensures Rotated(s, b, m, t)[k] ==
      if b <= k < b + (t - m) then s[k - b + m] else if b + (t - m) <= k < t then s[k - (t - m)] else s[k]
  {
  }

  /** The bottom block is the shorter one: it goes to its final place at the top. */
  lemma SwapShortBottom<T>(s: seq<T>, b: nat, m: nat, t: nat)
    requires b < m < t <= |s| && m - b < t - m
    ensures Rotated(Swapped(s, b, t - (m - b), m - b), b, m, t - (m - b)) == Rotated(s, b, m, t)
  {
    hide Rotated, Swapped;
    var len := m - b;
    var r := Swapped(s, b, t - len, len);
    forall k | 0 <= k < |s| ensures Rotated(r, b, m, t - len)[k] == Rotated(s, b, m, t)[k] {
      RotatedAt(r, b, m, t - len, k);
      RotatedAt(s, b, m, t, k);
      SwappedAt(s, b, t - len, len, if b <= k < b + (t - len - m) then k - b + m else if b + (t - len - m) <= k < t - len then k - (t - len - m) else k);
    }
  }

  lemma SwapShortTop<T>(s: seq<T>, b: nat, m: nat, t: nat)
    requires b < m < t <= |s| && t - m <= m - b
    ensures Rotated(Swapped(s, b, m, t - m), b + (t - m), m, t) == Rotated(s, b, m, t)
  {
    hide Rotated, Swapped;
    var len := t - m;
    var r := Swapped(s, b, m, len);
    forall k | 0 <= k < |s| ensures Rotated(r, b + len, m, t)[k] == Rotated(s, b, m, t)[k] {
      RotatedAt(r, b + len, m, t, k);
      RotatedAt(s, b, m, t, k);
      SwappedAt(s, b, m, len, if b + len <= k < b + len + len then k - (b + len) + m else if b + len + len <= k < t then k - len else k);
    }
  }

  /** The two inner loops of exchange. */
  method SwapBlocks<T>(a: array<T>, i: nat, j: nat, len: nat)
    requires i + len <= j && j + len <= a.Length
    modifies a
    ensures a[..] == Swapped(old(a[..]), i, j, len)
  {
    for k := 0 to len
      invariant forall x :: i <= x < i + k ==> a[x] == old(a[x - i + j])
      invariant forall x :: j <= x < j + k ==> a[x] == old(a[x - j + i])
      invariant forall x :: 0 <= x < a.Length && !(i <= x < i + k) && !(j <= x < j + k) ==> a[x] == old(a[x])
    {
      a[i + k], a[j + k] := a[j + k], a[i + k];
    }
    forall x | 0 <= x < a.Length ensures a[..][x] == Swapped(old(a[..]), i, j, len)[x] {
      SwappedAt(old(a[..]), i, j, len, x);
    }
  }

  /** exchange: the blocks [first, last) and [last, top) of a change places, each kept in order. */
  method Exchange<T>(a: array<T>, first: nat, last: nat, end: nat)
    requires first <= last <= end <= a.Length
    modifies a
    ensures a[..] == Rotated(old(a[..]), first, last, end)
  {
    hide Rotated, Swapped;
    var bottom: nat, middle: nat, top: nat := first, last, end;
    while top > middle && middle > bottom
      invariant bottom <= middle <= top <= a.Length
      invariant Rotated(a[..], bottom, middle, top) == Rotated(old(a[..]), first, last, end)
      decreases top - bottom
    {
      if top - middle > middle - bottom {
        var len := middle - bottom;
        SwapShortBottom(a[..], bottom, middle, top);
        SwapBlocks(a, bottom, top - len, len);
        top := top - len;
      } else {
        var len := top - middle;
        SwapShortTop(a[..], bottom, middle, top);
        SwapBlocks(a, bottom, middle, len);
        bottom := bottom + len;
      }
    }
    RotatedTrivially(a[..], bottom, middle, top);
  }

  lemma RotatedTrivially<T>(s: seq<T>, b: nat, m: nat, t: nat)
    requires b <= m <= t <= |s| && (b == m || m == t)
    ensures Rotated(s, b, m, t) == s
  {
  }

  // ---------- what a scan is to find ----------

  /** NONOPTION_P */
  predicate NonOption(e: string) {
    |e| < 2 || e[0] != '-'
  }

  datatype Kind = Unknown | Flag | Required | Optional | LongName

  /** my_index: where c is in optstring. */
  function Index(s: string, c: char): (k: nat)
    ensures k <= |s|
  {
    if s == [] || s[0] == c then 0 else 1 + Index(s[1..], c)
  }

  function KindOf(os: string, c: char): Kind {
    var k := Index(os, c);
    if k == |os| || c == ':' then Unknown
    else if k + 1 < |os| && c == 'W' && os[k + 1] == ';' then LongName
    else if k + 1 < |os| && os[k + 1] == ':' then
      if k + 2 < |os| && os[k + 2] == ':' then Optional else Required
    else Flag
  }

  /** What one call of getopt tells its caller; NonOpt is the return value 1.  Without a table of
      long options the branch for "W;" reads through a null pointer: that call never returns. */
  datatype Report =
    | Opt(c: char, arg: Option<string>)
    | BadOption(c: char)
    | MissingArg(c: char)
    | NonOpt(element: string)
    | Fault

  datatype Ordering = RequireOrder | ReturnInOrder | Permute

  /** The start of _getopt_initialize. */
  function OrderingOf(os: string, posixly: bool): Ordering {
    if os != "" && os[0] == '-' then ReturnInOrder
    else if os != "" && os[0] == '+' then RequireOrder
    else if posixly then RequireOrder
    else Permute
  }

  /** The option string that a call looks at, and the one that the calls after it do: only the
      first call steps over a '-' or '+' at its front. */
  datatype OptString = OptString(now: string, later: string)

  function AtFirst(os: string): OptString {
    OptString(if os != "" && (os[0] == '-' || os[0] == '+') then os[1..] else os, os)
  }

  function Later(os: OptString): OptString {
    OptString(os.later, os.later)
  }

  /** The reports for the option characters chars of one element, with the elements after it,
      and the number of those that it takes as an argument. */
  function Decode(os: OptString, chars: string, after: seq<string>): (r: (seq<Report>, nat))
    requires chars != []
    ensures r.1 <= |after| && r.1 <= 1 && r.0 != []
    decreases |chars|, 0
  {
    var c, more := chars[0], chars[1..];
    match KindOf(os.now, c)
    case Unknown => Further(BadOption(c), os, more, after)
    case Flag => Further(Opt(c, None), os, more, after)
    case Optional => ([Opt(c, if more == [] then None else Some(more))], 0)
    case Required =>
      if more != [] then ([Opt(c, Some(more))], 0)
      else if after == [] then ([MissingArg(c)], 0)
      else ([Opt(c, Some(after[0]))], 1)
    case LongName =>
      if more != [] then ([Fault], 0)
      else if after == [] then ([MissingArg(c)], 0)
      else ([Fault], 1)
  }

  function Further(first: Report, os: OptString, more: string, after: seq<string>): (r: (seq<Report>, nat))
    ensures r.1 <= |after| && r.1 <= 1 && r.0 != []
    decreases |more|, 1
  {
    if more == [] then ([first], 0)
    else
      var d := Decode(Later(os), more, after);
      ([first] + d.0, d.1)
  }

  /** What a scan makes of the arguments: the elements it has passed over, which are the option
      elements with their arguments and "--", the elements it leaves, and its reports.  PERMUTE
      partitions the arguments, keeping the order on both sides; REQUIRE_ORDER stops at the
      first that is no option; RETURN_IN_ORDER reports and passes over those, too. */
  datatype Split = Split(opts: seq<string>, rest: seq<string>, reports: seq<Report>)

  function Join(a: Split, b: Split): Split {
    Split(a.opts + b.opts, a.rest + b.rest, a.reports + b.reports)
  }

  function Partition(ord: Ordering, os: OptString, args: seq<string>): Split
    decreases |args|, 1
  {
    if args == [] then Split([], [], [])
    else if NonOption(args[0]) then
      match ord
      case Permute => Join(Split([], [args[0]], []), Partition(ord, os, args[1..]))
      case RequireOrder => Split([], args, [])
      case ReturnInOrder => Join(Split([args[0]], [], [NonOpt(args[0])]), Partition(ord, Later(os), args[1..]))
    else if args[0] == "--" then Split([args[0]], args[1..], [])
    else InElement(ord, os, args[0][1..], args)
  }

  /** The same in the middle of the element args[0], of which chars is still to be decoded. */
  function InElement(ord: Ordering, os: OptString, chars: string, args: seq<string>): Split
    requires chars != [] && args != []
    decreases |args|, 0
  {
    var d := Decode(os, chars, args[1..]);
    Join(Split(args[..1 + d.1], [], d.0), Partition(ord, Later(os), args[1 + d.1..]))
  }

  lemma JoinAssoc(a: Split, b: Split, c: Split)
    ensures Join(Join(a, b), c) == Join(a, Join(b, c))
  {
    assert (a.opts + b.opts) + c.opts == a.opts + (b.opts + c.opts);
    assert (a.rest + b.rest) + c.rest == a.rest + (b.rest + c.rest);
    assert (a.reports + b.reports) + c.reports == a.reports + (b.reports + c.reports);
  }

  /** The partition of a list from the partition of its tail. */
  lemma PartitionStep(ord: Ordering, os: OptString, args: seq<string>)
    returns (n: nat, o: seq<string>, m: seq<string>, os': OptString)
    requires args != [] && (if NonOption(args[0]) then ord != RequireOrder else args[0] != "--")
    ensures 0 < n <= |args| && ((o == args[..n] && m == []) || (o == [] && m == args[..n] && ord == Permute))
    ensures Partition(ord, os, args).opts == o + Partition(ord, os', args[n..]).opts
    ensures Partition(ord, os, args).rest == m + Partition(ord, os', args[n..]).rest
  {
    hide Decode;
    if NonOption(args[0]) && ord == Permute {
      n, o, m, os' := 1, [], args[..1], os;
    } else if NonOption(args[0]) {
      n, o, m, os' := 1, args[..1], [], Later(os);
    } else {
      n := 1 + Decode(os, args[0][1..], args[1..]).1;
      o, m, os' := args[..n], [], Later(os);
    }
  }

  lemma SameElements(args: seq<string>, n: nat, o: seq<string>, m: seq<string>, os: seq<string>, ms: seq<string>)
    requires n <= |args| && ((o == args[..n] && m == []) || (o == [] && m == args[..n]))
    requires multiset(os) + multiset(ms) == multiset(args[n..])
    ensures multiset(o + os) + multiset(m + ms) == multiset(args)
  {
    assert multiset(o + os) == multiset(o) + multiset(os) && multiset(m + ms) == multiset(m) + multiset(ms);
    assert multiset(o) + multiset(m) == multiset(args[..n]);
    assert args == args[..n] + args[n..];
  }

  /** The partition loses and adds nothing. */
  lemma {:induction false} PartitionIsPermutation(ord: Ordering, os: OptString, args: seq<string>)
    ensures multiset(Partition(ord, os, args).opts) + multiset(Partition(ord, os, args).rest) == multiset(args)
    decreases |args|
  {
    if args == [] {
    } else if NonOption(args[0]) && ord == RequireOrder {
    } else if !NonOption(args[0]) && args[0] == "--" {
      assert args == [args[0]] + args[1..];
    } else {
      var n, o, m, os' := PartitionStep(ord, os, args);
      hide Partition;
      PartitionIsPermutation(ord, os', args[n..]);
      SameElements(args, n, o, m, Partition(ord, os', args[n..]).opts, Partition(ord, os', args[n..]).rest);
    }
  }

  /** Without PERMUTE nothing moves: what was passed over and what is left are the arguments. */
  lemma {:induction false} InOrder(ord: Ordering, os: OptString, args: seq<string>)
    requires ord != Permute
    ensures Partition(ord, os, args).opts + Partition(ord, os, args).rest == args
    decreases |args|
  {
    if args == [] {
    } else if NonOption(args[0]) && ord == RequireOrder {
    } else if !NonOption(args[0]) && args[0] == "--" {
      assert args == [args[0]] + args[1..];
    } else {
      var n, o, m, os' := PartitionStep(ord, os, args);
      hide Partition;
      InOrder(ord, os', args[n..]);
      var p := Partition(ord, os', args[n..]);
      Assoc(args[..n], p.opts, p.rest);
      assert [] + p.rest == p.rest;
      assert args == args[..n] + args[n..];
    }
  }

  // ---------- the prefix that only the first call steps over ----------

  /** What a call of getopt looks at: an option character and the rest of its element, or an
      element that is no option. */
  datatype Call = Char(c: char, more: string) | Element

  /** The calls for the option characters chars of one element. */
  function DecodeCalls(r: string, chars: string): (calls: seq<Call>)
    requires chars != []
    ensures calls != []
  {
    var c, more := chars[0], chars[1..];
    [Char(c, more)] + if (KindOf(r, c).Unknown? || KindOf(r, c).Flag?) && more != [] then DecodeCalls(r, more) else []
  }

  /** The calls that report, when all of them use the option string r. */
  function Calls(ord: Ordering, r: string, args: seq<string>): seq<Call>
    decreases |args|
  {
    if args == [] then []
    else if NonOption(args[0]) then
      match ord
      case Permute => Calls(ord, r, args[1..])
      case RequireOrder => []
      case ReturnInOrder => [Element] + Calls(ord, r, args[1..])
    else if args[0] == "--" then []
    else
      var d := Decode(OptString(r, r), args[0][1..], args[1..]);
      DecodeCalls(r, args[0][1..]) + Calls(ord, r, args[1 + d.1..])
  }

  /** Two kinds of option that make no difference before what follows in the element. */
  predicate Alike(a: Kind, b: Kind, more: string) {
    || a == b
    || (more == [] && {a, b} == {Flag, Optional})
    || (more != [] && {a, b} == {Optional, Required})
  }

  predicate Same(os: string, r: string, call: Call) {
    call.Char? ==> Alike(KindOf(os, call.c), KindOf(r, call.c), call.more)
  }

  predicate AllSame(os: string, r: string, calls: seq<Call>) {
    forall i | 0 <= i < |calls| :: Same(os, r, calls[i])
  }

  /** Two lists of reports part at some place. */
  ghost predicate Part(a: seq<Report>, b: seq<Report>) {
    exists i :: 0 <= i < |a| && i < |b| && a[i] != b[i]
  }

  lemma PartBefore(a: seq<Report>, b: seq<Report>, x: seq<Report>, y: seq<Report>)
    requires Part(a, b)
    ensures Part(a + x, b + y)
  {
    var i :| 0 <= i < |a| && i < |b| && a[i] != b[i];
    assert (a + x)[i] != (b + y)[i];
  }

  lemma PartAfter(a: seq<Report>, x: seq<Report>, y: seq<Report>)
    requires Part(x, y)
    ensures Part(a + x, a + y)
  {
    var i :| 0 <= i < |x| && i < |y| && x[i] != y[i];
    assert (a + x)[|a| + i] != (a + y)[|a| + i];
  }

  lemma AllSameConcat(os: string, r: string, a: seq<Call>, b: seq<Call>)
    ensures AllSame(os, r, a + b) <==> AllSame(os, r, a) && AllSame(os, r, b)
  {
    hide Same;
    if AllSame(os, r, a + b) {
      forall i | 0 <= i < |a| ensures Same(os, r, a[i]) {
        assert (a + b)[i] == a[i];
      }
      forall i | 0 <= i < |b| ensures Same(os, r, b[i]) {
        assert (a + b)[|a| + i] == b[i];
      }
    }
  }

  /** The prefix is an option of its own, but hides no other. */
  lemma KindBehind(os: string, c: char)
    requires os != "" && (os[0] == '-' || os[0] == '+')
    ensures c != os[0] ==> KindOf(os, c) == KindOf(os[1..], c)
    ensures KindOf(os, os[0]) != Unknown && KindOf(os, os[0]) != LongName && KindOf(os[1..], os[0]) != LongName
  {
  }

  /** One option character, under two kinds. */
  lemma DecodeParts(os: string, r: string, chars: string, after: seq<string>)
    requires os != "" && (os[0] == '-' || os[0] == '+') && r == os[1..] && chars != []
    requires KindOf(os, chars[0]) != KindOf(r, chars[0])
    ensures var a, b := Decode(OptString(os, os), chars, after), Decode(OptString(r, r), chars, after);
      if Same(os, r, Char(chars[0], chars[1..])) then a == b && |DecodeCalls(r, chars)| == 1 else a.0[0] != b.0[0]
  {
    KindBehind(os, chars[0]);
    hide KindOf;
  }

  lemma {:induction false} DecodeQuirk(os: string, r: string, chars: string, after: seq<string>)
    requires os != "" && (os[0] == '-' || os[0] == '+') && r == os[1..] && chars != []
    ensures var a, b := Decode(OptString(os, os), chars, after), Decode(OptString(r, r), chars, after);
      if AllSame(os, r, DecodeCalls(r, chars)) then a == b else Part(a.0, b.0)
    decreases |chars|
  {
    var c, more := chars[0], chars[1..];
    var a, b := Decode(OptString(os, os), chars, after), Decode(OptString(r, r), chars, after);
    if KindOf(os, c) != KindOf(r, c) {
      DecodeParts(os, r, chars, after);
      assert DecodeCalls(r, chars)[0] == Char(c, more);
    } else if (KindOf(r, c).Unknown? || KindOf(r, c).Flag?) && more != [] {
      DecodeQuirk(os, r, more, after);
      var f := if KindOf(r, c).Unknown? then BadOption(c) else Opt(c, None);
      var a', b' := Decode(OptString(os, os), more, after), Decode(OptString(r, r), more, after);
      hide Decode, DecodeCalls, KindOf;
      AllSameConcat(os, r, [Char(c, more)], DecodeCalls(r, more));
      if Part(a'.0, b'.0) {
        PartAfter([f], a'.0, b'.0);
      }
    }
  }

  /** Two splits that go on from the same point. */
  lemma JoinQuirk(x: Split, a: Split, b: Split, same: bool)
    requires if same then a == b else Part(a.reports, b.reports)
    ensures if same then Join(x, a) == Join(x, b) else Part(Join(x, a).reports, Join(x, b).reports)
  {
    if !same {
      PartAfter(x.reports, a.reports, b.reports);
    }
  }

  lemma PartitionElement(ord: Ordering, os: OptString, args: seq<string>)
    requires args != [] && !NonOption(args[0]) && args[0] != "--"
    ensures var d := Decode(os, args[0][1..], args[1..]);
      Partition(ord, os, args) == Join(Split(args[..1 + d.1], [], d.0), Partition(ord, Later(os), args[1 + d.1..]))
  {
    hide Decode;
  }

  /** The option element args[0] is decoded alike, where the first call looks at first. */
  lemma ElementSame(ord: Ordering, os: string, r: string, first: string, args: seq<string>, same: bool)
    requires args != [] && !NonOption(args[0]) && args[0] != "--"
    requires Decode(OptString(first, os), args[0][1..], args[1..]) == Decode(OptString(r, r), args[0][1..], args[1..])
    requires var k := 1 + Decode(OptString(r, r), args[0][1..], args[1..]).1;
      var a, b := Partition(ord, OptString(os, os), args[k..]), Partition(ord, OptString(r, r), args[k..]);
      if same then a == b else Part(a.reports, b.reports)
    ensures var a, b := Partition(ord, OptString(first, os), args), Partition(ord, OptString(r, r), args);
      if same then a == b else Part(a.reports, b.reports)
  {
    hide Decode, Partition, Join, Part;
    var d := Decode(OptString(r, r), args[0][1..], args[1..]);
    PartitionElement(ord, OptString(first, os), args);
    PartitionElement(ord, OptString(r, r), args);
    var more := args[1 + d.1..];
    JoinQuirk(Split(args[..1 + d.1], [], d.0), Partition(ord, OptString(os, os), more), Partition(ord, OptString(r, r), more), same);
  }

  /** It is not, and the reports part. */
  lemma ElementParts(ord: Ordering, os: string, r: string, first: string, args: seq<string>)
    requires args != [] && !NonOption(args[0]) && args[0] != "--"
    requires Part(Decode(OptString(first, os), args[0][1..], args[1..]).0, Decode(OptString(r, r), args[0][1..], args[1..]).0)
    ensures Part(Partition(ord, OptString(first, os), args).reports, Partition(ord, OptString(r, r), args).reports)
  {
    hide Decode, Partition, Part;
    var c, d := Decode(OptString(first, os), args[0][1..], args[1..]), Decode(OptString(r, r), args[0][1..], args[1..]);
    PartitionElement(ord, OptString(first, os), args);
    PartitionElement(ord, OptString(r, r), args);
    PartBefore(c.0, d.0, Partition(ord, OptString(os, os), args[1 + c.1..]).reports,
               Partition(ord, OptString(r, r), args[1 + d.1..]).reports);
  }

  /** The option element args[0], with the calls cs that look at it after the first. */
  lemma ElementQuirk(ord: Ordering, os: string, r: string, first: string, args: seq<string>, cs: seq<Call>)
    requires args != [] && !NonOption(args[0]) && args[0] != "--"
    requires var a, b := Decode(OptString(first, os), args[0][1..], args[1..]), Decode(OptString(r, r), args[0][1..], args[1..]);
      if AllSame(os, r, cs) then a == b else Part(a.0, b.0)
    requires var k := 1 + Decode(OptString(r, r), args[0][1..], args[1..]).1;
      var a, b := Partition(ord, OptString(os, os), args[k..]), Partition(ord, OptString(r, r), args[k..]);
      if AllSame(os, r, Calls(ord, r, args[k..])) then a == b else Part(a.reports, b.reports)
    ensures var k := 1 + Decode(OptString(r, r), args[0][1..], args[1..]).1;
      var a, b := Partition(ord, OptString(first, os), args), Partition(ord, OptString(r, r), args);
      if AllSame(os, r, cs + Calls(ord, r, args[k..])) then a == b else Part(a.reports, b.reports)
  {
    hide Decode, Calls, Same, AllSame, Partition, Part;
    var k := 1 + Decode(OptString(r, r), args[0][1..], args[1..]).1;
    AllSameConcat(os, r, cs, Calls(ord, r, args[k..]));
    if AllSame(os, r, cs) {
      ElementSame(ord, os, r, first, args, AllSame(os, r, Calls(ord, r, args[k..])));
    } else {
      ElementParts(ord, os, r, first, args);
    }
  }

  /** After the first call: the partitions are equal, or their reports part. */
  lemma {:induction false} LaterQuirk(ord: Ordering, os: string, r: string, args: seq<string>)
    requires os != "" && (os[0] == '-' || os[0] == '+') && r == os[1..]
    ensures var a, b := Partition(ord, OptString(os, os), args), Partition(ord, OptString(r, r), args);
      if AllSame(os, r, Calls(ord, r, args)) then a == b else Part(a.reports, b.reports)
    decreases |args|
  {
    hide Decode, DecodeCalls, Same;
    if args == [] {
    } else if NonOption(args[0]) {
      if ord != RequireOrder {
        LaterQuirk(ord, os, r, args[1..]);
        PassQuirk(ord, os, r, os, args, AllSame(os, r, Calls(ord, r, args[1..])));
        if ord == ReturnInOrder {
          AllSameConcat(os, r, [Element], Calls(ord, r, args[1..]));
          OneElement(os, r);
        }
      }
    } else if args[0] != "--" {
      DecodeQuirk(os, r, args[0][1..], args[1..]);
      LaterQuirk(ord, os, r, args[1 + Decode(OptString(r, r), args[0][1..], args[1..]).1..]);
      ElementQuirk(ord, os, r, os, args, DecodeCalls(r, args[0][1..]));
    }
  }

  lemma OneElement(os: string, r: string)
    ensures AllSame(os, r, [Element])
  {
  }

  /** An element that is no option, and is not the end. */
  lemma PassQuirk(ord: Ordering, os: string, r: string, first: string, args: seq<string>, same: bool)
    requires args != [] && NonOption(args[0]) && ord != RequireOrder
    requires var now := if ord == Permute then first else os;
      var a, b := Partition(ord, OptString(now, os), args[1..]), Partition(ord, OptString(r, r), args[1..]);
      if same then a == b else Part(a.reports, b.reports)
    ensures var a, b := Partition(ord, OptString(first, os), args), Partition(ord, OptString(r, r), args);
      if same then a == b else Part(a.reports, b.reports)
  {
    var now := if ord == Permute then first else os;
    var x := if ord == Permute then Split([], [args[0]], []) else Split([args[0]], [], [NonOpt(args[0])]);
    JoinQuirk(x, Partition(ord, OptString(now, os), args[1..]), Partition(ord, OptString(r, r), args[1..]), same);
  }

  /** The element that the first call looks at: its first character is looked up in r. */
  lemma FirstDecode(os: string, r: string, chars: string, after: seq<string>)
    requires os != "" && (os[0] == '-' || os[0] == '+') && r == os[1..] && chars != []
    ensures var a, b := Decode(OptString(r, os), chars, after), Decode(OptString(r, r), chars, after);
      if AllSame(os, r, DecodeCalls(r, chars)[1..]) then a == b else Part(a.0, b.0)
  {
    var c, more := chars[0], chars[1..];
    if (KindOf(r, c).Unknown? || KindOf(r, c).Flag?) && more != [] {
      DecodeQuirk(os, r, more, after);
      var f := if KindOf(r, c).Unknown? then BadOption(c) else Opt(c, None);
      assert DecodeCalls(r, chars)[1..] == DecodeCalls(r, more);
      var a, b := Decode(OptString(os, os), more, after), Decode(OptString(r, r), more, after);
      if Part(a.0, b.0) {
        PartAfter([f], a.0, b.0);
      }
    }
  }

  /** Only the first call of getopt steps over a '-' or '+' at the front of the option string.
      The scan is the one for the rest of the string, if and only if no later call meets that
      character as an option for which this makes a difference; else the reports part. */
  lemma {:induction false} PrefixQuirk(ord: Ordering, os: string, args: seq<string>)
    requires os != "" && (os[0] == '-' || os[0] == '+')
    ensures var r := os[1..];
      var calls := Calls(ord, r, args);
      Partition(ord, AtFirst(os), args) == Partition(ord, OptString(r, r), args) <==>
        forall i | 0 < i < |calls| && calls[i].Char? && calls[i].c == os[0] ::
          Alike(KindOf(os, os[0]), KindOf(r, os[0]), calls[i].more)
  {
    var r := os[1..];
    var calls := Calls(ord, r, args);
    FirstQuirk(ord, os, r, args);
    hide Partition, Calls, KindOf;
    forall i | 0 < i < |calls| && calls[i].Char? && calls[i].c != os[0] ensures Same(os, r, calls[i]) {
      KindBehind(os, calls[i].c);
    }
    if calls != [] {
      assert forall i | 0 < i < |calls| :: calls[i] == calls[1..][i - 1];
      assert forall i | 0 <= i < |calls[1..]| :: calls[1..][i] == calls[i + 1];
    }
  }

  lemma {:induction false} FirstQuirk(ord: Ordering, os: string, r: string, args: seq<string>)
    requires os != "" && (os[0] == '-' || os[0] == '+') && r == os[1..]
    ensures var calls := Calls(ord, r, args);
      var a, b := Partition(ord, OptString(r, os), args), Partition(ord, OptString(r, r), args);
      if calls == [] || AllSame(os, r, calls[1..]) then a == b else Part(a.reports, b.reports)
    decreases |args|
  {
    hide Decode, DecodeCalls, AllSame, Part;
    if args == [] {
    } else if NonOption(args[0]) {
      if ord == Permute {
        FirstQuirk(ord, os, r, args[1..]);
        PassQuirk(ord, os, r, r, args, Calls(ord, r, args) == [] || AllSame(os, r, Calls(ord, r, args)[1..]));
      } else if ord == ReturnInOrder {
        LaterQuirk(ord, os, r, args[1..]);
        PassQuirk(ord, os, r, r, args, AllSame(os, r, Calls(ord, r, args[1..])));
        assert Calls(ord, r, args)[1..] == Calls(ord, r, args[1..]);
      }
    } else if args[0] != "--" {
      FirstElement(ord, os, r, args);
    }
  }

  lemma FirstElement(ord: Ordering, os: string, r: string, args: seq<string>)
    requires os != "" && (os[0] == '-' || os[0] == '+') && r == os[1..] && args != [] && !NonOption(args[0]) && args[0] != "--"
    ensures var calls := Calls(ord, r, args);
      var a, b := Partition(ord, OptString(r, os), args), Partition(ord, OptString(r, r), args);
      if calls == [] || AllSame(os, r, calls[1..]) then a == b else Part(a.reports, b.reports)
  {
    hide Decode, DecodeCalls, AllSame, Partition, Part;
    var k := 1 + Decode(OptString(r, r), args[0][1..], args[1..]).1;
    var cs := DecodeCalls(r, args[0][1..]);
    FirstDecode(os, r, args[0][1..], args[1..]);
    LaterQuirk(ord, os, r, args[k..]);
    ElementQuirk(ord, os, r, r, args, cs[1..]);
    assert Calls(ord, r, args) == cs + Calls(ord, r, args[k..]);
    assert (cs + Calls(ord, r, args[k..]))[1..] == cs[1..] + Calls(ord, r, args[k..]);
  }

  /** The option string "-a" and the element "-a-": after -a the prefix is an option. */
  lemma PrefixDiffers()
    ensures OrderingOf("-a", false) == ReturnInOrder
    ensures Partition(ReturnInOrder, AtFirst("-a"), ["-a-"]).reports == [Opt('a', None), Opt('-', None)]
    ensures Partition(ReturnInOrder, OptString("a", "a"), ["-a-"]).reports == [Opt('a', None), BadOption('-')]
  {
    AfterDash("-a", Opt('-', None));
    AfterDash("a", BadOption('-'));
  }

  /** The element "-a-", when the calls after the first use the option string later. */
  lemma AfterDash(later: string, f: Report)
    requires Decode(OptString(later, later), "-", []) == ([f], 0)
    ensures Partition(ReturnInOrder, OptString("a", later), ["-a-"]).reports == [Opt('a', None), f]
  {
    var os, args := OptString("a", later), ["-a-"];
    assert args[0][1..] == "a-" && args[1..] == [] && "a-"[1..] == "-";
    assert KindOf("a", 'a') == Flag;
    assert Decode(os, "a-", []) == Further(Opt('a', None), os, "-", []);
    assert [Opt('a', None)] + [f] == [Opt('a', None), f];
    assert Decode(os, "a-", []) == ([Opt('a', None), f], 0);
    PartitionElement(ReturnInOrder, os, args);
    hide Decode;
  }

  // ---------- the scanner ----------

  /** What the whole scan yields, seen from its state in the middle of it. */
  function Total(ord: Ordering, os: OptString, s: seq<string>, first: nat, last: nat, optind: nat, nextchar: string): Split
    requires 1 <= first <= last <= optind <= |s| && (nextchar != "" ==> optind < |s|)
  {
    Join(Split(s[1..first] + s[last..optind], s[first..last], []),
         if nextchar != "" then InElement(ord, os, nextchar, s[optind..]) else Partition(ord, os, s[optind..]))
  }

  lemma ExchangeKeepsTotal(ord: Ordering, os: OptString, s: seq<string>, first: nat, last: nat, optind: nat)
    requires 1 <= first <= last <= optind <= |s|
    ensures Total(ord, os, Rotated(s, first, last, optind), first + (optind - last), optind, optind, "") ==
            Total(ord, os, s, first, last, optind, "")
    ensures Rotated(s, first, last, optind)[0] == s[0]
  {
    hide Partition;
    var r := Rotated(s, first, last, optind);
    var f := first + (optind - last);
    assert r[1..f] == s[1..first] + s[last..optind] && r[optind..optind] == [];
    assert r[f..optind] == s[first..last] && r[optind..] == s[optind..];
  }

  lemma SkipKeepsTotal(os: OptString, s: seq<string>, first: nat, optind: nat)
    requires 1 <= first <= optind < |s| && NonOption(s[optind])
    ensures Total(Permute, os, s, first, optind + 1, optind + 1, "") == Total(Permute, os, s, first, optind, optind, "")
  {
    var e := s[optind];
    assert s[optind..][0] == e && s[optind..][1..] == s[optind + 1..];
    assert s[first..optind + 1] == s[first..optind] + [e];
    assert s[optind..optind] == [] && s[optind + 1..optind + 1] == [];
    hide Partition;
    JoinAssoc(Split(s[1..first] + [], s[first..optind], []), Split([], [e], []), Partition(Permute, os, s[optind + 1..]));
    assert s[1..first] + [] + [] == s[1..first];
  }

  /** RETURN_IN_ORDER comes to an element that is no option. */
  lemma PassKeepsTotal(os: OptString, s: seq<string>, first: nat, optind: nat)
    requires 1 <= first <= optind < |s| && NonOption(s[optind])
    ensures Total(ReturnInOrder, os, s, first, first, optind, "") ==
            Before(NonOpt(s[optind]), Total(ReturnInOrder, Later(os), s, first, first, optind + 1, ""))
  {
    var e := s[optind];
    assert s[optind..][0] == e && s[optind..][1..] == s[optind + 1..];
    assert s[first..optind + 1] == s[first..optind] + [e] && s[first..first] == [];
    hide Partition;
    var more := Partition(ReturnInOrder, Later(os), s[optind + 1..]);
    assert (s[1..first] + s[first..optind]) + ([e] + more.opts) == (s[1..first] + (s[first..optind] + [e])) + more.opts;
    assert [] + ([] + more.rest) == [] + more.rest;
    assert [] + ([NonOpt(e)] + more.reports) == [NonOpt(e)] + ([] + more.reports);
  }

  /** The scan has come to the end, or to "--", or, with REQUIRE_ORDER, to no option. */
  predicate AtEnd(ord: Ordering, s: seq<string>, optind: nat)
    requires optind <= |s|
  {
    optind == |s| || s[optind] == "--" || (ord == RequireOrder && NonOption(s[optind]))
  }

  /** The element at optind, if the scan ends with "--". */
  function Marker(s: seq<string>, optind: nat): seq<string>
    requires optind <= |s|
  {
    if optind < |s| && s[optind] == "--" then ["--"] else []
  }

  lemma EndOfScan(ord: Ordering, os: OptString, s: seq<string>, first: nat, last: nat, optind: nat)
    requires 1 <= first <= last <= optind <= |s| && AtEnd(ord, s, optind)
    ensures var t := Total(ord, os, s, first, last, optind, "");
      t.reports == [] &&
      t.opts == (s[1..first] + s[last..optind]) + Marker(s, optind) &&
      t.rest == s[first..last] + s[optind + |Marker(s, optind)|..]
  {
    if optind == |s| {
      assert s[optind..] == [];
    } else {
      assert s[optind..][0] == s[optind] && s[optind..][1..] == s[optind + 1..];
    }
  }

  /** PERMUTE: what was skipped lies before optind, and "--" changes places with it. */
  lemma Reassembled(s: seq<string>, first: nat, optind: nat)
    requires 1 <= first <= optind <= |s| && (optind == |s| || s[optind] == "--")
    ensures var k := optind + |Marker(s, optind)|;
      Rotated(s, first, optind, k) ==
        [s[0]] + ((s[1..first] + s[optind..optind]) + Marker(s, optind)) + (s[first..optind] + s[k..])
    ensures first == optind ==> Rotated(s, first, optind, optind + |Marker(s, optind)|) == s
  {
    assert s[..first] == [s[0]] + s[1..first];
    assert optind < |s| ==> s[optind..optind + 1] == ["--"];
  }

  /** The other orderings: nothing was skipped. */
  lemma NothingSkipped(ord: Ordering, s: seq<string>, first: nat, optind: nat)
    requires 1 <= first <= optind <= |s| && AtEnd(ord, s, optind)
    ensures var k := optind + |Marker(s, optind)|;
      s == [s[0]] + ((s[1..first] + s[first..optind]) + Marker(s, optind)) + (s[first..first] + s[k..])
  {
    assert s[..optind] == [s[0]] + (s[1..first] + s[first..optind]);
    assert optind < |s| && s[optind] == "--" ==> s[optind..optind + 1] == ["--"];
  }

  /** An option character of the current element is reported, the element is not finished. */
  lemma ReportInside(ord: Ordering, os: OptString, s: seq<string>, first: nat, last: nat, optind: nat, chars: string, f: Report)
    requires 1 <= first <= last <= optind < |s| && |chars| > 1
    requires Decode(os, chars, s[optind + 1..]) == Further(f, os, chars[1..], s[optind + 1..])
    ensures Total(ord, os, s, first, last, optind, chars) == Before(f, Total(ord, Later(os), s, first, last, optind, chars[1..]))
  {
    hide Decode, Partition;
    var args := s[optind..];
    assert args[1..] == s[optind + 1..];
    var a := Split(s[1..first] + s[last..optind], s[first..last], []);
    var d := Decode(Later(os), chars[1..], args[1..]);
    var e := Split(args[..1 + d.1], [], d.0);
    var more := Partition(ord, Later(os), args[1 + d.1..]);
    assert InElement(ord, os, chars, args) == Join(Split(args[..1 + d.1], [], [f] + d.0), more);
    assert InElement(ord, Later(os), chars[1..], args) == Join(e, more);
    assert [] + (([f] + d.0) + more.reports) == [f] + ([] + (d.0 + more.reports));
  }

  /** The last report of an element, which takes k further elements with it. */
  lemma ReportLast(ord: Ordering, os: OptString, s: seq<string>, first: nat, last: nat, optind: nat, chars: string, f: Report, k: nat)
    requires 1 <= first <= last <= optind < |s| && chars != [] && optind + 1 + k <= |s|
    requires Decode(os, chars, s[optind + 1..]) == ([f], k)
    ensures Total(ord, os, s, first, last, optind, chars) == Before(f, Total(ord, Later(os), s, first, last, optind + 1 + k, ""))
  {
    hide Decode, Partition;
    var args := s[optind..];
    assert args[1..] == s[optind + 1..] && args[1 + k..] == s[optind + 1 + k..];
    assert s[last..optind + 1 + k] == s[last..optind] + args[..1 + k];
    var more := Partition(ord, Later(os), args[1 + k..]);
    assert InElement(ord, os, chars, args) == Join(Split(args[..1 + k], [], [f]), more);
    assert (s[1..first] + s[last..optind]) + (args[..1 + k] + more.opts) == (s[1..first] + s[last..optind + 1 + k]) + more.opts;
    assert s[first..last] + ([] + more.rest) == s[first..last] + more.rest;
    assert [] + ([f] + more.reports) == [f] + ([] + more.reports);
  }

  function Before(f: Report, t: Split): Split {
    Split(t.opts, t.rest, [f] + t.reports)
  }

  class Scanner {
    const ordering: Ordering
    const argv: array<string>
    var optstring: OptString
    var optind: nat
    var firstNonopt: nat
    var lastNonopt: nat
    var nextchar: string

    ghost predicate Valid()
      reads this
    {
      && 1 <= firstNonopt <= lastNonopt <= optind <= argv.Length && (nextchar != "" ==> optind < argv.Length)
      && (ordering != Permute ==> firstNonopt == lastNonopt)
    }

    /** What the scan yields in the end. */
    ghost function Whole(): Split
      requires Valid()
      reads this, argv
    {
      Total(ordering, optstring, argv[..], firstNonopt, lastNonopt, optind, nextchar)
    }

    /** _getopt_initialize */
    constructor (os: string, posixly: bool, args: array<string>)
      requires args.Length >= 1
      ensures argv == args && Valid() && Whole() == Partition(OrderingOf(os, posixly), AtFirst(os), args[1..])
    {
      ordering, optstring, argv := OrderingOf(os, posixly), AtFirst(os), args;
      optind, firstNonopt, lastNonopt, nextchar := 1, 1, 1, "";
      new;
      assert argv[..][1..] == args[1..] && argv[..][1..1] == [];
    }

    /** Options processed since the last non-options change places with them. */
    method Settle()
      requires Valid() && nextchar == "" && ordering == Permute
      modifies this, argv
      ensures Valid() && nextchar == "" && lastNonopt == optind == old(optind)
      ensures Whole() == old(Whole()) && argv[0] == old(argv[0])
    {
      hide Total, Rotated;
      ExchangeKeepsTotal(ordering, optstring, argv[..], firstNonopt, lastNonopt, optind);
      if firstNonopt != lastNonopt && lastNonopt != optind {
        ghost var s := argv[..];
        Exchange(argv, firstNonopt, lastNonopt, optind);
        assert argv[..][0] == s[0];
        firstNonopt := firstNonopt + (optind - lastNonopt);
      } else if lastNonopt != optind {
        RotatedTrivially(argv[..], firstNonopt, lastNonopt, optind);
        firstNonopt := optind;
      }
      lastNonopt := optind;
    }

    method SkipNonOptions()
      requires Valid() && nextchar == "" && lastNonopt == optind && ordering == Permute
      modifies this
      ensures Valid() && nextchar == "" && lastNonopt == optind
      ensures optind < argv.Length ==> !NonOption(argv[optind])
      ensures Whole() == old(Whole())
    {
      hide Total, NonOption;
      while optind < argv.Length && NonOption(argv[optind])
        invariant Valid() && nextchar == "" && lastNonopt == optind
        invariant Whole() == old(Whole())
        decreases argv.Length - optind
      {
        SkipKeepsTotal(optstring, argv[..], firstNonopt, optind);
        optind := optind + 1;
        lastNonopt := optind;
      }
    }

    /** The end of the scan: "--" goes before the non-options, and optind back to them. */
    method Finish()
      requires Valid() && nextchar == "" && (ordering == Permute ==> lastNonopt == optind)
      requires optind < argv.Length ==> argv[optind] == "--"
      modifies this, argv
      ensures old(Whole()).reports == []
      ensures argv[..] == [old(argv[0])] + old(Whole()).opts + old(Whole()).rest
      ensures optind == 1 + |old(Whole()).opts|
    {
      hide Total, Partition, Rotated;
      ghost var s := argv[..];
      EndOfScan(ordering, optstring, s, firstNonopt, lastNonopt, optind);
      if ordering == Permute {
        Reassembled(s, firstNonopt, optind);
      } else {
        NothingSkipped(ordering, s, firstNonopt, optind);
      }
      RotatedTrivially(s, firstNonopt, optind, optind);
      if optind != argv.Length {
        optind := optind + 1;
        if firstNonopt != lastNonopt && lastNonopt != optind {
          Exchange(argv, firstNonopt, lastNonopt, optind);
          firstNonopt := firstNonopt + (optind - lastNonopt);
        } else if firstNonopt == lastNonopt {
          firstNonopt := optind;
        }
        lastNonopt := argv.Length;
        optind := argv.Length;
      }
      if firstNonopt != lastNonopt {
        optind := firstNonopt;
      }
    }

    /** The next short option character. */
    method DecodeOne() returns (r: Report)
      requires Valid() && nextchar != ""
      modifies this
      ensures Valid() && old(Whole()) == Before(r, Whole()) && optstring == Later(old(optstring))
    {
      hide Total;
      ghost var chars, i, os := nextchar, optind, optstring;
      var c := nextchar[0];
      nextchar := nextchar[1..];
      if nextchar == "" {
        optind := optind + 1;
      }
      match KindOf(optstring.now, c) {
        case Unknown =>
          r := BadOption(c);
        case Flag =>
          r := Opt(c, None);
        case Optional =>
          r := Opt(c, None);
          if nextchar != "" {
            r := Opt(c, Some(nextchar));
            optind := optind + 1;
          }
          nextchar := "";
        case Required =>
          if nextchar != "" {
            r := Opt(c, Some(nextchar));
            optind := optind + 1;
          } else if optind == argv.Length {
            r := MissingArg(c);
          } else {
            r := Opt(c, Some(argv[optind]));
            optind := optind + 1;
          }
          nextchar := "";
        case LongName =>
          if nextchar != "" {
            r := Fault;
            optind := optind + 1;
          } else if optind == argv.Length {
            r := MissingArg(c);
          } else {
            r := Fault;
            optind := optind + 1;
          }
          nextchar := "";
      }
      if nextchar != "" {
        ReportInside(ordering, os, argv[..], firstNonopt, lastNonopt, i, chars, r);
      } else {
        ReportLast(ordering, os, argv[..], firstNonopt, lastNonopt, i, chars, r, optind - i - 1);
      }
      optstring := Later(optstring);
    }

    /** One call of getopt. */
    method Next() returns (r: Option<Report>)
      requires Valid()
      modifies this, argv
      ensures argv[0] == old(argv[0])
      ensures r.Some? ==> Valid() && old(Whole()) == Before(r.value, Whole())
      ensures r == None ==>
        old(Whole()).reports == [] && optind == 1 + |old(Whole()).opts| &&
        argv[..] == [old(argv[0])] + old(Whole()).opts + old(Whole()).rest
    {
      hide Total;
      if nextchar == "" {
        if ordering == Permute {
          Settle();
          SkipNonOptions();
        }
        if optind == argv.Length || argv[optind] == "--" {
          ghost var zero := argv[0];
          Finish();
          assert argv[..][0] == zero;
          return None;
        }
        if NonOption(argv[optind]) {
          r := StopOrPass();
          return;
        }
        StartElement(ordering, optstring, argv[..], firstNonopt, lastNonopt, optind);
        nextchar := argv[optind][1..];
      }
      var f := DecodeOne();
      return Some(f);
    }

    /** An element that is no option and was not permuted. */
    method StopOrPass() returns (r: Option<Report>)
      requires Valid() && nextchar == "" && ordering != Permute
      requires optind < argv.Length && NonOption(argv[optind]) && argv[optind] != "--"
      modifies this
      ensures r.Some? ==> Valid() && old(Whole()) == Before(r.value, Whole())
      ensures r == None ==>
        old(Whole()).reports == [] && optind == 1 + |old(Whole()).opts| &&
        argv[..] == [argv[0]] + old(Whole()).opts + old(Whole()).rest
    {
      hide Total, Partition;
      if ordering == RequireOrder {
        EndOfScan(ordering, optstring, argv[..], firstNonopt, lastNonopt, optind);
        NothingSkipped(ordering, argv[..], firstNonopt, optind);
        return None;
      }
      PassKeepsTotal(optstring, argv[..], firstNonopt, optind);
      r := Some(NonOpt(argv[optind]));
      optind := optind + 1;
      optstring := Later(optstring);
    }
  }

  lemma StartElement(ord: Ordering, os: OptString, s: seq<string>, first: nat, last: nat, optind: nat)
    requires 1 <= first <= last <= optind < |s| && !NonOption(s[optind]) && s[optind] != "--"
    ensures s[optind][1..] != ""
    ensures Total(ord, os, s, first, last, optind, "") == Total(ord, os, s, first, last, optind, s[optind][1..])
  {
    assert s[optind..][0] == s[optind];
  }

  /** The reports up to the first call that never returns. */
  predicate CutShort(reports: seq<Report>, all: seq<Report>) {
    reports != [] && reports <= all && reports[|reports| - 1].Fault? && Fault !in reports[..|reports| - 1]
  }

  lemma FaultCuts(reports: seq<Report>, more: seq<Report>)
    requires reports != [] && reports[|reports| - 1].Fault? && Fault !in reports[..|reports| - 1]
    ensures Fault in reports + more && CutShort(reports, reports + more)
  {
    assert (reports + more)[|reports| - 1] == Fault;
  }

  /** Calling getopt until it returns -1: argv is what was passed over and then what is left, in
      the way of the ordering; optind is where that begins, and every option was reported, in
      order.  It comes to no end if and only if some report is the fault of "W;". */
  method Scan(os: string, posixly: bool, argv: array<string>) returns (reports: seq<Report>, optind: nat)
    modifies argv
    ensures argv.Length == 0 ==> reports == [] && optind == 1
    ensures argv.Length > 0 ==>
      var p := Partition(OrderingOf(os, posixly), AtFirst(os), old(argv[1..]));
      if Fault in p.reports then CutShort(reports, p.reports)
      else argv[..] == [old(argv[0])] + p.opts + p.rest && optind == 1 + |p.opts| && reports == p.reports
  {
    hide Total, Partition, CutShort;
    if argv.Length < 1 {
      return [], 1;
    }
    var g := new Scanner(os, posixly, argv);
    ghost var p := g.Whole();
    ghost var zero := argv[0];
    reports := [];
    while true
      invariant g.Valid() && g.argv == argv && fresh(g) && argv[0] == zero
      invariant p == Split(g.Whole().opts, g.Whole().rest, reports + g.Whole().reports) && Fault !in reports
      decreases |p.reports| - |reports|
    {
      var r := g.Next();
      if r == None {
        return reports, g.optind;
      }
      Assoc(reports, [r.value], g.Whole().reports);
      reports := reports + [r.value];
      if r.value.Fault? {
        FaultCuts(reports, g.Whole().reports);
        return reports, g.optind;
      }
    }
  }
}
