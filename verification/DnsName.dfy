/** Compressed domain names in a datagram: adns__findlabel_next and its callers. */
module DnsName {
  import opened Common

  type Label = seq<Byte>

  const MAXLABEL := 63
  const MAXDOMAIN := 255

  // ---------- the format (section 4.1.4 of RFC 1035) ----------

  predicate IsPointer(d: seq<Byte>, i: nat) {
    i + 1 < |d| && d[i] >= 192
  }

  function Target(d: seq<Byte>, i: nat): nat
    requires IsPointer(d, i)
  {
    var high: int := d[i];
    (high - 192) * 256 + d[i + 1]
  }

  predicate IsLabel(d: seq<Byte>, i: nat) {
    i < |d| && 0 < d[i] < 64 && i + 1 + d[i] <= |d|
  }

  function LabelAt(d: seq<Byte>, i: nat): Label
    requires IsLabel(d, i)
  {
    d[i + 1..i + 1 + d[i]]
  }

  /** The bytes at i denote the labels ls, following at most n labels and pointers. */
  ghost predicate Denotes(d: seq<Byte>, i: nat, ls: seq<Label>, n: nat)
    decreases n
  {
    if IsPointer(d, i) then n > 0 && Denotes(d, Target(d, i), ls, n - 1)
    else if IsLabel(d, i) then
      n > 0 && ls != [] && ls[0] == LabelAt(d, i) && Denotes(d, i + 1 + d[i], ls[1..], n - 1)
    else i < |d| && d[i] == 0 && ls == []
  }

  /** Just past the part of the name at i that is not reached through a pointer. */
  function EndOf(d: seq<Byte>, i: nat): (e: nat)
    ensures IsLabel(d, i) || IsPointer(d, i) || i < |d| ==> e > i
    decreases |d| - i
  {
    if IsPointer(d, i) then i + 2
    else if IsLabel(d, i) then EndOf(d, i + 1 + d[i])
    else if i < |d| then i + 1
    else i
  }

  /** The length of a name as text: the labels with a dot between them. */
  function TextLen(ls: seq<Label>): nat {
    if ls == [] then 0 else |ls[0]| + MoreLen(ls[1..])
  }

  function MoreLen(ls: seq<Label>): nat {
    if ls == [] then 0 else 1 + |ls[0]| + MoreLen(ls[1..])
  }

  // ---------- findlabel_next ----------

  /** findlabel_state; end is the value stored through dmend_r, None while that is pending. */
  datatype Cursor = Cursor(at: nat, namelen: nat, max: nat, end: Option<nat>)

  datatype Why = Root(end: nat) | Truncated | TooLong | UnknownFormat | InvalidResponse

  datatype Move = Jump(c: Cursor) | Read(text: Label, c: Cursor) | Stop(why: Why)

  /** One pass through the loop of findlabel_next. */
  function Next(d: seq<Byte>, c: Cursor): Move {
    if c.at >= |d| then Stop(Truncated)
    else if c.at >= c.max then Stop(InvalidResponse)
    else if d[c.at] >= 192 then
      if c.at + 1 >= |d| then Stop(Truncated)
      else if c.at + 1 >= c.max then Stop(InvalidResponse)
      else Jump(Cursor(Target(d, c.at), c.namelen, |d| + 1, Some(if c.end == None then c.at + 2 else c.end.value)))
    else if d[c.at] >= 64 then Stop(UnknownFormat)
    else if d[c.at] == 0 then Stop(Root(if c.end == None then c.at + 1 else c.end.value))
    else
      var len := (if c.namelen > 0 then c.namelen + 1 else 0) + d[c.at];
      var at := c.at + 1 + d[c.at];
      if len > MAXDOMAIN then Stop(TooLong)
      else if at > |d| then Stop(Truncated)
      else if at > c.max then Stop(InvalidResponse)
      else Read(d[c.at + 1..at], Cursor(at, len, c.max, c.end))
  }

  /** The labels read in n passes, and how the name ended if it did. */
  datatype Run = Going(labels: seq<Label>, c: Cursor) | Stopped(labels: seq<Label>, why: Why)

  function Prepend(ls: seq<Label>, r: Run): Run {
    match r
    case Going(more, c) => Going(ls + more, c)
    case Stopped(more, why) => Stopped(ls + more, why)
  }

  function RunN(d: seq<Byte>, c: Cursor, n: nat): Run
    decreases n
  {
    if n == 0 then Going([], c)
    else
      match Next(d, c)
      case Jump(c') => RunN(d, c', n - 1)
      case Read(l, c') => Prepend([l], RunN(d, c', n - 1))
      case Stop(why) => Stopped([], why)
  }

  function Begin(i: nat, max: nat): Cursor {
    Cursor(i, 0, max, None)
  }

  lemma RunUnfolds(d: seq<Byte>, c: Cursor, n: nat)
    requires n > 0
    ensures match Next(d, c)
      case Jump(c') => RunN(d, c, n) == RunN(d, c', n - 1)
      case Read(l, c') => RunN(d, c, n) == Prepend([l], RunN(d, c', n - 1))
      case Stop(why) => RunN(d, c, n) == Stopped([], why)
  {
  }

  // ---------- what is decoded ----------

  /** What stays of the limit of 255 after the labels that made up namelen. */
  predicate Fits(namelen: nat, ls: seq<Label>) {
    namelen + (if namelen > 0 then MoreLen(ls) else TextLen(ls)) <= MAXDOMAIN
  }

  /** The uncompressed part has been left, or lies within max. */
  predicate WithinMax(d: seq<Byte>, c: Cursor) {
    if c.end == None then EndOf(d, c.at) <= c.max else c.max > |d|
  }

  function FinalEnd(d: seq<Byte>, c: Cursor): nat {
    if c.end == None then EndOf(d, c.at) else c.end.value
  }

  /** What a pass finds in the datagram. */
  lemma NextReads(d: seq<Byte>, c: Cursor)
    ensures match Next(d, c)
      case Jump(c') => IsPointer(d, c.at) && c'.at == Target(d, c.at) && c'.namelen == c.namelen
      case Read(l, c') =>
        !IsPointer(d, c.at) && IsLabel(d, c.at) && l == LabelAt(d, c.at) && c'.at == c.at + 1 + d[c.at] &&
        c'.namelen == (if c.namelen > 0 then c.namelen + 1 else 0) + |l| <= MAXDOMAIN
      case Stop(why) => why.Root? ==> c.at < |d| && d[c.at] == 0
  {
  }

  /** Labels fit behind a label that fits. */
  lemma MoreFits(namelen: nat, l: Label, more: seq<Label>)
    requires l != []
    ensures Fits((if namelen > 0 then namelen + 1 else 0) + |l|, more) <==> Fits(namelen, [l] + more)
  {
    assert ([l] + more)[1..] == more;
  }

  lemma NoneFits(namelen: nat)
    requires namelen <= MAXDOMAIN
    ensures Fits(namelen, [])
  {
  }

  lemma {:induction false} DecodedIsDenoted(d: seq<Byte>, c: Cursor, n: nat)
    requires c.namelen <= MAXDOMAIN
    requires RunN(d, c, n).Stopped? && RunN(d, c, n).why.Root?
    ensures Denotes(d, c.at, RunN(d, c, n).labels, n) && Fits(c.namelen, RunN(d, c, n).labels)
    decreases n
  {
    hide RunN, Next, Fits;
    RunNothing(d, c);
    RunUnfolds(d, c, n);
    NextReads(d, c);
    match Next(d, c)
    case Jump(c') => DecodedIsDenoted(d, c', n - 1);
    case Read(l, c') =>
      var more := RunN(d, c', n - 1).labels;
      DecodedIsDenoted(d, c', n - 1);
      MoreFits(c.namelen, l, more);
      assert ([l] + more)[1..] == more;
    case Stop(why) => NoneFits(c.namelen);
  }

  lemma {:induction false} DecodedEnd(d: seq<Byte>, c: Cursor, n: nat)
    requires c.end.Some? ==> c.max > |d|
    requires RunN(d, c, n).Stopped? && RunN(d, c, n).why.Root?
    ensures WithinMax(d, c) && RunN(d, c, n).why.end == FinalEnd(d, c)
    decreases n
  {
    hide RunN;
    RunNothing(d, c);
    RunUnfolds(d, c, n);
    match Next(d, c)
    case Jump(c') => DecodedEnd(d, c', n - 1);
    case Read(_, c') => DecodedEnd(d, c', n - 1);
    case Stop(why) =>
  }

  /** A pass stays within max, and finds the same end. */
  lemma NextWithin(d: seq<Byte>, c: Cursor)
    requires WithinMax(d, c)
    ensures !Next(d, c).Stop? ==> WithinMax(d, Next(d, c).c) && FinalEnd(d, Next(d, c).c) == FinalEnd(d, c)
  {
  }

  /** A name that is denoted and fits stops only at its root. */
  lemma DenotedStops(d: seq<Byte>, c: Cursor, ls: seq<Label>, n: nat)
    requires Denotes(d, c.at, ls, n) && Fits(c.namelen, ls) && WithinMax(d, c) && Next(d, c).Stop?
    ensures ls == [] && Next(d, c) == Stop(Root(FinalEnd(d, c)))
  {
  }

  lemma {:induction false} DenotedIsDecoded(d: seq<Byte>, c: Cursor, ls: seq<Label>, n: nat)
    requires Denotes(d, c.at, ls, n) && Fits(c.namelen, ls) && WithinMax(d, c)
    ensures RunN(d, c, n + 1) == Stopped(ls, Root(FinalEnd(d, c)))
    decreases n
  {
    hide RunN, Next, Fits;
    RunUnfolds(d, c, n + 1);
    NextReads(d, c);
    NextWithin(d, c);
    match Next(d, c)
    case Jump(c') => DenotedIsDecoded(d, c', ls, n - 1);
    case Read(l, c') =>
      assert ls == [l] + ls[1..];
      MoreFits(c.namelen, l, ls[1..]);
      DenotedIsDecoded(d, c', ls[1..], n - 1);
    case Stop(why) => DenotedStops(d, c, ls, n);
  }

  lemma {:induction false} RunIsDeterministic(d: seq<Byte>, c: Cursor, n: nat, m: nat)
    requires n <= m && RunN(d, c, n).Stopped?
    ensures RunN(d, c, m) == RunN(d, c, n)
    decreases n
  {
    hide RunN, Next;
    RunNothing(d, c);
    RunUnfolds(d, c, n);
    RunUnfolds(d, c, m);
    match Next(d, c)
    case Jump(c') => RunIsDeterministic(d, c', n - 1, m - 1);
    case Read(_, c') => RunIsDeterministic(d, c', n - 1, m - 1);
    case Stop(_) =>
  }

  ghost predicate Name(d: seq<Byte>, i: nat, ls: seq<Label>) {
    exists n :: Denotes(d, i, ls, n)
  }

  ghost predicate Decodes(d: seq<Byte>, i: nat, max: nat, ls: seq<Label>, end: nat) {
    exists n :: RunN(d, Begin(i, max), n) == Stopped(ls, Root(end))
  }

  /** Decoding a name succeeds exactly on the names that the bytes denote, if their text is
      not too long and their uncompressed part ends within max; the end it reports is where
      that part ends. */
  lemma DecodingIsExact(d: seq<Byte>, i: nat, max: nat, ls: seq<Label>, end: nat)
    ensures Decodes(d, i, max, ls, end) <==>
      Name(d, i, ls) && TextLen(ls) <= MAXDOMAIN && end == EndOf(d, i) && end <= max
  {
    var c := Begin(i, max);
    if Decodes(d, i, max, ls, end) {
      var n: nat :| RunN(d, c, n) == Stopped(ls, Root(end));
      DecodedIsDenoted(d, c, n);
      DecodedEnd(d, c, n);
    }
    if Name(d, i, ls) && TextLen(ls) <= MAXDOMAIN && end == EndOf(d, i) && end <= max {
      var n: nat :| Denotes(d, i, ls, n);
      DenotedIsDecoded(d, c, ls, n);
      assert RunN(d, c, n + 1) == Stopped(ls, Root(end));
    }
  }

  // ---------- when decoding ends ----------

  /** The pointer that a pass of the run meets, if any, leads to a lower offset. */
  ghost predicate GoesDown(d: seq<Byte>, c: Cursor, n: nat) {
    var r := RunN(d, c, n);
    r.Going? && Next(d, r.c).Jump? ==> Target(d, r.c.at) < r.c.at
  }

  /** All the pointers of a name that is being read lead down. */
  ghost predicate PointersGoDown(d: seq<Byte>, c: Cursor) {
    forall n: nat :: GoesDown(d, c, n)
  }

  lemma StillGoesDown(d: seq<Byte>, c: Cursor)
    requires PointersGoDown(d, c) && !Next(d, c).Stop?
    ensures PointersGoDown(d, Next(d, c).c)
  {
    var c' := Next(d, c).c;
    forall n: nat ensures GoesDown(d, c', n) {
      assert GoesDown(d, c, n + 1);
    }
  }

  /** A name whose pointers lead to lower offsets ends, by the measure (255 - namelen, cursor). */
  lemma {:induction false} DownwardEnds(d: seq<Byte>, c: Cursor) returns (n: nat)
    requires PointersGoDown(d, c) && c.namelen <= MAXDOMAIN
    ensures RunN(d, c, n).Stopped?
    decreases MAXDOMAIN - c.namelen, c.at
  {
    match Next(d, c)
    case Jump(c') =>
      assert GoesDown(d, c, 0);
      StillGoesDown(d, c);
      n := DownwardEnds(d, c');
      n := n + 1;
    case Read(_, c') =>
      StillGoesDown(d, c);
      n := DownwardEnds(d, c');
      n := n + 1;
    case Stop(_) =>
      n := 1;
  }

  /** The offset reached by following k pointers from i. */
  function Hops(d: seq<Byte>, i: nat, k: nat): Option<nat>
    decreases k
  {
    if k == 0 then Some(i)
    else if IsPointer(d, i) then Hops(d, Target(d, i), k - 1)
    else None
  }

  /** After the first pointer, pointers are followed whatever the limits. */
  lemma {:induction false} FollowHops(d: seq<Byte>, c: Cursor, k: nat, n: nat)
    requires c.max > |d| && c.end.Some? && Hops(d, c.at, k).Some?
    ensures RunN(d, c, k + n) == RunN(d, c.(at := Hops(d, c.at, k).value, max := if k == 0 then c.max else |d| + 1), n)
    decreases k
  {
    if k > 0 {
      FollowHops(d, Next(d, c).c, k - 1, n);
    }
  }

  /** A chain of pointers that comes back to where it was never ends. */
  lemma {:induction false} CycleNeverEnds(d: seq<Byte>, c: Cursor, k: nat, n: nat)
    requires c.max == |d| + 1 && c.end.Some? && k > 0 && Hops(d, c.at, k) == Some(c.at)
    ensures RunN(d, c, n).Going?
    decreases n
  {
    if n >= k {
      FollowHops(d, c, k, n - k);
      CycleNeverEnds(d, c, k, n - k);
    } else if RunN(d, c, n).Stopped? {
      RunIsDeterministic(d, c, n, k);
      FollowHops(d, c, k, 0);
    }
  }

  /** The chain of pointers from i leads back to i. */
  ghost predicate OnCycle(d: seq<Byte>, i: nat) {
    exists k :: k > 0 && Hops(d, i, k) == Some(i)
  }

  /** Some pass of the run, after its first pointer, stands on a cycle of pointers. */
  ghost predicate MeetsCycle(d: seq<Byte>, c: Cursor) {
    exists n :: StandsOnCycle(d, c, n)
  }

  ghost predicate StandsOnCycle(d: seq<Byte>, c: Cursor, n: nat) {
    var r := RunN(d, c, n);
    r.Going? && r.c.end.Some? && r.c.max == |d| + 1 && OnCycle(d, r.c.at)
  }

  ghost predicate Ends(d: seq<Byte>, c: Cursor) {
    exists n :: RunN(d, c, n).Stopped?
  }

  lemma RunNothing(d: seq<Byte>, c: Cursor)
    ensures RunN(d, c, 0) == Going([], c)
  {
  }

  lemma {:induction false} RunAdd(d: seq<Byte>, c: Cursor, a: nat, b: nat)
    requires RunN(d, c, a).Going?
    ensures RunN(d, c, a + b) == Prepend(RunN(d, c, a).labels, RunN(d, RunN(d, c, a).c, b))
    decreases a
  {
    hide RunN, Next;
    if a == 0 {
      RunNothing(d, c);
      NothingPrepended(RunN(d, c, b));
    } else {
      RunUnfolds(d, c, a);
      RunUnfolds(d, c, a + b);
      match Next(d, c)
      case Jump(c') => RunAdd(d, c', a - 1, b);
      case Read(l, c') =>
        RunAdd(d, c', a - 1, b);
        PrependedTwice(l, RunN(d, c', a - 1).labels, RunN(d, RunN(d, c', a - 1).c, b));
      case Stop(_) =>
    }
  }

  lemma NothingPrepended(r: Run)
    ensures Prepend([], r) == r
  {
    assert [] + r.labels == r.labels;
  }

  lemma PrependedTwice(l: Label, ls: seq<Label>, r: Run)
    ensures Prepend([l], Prepend(ls, r)) == Prepend([l] + ls, r)
  {
    Assoc([l], ls, r.labels);
  }

  /** A run that meets a cycle does not end. */
  lemma CycleForbidsEnd(d: seq<Byte>, c: Cursor)
    requires MeetsCycle(d, c)
    ensures !Ends(d, c)
  {
    var n: nat :| StandsOnCycle(d, c, n);
    assert StandsOnCycle(d, c, n);
    var at := RunN(d, c, n).c;
    var k: nat :| k > 0 && Hops(d, at.at, k) == Some(at.at);
    forall m: nat ensures RunN(d, c, m).Going? {
      if RunN(d, c, m).Stopped? {
        RunIsDeterministic(d, c, m, n + m);
        RunAdd(d, c, n, m);
        CycleNeverEnds(d, at, k, m);
      }
    }
  }

  lemma {:induction false} HopsAdd(d: seq<Byte>, i: nat, a: nat, b: nat)
    requires Hops(d, i, a).Some?
    ensures Hops(d, i, a + b) == Hops(d, Hops(d, i, a).value, b)
    decreases a
  {
    if a > 0 {
      HopsAdd(d, Target(d, i), a - 1, b);
    }
  }

  /** A chain of more pointers than there are offsets runs into a cycle. */
  lemma LongChainMeetsCycle(d: seq<Byte>, i: nat) returns (b: nat)
    requires Hops(d, i, |d| + 1).Some?
    ensures 0 < b && Hops(d, i, b).Some? && OnCycle(d, Hops(d, i, b).value)
  {
    forall k | 0 <= k <= |d| ensures Hops(d, i, k).Some? && Hops(d, i, k).value < |d| {
      ChainInside(d, i, k, |d| + 1);
    }
    var s := seq(|d| + 1, k requires 0 <= k <= |d| => Hops(d, i, k).value);
    var a;
    a, b := Pigeonhole(s, |d|);
    HopsAdd(d, i, a, b - a);
    assert Hops(d, s[a], b - a) == Some(s[a]);
    assert OnCycle(d, s[b]);
  }

  lemma {:induction false} ChainInside(d: seq<Byte>, i: nat, k: nat, n: nat)
    requires k < n && Hops(d, i, n).Some?
    ensures Hops(d, i, k).Some? && Hops(d, i, k).value < |d|
    decreases k
  {
    if k > 0 {
      ChainInside(d, Target(d, i), k - 1, n - 1);
    }
  }

  /** One pass of a run that meets no cycle leaves one that meets none. */
  lemma StillNoCycle(d: seq<Byte>, c: Cursor)
    requires !MeetsCycle(d, c) && !Next(d, c).Stop?
    ensures !MeetsCycle(d, Next(d, c).c)
  {
    var c' := Next(d, c).c;
    if MeetsCycle(d, c') {
      var n: nat :| StandsOnCycle(d, c', n);
      assert StandsOnCycle(d, c, n + 1);
    }
  }

  /** A chain that runs into a cycle is followed into it. */
  lemma ChainIsFollowed(d: seq<Byte>, c: Cursor, b: nat)
    requires Next(d, c).Jump? && 0 < b && Hops(d, c.at, b).Some? && OnCycle(d, Hops(d, c.at, b).value)
    ensures MeetsCycle(d, c)
  {
    var c' := Next(d, c).c;
    FollowHops(d, c', b - 1, 0);
    var to := RunN(d, c', b - 1);
    assert to == Going([], c'.(at := Hops(d, c.at, b).value, max := |d| + 1));
    assert RunN(d, c, b) == to;
    assert StandsOnCycle(d, c, b);
  }

  /** A run that meets no cycle ends, by the measure (255 - namelen, pointers left in the chain). */
  lemma {:induction false} NoCycleEnds(d: seq<Byte>, c: Cursor, h: nat) returns (n: nat)
    requires !MeetsCycle(d, c) && c.namelen <= MAXDOMAIN
    requires Next(d, c).Jump? ==> Hops(d, c.at, h) == None
    ensures RunN(d, c, n).Stopped?
    decreases MAXDOMAIN - c.namelen, h
  {
    match Next(d, c)
    case Stop(_) =>
      n := 1;
    case Jump(c') =>
      StillNoCycle(d, c);
      n := NoCycleEnds(d, c', h - 1);
      n := n + 1;
    case Read(_, c') =>
      StillNoCycle(d, c);
      if Next(d, c').Jump? && Hops(d, c'.at, |d| + 1).Some? {
        var b := LongChainMeetsCycle(d, c'.at);
        ChainIsFollowed(d, c', b);
      }
      n := NoCycleEnds(d, c', |d| + 1);
      n := n + 1;
  }

  /** Decoding ends if and only if it meets no cycle of pointers. */
  lemma EndsIffNoCycle(d: seq<Byte>, i: nat, max: nat)
    ensures Ends(d, Begin(i, max)) <==> !MeetsCycle(d, Begin(i, max))
  {
    var c := Begin(i, max);
    if MeetsCycle(d, c) {
      CycleForbidsEnd(d, c);
    } else {
      if Next(d, c).Jump? && Hops(d, c.at, |d| + 1).Some? {
        var b := LongChainMeetsCycle(d, c.at);
        ChainIsFollowed(d, c, b);
      }
      var n := NoCycleEnds(d, c, |d| + 1);
      assert RunN(d, c, n).Stopped?;
    }
  }

  // ---------- comparing names ----------

  predicate IsAlpha(b: Byte) {
    65 <= b <= 90 || 97 <= b <= 122
  }

  predicate IsDigit(b: Byte) {
    48 <= b <= 57
  }

  /** ch &= ~32 on letters */
  function Fold(b: Byte): Byte {
    if IsAlpha(b) && b >= 97 then b - 32 else b
  }

  function FoldLabel(l: Label): Label {
    seq(|l|, k requires 0 <= k < |l| => Fold(l[k]))
  }

  function FoldName(ls: seq<Label>): seq<Label> {
    seq(|ls|, k requires 0 <= k < |ls| => FoldLabel(ls[k]))
  }
}
