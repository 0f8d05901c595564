/** The same as code with state: findlabel_state, adns__parse_domain, adns__findrr_anychk. */
module DnsNameReader {
  import opened Common
  import opened DnsName
  import opened DnsCodec

  /** The loops that follow pointers may run for ever; the methods here make at most a given
      number of passes, and say so when they would have to make more. */
  datatype Found = Found(start: nat, length: nat) | Ended(why: Why) | Unfinished

  class FindLabel {
    const dgram: seq<Byte>
    var cbyte: nat
    var namelen: nat
    var max: nat
    var dmend: Option<nat>

    ghost function View(): Cursor
      reads this
    {
      Cursor(cbyte, namelen, max, dmend)
    }

    /** adns__findlabel_start */
    constructor (d: seq<Byte>, i: nat, limit: nat)
      ensures dgram == d && View() == Begin(i, limit)
    {
      dgram, cbyte, namelen, max, dmend := d, i, 0, limit, None;
    }

    /** adns__findlabel_next, in at most n passes. */
    method Next(n: nat) returns (r: Found, m: nat)
      modifies this
      ensures r.Ended? ==> RunN(dgram, old(View()), n) == Stopped([], r.why)
      ensures r.Found? ==> m < n && 0 < r.length < 64 && r.start + r.length <= |dgram|
      ensures r.Found? ==>
        RunN(dgram, old(View()), n) == Prepend([dgram[r.start..r.start + r.length]], RunN(dgram, View(), m))
      ensures r.Unfinished? ==> RunN(dgram, old(View()), n) == Going([], View())
    {
      NoPasses();
      hide RunN, Prepend;
      m := n;
      while m > 0
        invariant m <= n && RunN(dgram, View(), m) == RunN(dgram, old(View()), n)
        decreases m
      {
        RunUnfolds(dgram, View(), m);
        if cbyte >= |dgram| {
          return Ended(Truncated), m;
        }
        if cbyte >= max {
          return Ended(InvalidResponse), m;
        }
        var lablen: int := dgram[cbyte];
        cbyte := cbyte + 1;
        if lablen < 64 {
          var labstart := cbyte;
          if lablen == 0 {
            if dmend == None {
              dmend := Some(cbyte);
            }
            return Ended(Root(dmend.value)), m;
          }
          if namelen > 0 {
            namelen := namelen + 1;
          }
          namelen := namelen + lablen;
          if namelen > MAXDOMAIN {
            return Ended(TooLong), m;
          }
          cbyte := cbyte + lablen;
          if cbyte > |dgram| {
            return Ended(Truncated), m;
          }
          if cbyte > max {
            return Ended(InvalidResponse), m;
          }
          return Found(labstart, lablen), m - 1;
        }
        if lablen < 192 {
          return Ended(UnknownFormat), m;
        }
        if cbyte >= |dgram| {
          return Ended(Truncated), m;
        }
        if cbyte >= max {
          return Ended(InvalidResponse), m;
        }
        var jumpto := (lablen - 192) * 256 + dgram[cbyte];
        cbyte := cbyte + 1;
        if dmend == None {
          dmend := Some(cbyte);
        }
        cbyte := jumpto;
        max := |dgram| + 1;
        m := m - 1;
      }
      r := Unfinished;
    }

    lemma NoPasses()
      ensures forall c :: RunN(dgram, c, 0) == Going([], c)
    {
    }
  }

  // ---------- adns__parse_domain ----------

  /** A label as a host name may have it. */
  predicate HostLabel(l: Label) {
    l != [] && (IsAlpha(l[0]) || IsDigit(l[0])) &&
    forall k :: 1 <= k < |l| ==> l[k] == HYPHEN || IsAlpha(l[k]) || IsDigit(l[k])
  }

  function LabelText(l: Label, quoteok: bool): seq<Byte> {
    if quoteok then QuotedLabel(l) else l
  }

  /** The labels with a dot between them, quoted or plain. */
  function Text(ls: seq<Label>, quoteok: bool): seq<Byte> {
    if ls == [] then []
    else if |ls| == 1 then LabelText(ls[0], quoteok)
    else Text(ls[..|ls| - 1], quoteok) + [DOT] + LabelText(ls[|ls| - 1], quoteok)
  }

  lemma {:induction false} TextOfMore(l: Label, ls: seq<Label>, quoteok: bool)
    requires ls != []
    ensures Text([l] + ls, quoteok) == LabelText(l, quoteok) + [DOT] + Text(ls, quoteok)
    decreases |ls|
  {
    hide LabelText;
    var m := |ls| - 1;
    assert ([l] + ls)[..m + 1] == [l] + ls[..m];
    if m > 0 {
      TextOfMore(l, ls[..m], quoteok);
    }
  }

  /** With quoting, the text is the one that the codec round trip is about. */
  lemma {:induction false} TextIsNameText(ls: seq<Label>)
    ensures Text(ls, true) == NameText(ls)
  {
    if |ls| > 1 {
      TextIsNameText(ls[1..]);
      TextOfMore(ls[0], ls[1..], true);
      assert ls == [ls[0]] + ls[1..];
    }
  }

  datatype Domain = Domain(text: seq<Byte>, end: nat) | Cut | Failed(why: Why) | NotHost | Endless

  /** What adns__parse_domain makes of the labels found. */
  ghost function Outcome(r: Run, quoteok: bool): Domain {
    if !quoteok && exists l :: l in r.labels && !HostLabel(l) then NotHost
    else if r.Going? then Endless
    else
      match r.why
      case Root(e) => Domain(Text(r.labels, quoteok), e)
      case Truncated => Cut
      case why => Failed(why)
  }

  method IsHostLabel(l: Label) returns (ok: bool)
    requires l != []
    ensures ok == HostLabel(l)
  {
    if !IsAlpha(l[0]) && !IsDigit(l[0]) {
      return false;
    }
    for i := 1 to |l|
      invariant forall k :: 1 <= k < i ==> l[k] == HYPHEN || IsAlpha(l[k]) || IsDigit(l[k])
    {
      if l[i] != HYPHEN && !IsAlpha(l[i]) && !IsDigit(l[i]) {
        return false;
      }
    }
    return true;
  }

  /** One label more for the text, if it may be there. */
  method AppendLabel(vb: seq<Byte>, first: bool, l: Label, quoteok: bool) returns (ok: bool, r: seq<Byte>)
    requires l != []
    ensures ok == (quoteok || HostLabel(l))
    ensures ok ==> r == vb + (if first then [] else [DOT]) + LabelText(l, quoteok)
  {
    hide HostLabel, QuotedLabel;
    ok, r := true, if first then vb else vb + [DOT];
    assert vb + [] == vb;
    if quoteok {
      r := AppendQuoted(r, l);
    } else {
      ok := IsHostLabel(l);
      r := r + l;
    }
  }

  /** What comes of the labels so far when the run is over, or has to stop. */
  lemma OutcomeThen(done: seq<Label>, rest: Run, quoteok: bool)
    requires rest.labels == [] && (quoteok || forall l :: l in done ==> HostLabel(l))
    ensures Outcome(Prepend(done, rest), quoteok) ==
      if rest.Going? then Endless
      else
        match rest.why
        case Root(e) => Domain(Text(done, quoteok), e)
        case Truncated => Cut
        case why => Failed(why)
  {
    hide HostLabel, Text;
    assert done + [] == done;
  }

  lemma OutcomeNotHost(done: seq<Label>, l: Label, rest: Run)
    requires !HostLabel(l)
    ensures Outcome(Prepend(done + [l], rest), false) == NotHost
  {
    hide HostLabel;
    assert l in (done + [l]) + rest.labels;
  }

  /** adns__parse_domain, in at most n passes over labels and pointers. */
  method ParseDomain(d: seq<Byte>, i: nat, max: nat, quoteok: bool, n: nat) returns (r: Domain)
    ensures r == Outcome(RunN(d, Begin(i, max), n), quoteok)
  {
    hide RunN, HostLabel, LabelText, QuotedLabel, Prepend, Outcome, Text;
    var fls := new FindLabel(d, i, max);
    var vb: seq<Byte> := [];
    var first := true;
    var m := n;
    ghost var done: seq<Label> := [];
    NothingPrepended(RunN(d, fls.View(), m));
    TextOfNone(quoteok);
    while true
      invariant fls.dgram == d
      invariant RunN(d, Begin(i, max), n) == Prepend(done, RunN(d, fls.View(), m))
      invariant vb == Text(done, quoteok) && first == (done == [])
      invariant quoteok || forall l :: l in done ==> HostLabel(l)
      decreases m
    {
      ghost var before := RunN(d, fls.View(), m);
      var f, m' := fls.Next(m);
      if f.Unfinished? {
        OutcomeThen(done, before, quoteok);
        return Endless;
      }
      if f.Ended? {
        OutcomeThen(done, before, quoteok);
        match f.why {
          case Root(e) => return Domain(vb, e);
          case Truncated => return Cut;
          case _ => return Failed(f.why);
        }
      }
      var l := d[f.start..f.start + f.length];
      PrependTwice(done, l, RunN(d, fls.View(), m'));
      var ok;
      ok, vb := AppendLabel(vb, first, l, quoteok);
      if !ok {
        OutcomeNotHost(done, l, RunN(d, fls.View(), m'));
        return NotHost;
      }
      first := false;
      TextGrows(done, l, quoteok);
      done, m := done + [l], m';
    }
  }

  lemma TextOfNone(quoteok: bool)
    ensures Text([], quoteok) == []
  {
  }

  lemma PrependTwice(ls: seq<Label>, l: Label, r: Run)
    ensures Prepend(ls, Prepend([l], r)) == Prepend(ls + [l], r)
  {
    assert ls + ([l] + r.labels) == (ls + [l]) + r.labels;
  }

  lemma TextGrows(ls: seq<Label>, l: Label, quoteok: bool)
    ensures Text(ls + [l], quoteok) == Text(ls, quoteok) + (if ls == [] then [] else [DOT]) + LabelText(l, quoteok)
    ensures LabelText(l, quoteok) == if quoteok then QuotedLabel(l) else l
  {
    assert (ls + [l])[..|ls|] == ls;
  }

  // ---------- the owner match of adns__findrr_anychk ----------

  method SameLabel(a: Label, b: Label) returns (same: bool)
    ensures same == (FoldLabel(a) == FoldLabel(b))
  {
    if |a| != |b| {
      return false;
    }
    for k := 0 to |a|
      invariant forall j :: 0 <= j < k ==> Fold(a[j]) == Fold(b[j])
    {
      if Fold(a[k]) != Fold(b[k]) {
        assert FoldLabel(a)[k] != FoldLabel(b)[k];
        return false;
      }
    }
    assert FoldLabel(a) == FoldLabel(b);
    return true;
  }

  datatype Owner = Owner(matched: bool, end: nat) | NoOwner(why: Why) | EndlessOwner

  /** What the comparison of a run with the labels es comes to. */
  ghost function Match(run: Run, es: seq<Label>): Owner {
    if run.Going? then EndlessOwner
    else if run.why.Root? then Owner(FoldName(run.labels) == FoldName(es), run.why.end)
    else NoOwner(run.why)
  }

  lemma DifferAt(ls: seq<Label>, es: seq<Label>, k: nat)
    requires (k < |ls| || k < |es|) && (k < |ls| && k < |es| ==> FoldLabel(ls[k]) != FoldLabel(es[k]))
    ensures FoldName(ls) != FoldName(es)
  {
    if k < |ls| && k < |es| {
      assert FoldName(ls)[k] != FoldName(es)[k];
    } else {
      assert |FoldName(ls)| == |ls| && |FoldName(es)| == |es|;
    }
  }

  /** The run without its first k labels. */
  function RunFrom(r: Run, k: nat): Run
    requires k <= |r.labels|
  {
    match r
    case Going(ls, c) => Going(ls[k..], c)
    case Stopped(ls, why) => Stopped(ls[k..], why)
  }

  /** From label k of the run on, m passes from the cursor find the rest of it. */
  ghost predicate Finds(d: seq<Byte>, c: Cursor, m: nat, run: Run, k: nat) {
    k <= |run.labels| && RunN(d, c, m) == RunFrom(run, k)
  }

  /** One call of findlabel_next within a name of which the run is known. */
  method NextOf(fls: FindLabel, m: nat, ghost run: Run, ghost k: nat) returns (f: Found, m': nat)
    requires Finds(fls.dgram, fls.View(), m, run, k)
    modifies fls
    ensures f.Ended? ==> k == |run.labels| && run.Stopped? && f.why == run.why
    ensures f.Unfinished? ==> run.Going?
    ensures f.Found? ==> k < |run.labels| && m' < m && 0 < f.length && f.start + f.length <= |fls.dgram|
    ensures f.Found? ==> fls.dgram[f.start..f.start + f.length] == run.labels[k] && Finds(fls.dgram, fls.View(), m', run, k + 1)
  {
    hide RunN;
    f, m' := fls.Next(m);
    if f.Found? {
      FirstOfRest(fls.dgram[f.start..f.start + f.length], RunN(fls.dgram, fls.View(), m'), run, k);
    }
  }

  lemma FirstOfRest(l: Label, r: Run, run: Run, k: nat)
    requires k <= |run.labels| && Prepend([l], r) == RunFrom(run, k)
    ensures k < |run.labels| && run.labels[k] == l && r == RunFrom(run, k + 1)
  {
    var rest := run.labels[k..];
    assert rest == [l] + r.labels;
    assert rest[0] == l && rest[1..] == r.labels && rest[1..] == run.labels[k + 1..];
  }

  /** The loop of adns__findrr_anychk: the name at i of d against the name es at j of eo, each
      however compressed.  The second has been read before, and is read again only as long as no
      difference was found; the first may be anything. */
  method OwnerMatches(d: seq<Byte>, i: nat, eo: seq<Byte>, j: nat, n: nat, en: nat) returns (r: Owner)
    requires RunN(eo, Begin(j, |eo|), en).Stopped? && RunN(eo, Begin(j, |eo|), en).why.Root?
    ensures r == Match(RunN(d, Begin(i, |d|), n), RunN(eo, Begin(j, |eo|), en).labels)
  {
    hide RunN, FoldLabel, FoldName;
    ghost var run, erun := RunN(d, Begin(i, |d|), n), RunN(eo, Begin(j, |eo|), en);
    ghost var ls, es := run.labels, erun.labels;
    var fls := new FindLabel(d, i, |d|);
    var eoFls := new FindLabel(eo, j, |eo|);
    var mismatch := false;
    var m, em := n, en;
    ghost var k: nat := 0;
    assert ls[0..] == ls && es[0..] == es;
    while true
      invariant fls != eoFls && fls.dgram == d && eoFls.dgram == eo
      invariant Finds(d, fls.View(), m, run, k)
      invariant if mismatch then FoldName(ls) != FoldName(es)
                else Finds(eo, eoFls.View(), em, erun, k) && forall x :: 0 <= x < k ==> FoldLabel(ls[x]) == FoldLabel(es[x])
      decreases m
    {
      var f, m' := NextOf(fls, m, run, k);
      if f.Unfinished? {
        return EndlessOwner;
      }
      if f.Ended? && !f.why.Root? {
        return NoOwner(f.why);
      }
      if !mismatch {
        var e, em' := NextOf(eoFls, em, erun, k);
        if f.Found? && e.Found? {
          var same := SameLabel(d[f.start..f.start + f.length], eo[e.start..e.start + e.length]);
          if !same {
            DifferAt(ls, es, k);
            mismatch := true;
          }
        } else if f.Found? || e.Found? {
          DifferAt(ls, es, k);
          mismatch := true;
        }
        em := em';
      }
      if f.Ended? {
        if !mismatch {
          SameNames(ls, es);
        }
        return Owner(!mismatch, f.why.end);
      }
      m, k := m', k + 1;
    }
  }

  lemma SameNames(ls: seq<Label>, es: seq<Label>)
    requires |ls| == |es| && forall x :: 0 <= x < |ls| ==> FoldLabel(ls[x]) == FoldLabel(es[x])
    ensures FoldName(ls) == FoldName(es)
  {
  }

  // ---------- adns__mkquery ----------

  /** The inner loop of adns__mkquery: one label. */
  method TakeLabel(owner: seq<Byte>, start: nat, quoteok: bool) returns (ok: bool, lab: Label, p: nat)
    requires start < |owner|
    ensures ok == ReadLabel(owner[start..], [], quoteok).Scan?
    ensures ok ==> start < p <= |owner| && ReadLabel(owner[start..], [], quoteok) == Scan(lab, owner[p..])
  {
    hide ReadChar, HostChar;
    p, lab := start, [];
    while p < |owner|
      invariant start <= p <= |owner|
      invariant p > start || lab == []
      invariant ReadLabel(owner[p..], lab, quoteok) == ReadLabel(owner[start..], [], quoteok)
      decreases |owner| - p
    {
      if owner[p] == DOT {
        assert owner[p..][1..] == owner[p + 1..];
        return true, lab, p + 1;
      }
      var c := ReadChar(owner[p..], quoteok);
      if c == BadChar {
        return false, lab, p;
      }
      if (!quoteok && !HostChar(c.c, |lab|)) || |lab| == 255 {
        return false, lab, p;
      }
      RestIsSuffix(owner, p, quoteok);
      lab := lab + [c.c];
      p := |owner| - |c.rest|;
    }
    assert owner[p..] == [];
    return true, lab, p;
  }

  lemma RestIsSuffix(owner: seq<Byte>, p: nat, quoteok: bool)
    requires p < |owner| && ReadChar(owner[p..], quoteok).Char?
    ensures var rest := ReadChar(owner[p..], quoteok).rest;
      |rest| < |owner| - p && rest == owner[|owner| - |rest|..]
  {
    var s := owner[p..];
    assert s[1..] == owner[p + 1..];
    assert |s| >= 2 ==> s[2..] == owner[p + 2..];
    assert |s| >= 4 ==> s[4..] == owner[p + 4..];
  }

  /** The name of a question, or the status with which adns__mkquery refuses it. */
  datatype Question = Question(wire: seq<Byte>) | DomainInvalid | DomainTooLong

  /** The name of the question that adns__mkquery builds for a text, within the buffer that
      mkquery_header reserved for it. */
  method MkName(owner: seq<Byte>, quoteok: bool) returns (r: Question)
    ensures r.DomainInvalid? <==> ReadName(owner, 0, quoteok).Invalid?
    ensures r.DomainTooLong? <==> ReadName(owner, 0, quoteok).NameTooLong?
    ensures r.Question? ==>
      var ls := ReadName(owner, 0, quoteok).ls;
      Legal(ls) && r.wire == Wire(ls) && |r.wire| <= |owner| + 2
  {
    hide ReadLabel, Encoded, ReadName;
    var p: nat, nbytes: nat := 0, 0;
    var rq: seq<Byte> := [];
    assert owner[p..] == owner;
    NothingBefore(Encoded(owner, 0, quoteok));
    EncodedFacts(owner, quoteok);
    while p < |owner|
      invariant p <= |owner| && nbytes < MAXDOMAIN
      invariant Encoded(owner, 0, quoteok) == Before(rq, Encoded(owner[p..], nbytes, quoteok))
      decreases |owner| - p
    {
      var ok, lab, next := TakeLabel(owner, p, quoteok);
      EncodedStep(owner[p..], nbytes, quoteok);
      if !ok || lab == [] {
        return DomainInvalid;
      }
      if |lab| > MAXLABEL {
        return DomainTooLong;
      }
      if nbytes + |lab| + 1 >= MAXDOMAIN {
        return DomainTooLong;
      }
      nbytes := nbytes + |lab| + 1;
      BeforeMore(rq, [|lab|] + lab, Encoded(owner[next..], nbytes, quoteok));
      Assoc(rq, [|lab|], lab);
      rq := rq + [|lab|] + lab;
      p := next;
    }
    assert owner[p..] == [];
    EncodedEnd(nbytes, quoteok);
    return Question(rq + [0]);
  }

  /** The bytes that the name in s adds to the question. */
  ghost function Encoded(s: seq<Byte>, nbytes: nat, quoteok: bool): Question
    requires nbytes < MAXDOMAIN
  {
    match ReadName(s, nbytes, quoteok)
    case Labels(ls) =>
      ReadNameIsLegal(s, nbytes, quoteok);
      Question(Wire(ls))
    case Invalid => DomainInvalid
    case NameTooLong => DomainTooLong
  }

  lemma EncodedFacts(owner: seq<Byte>, quoteok: bool)
    ensures Encoded(owner, 0, quoteok).DomainInvalid? <==> ReadName(owner, 0, quoteok).Invalid?
    ensures Encoded(owner, 0, quoteok).DomainTooLong? <==> ReadName(owner, 0, quoteok).NameTooLong?
    ensures Encoded(owner, 0, quoteok).Question? ==>
      var ls := ReadName(owner, 0, quoteok).ls;
      Legal(ls) && Encoded(owner, 0, quoteok).wire == Wire(ls) && |Wire(ls)| <= |owner| + 2
  {
    if ReadName(owner, 0, quoteok).Labels? {
      ReadNameIsLegal(owner, 0, quoteok);
    }
    hide ReadName, Wire;
  }

  lemma EncodedEnd(nbytes: nat, quoteok: bool)
    requires nbytes < MAXDOMAIN
    ensures Encoded([], nbytes, quoteok) == Question([0])
  {
  }

  lemma EncodedStep(s: seq<Byte>, nbytes: nat, quoteok: bool)
    requires s != [] && nbytes < MAXDOMAIN
    ensures var r := ReadLabel(s, [], quoteok);
      Encoded(s, nbytes, quoteok) ==
        if r == BadLabel || r.lab == [] then DomainInvalid
        else if |r.lab| > MAXLABEL || nbytes + |r.lab| + 1 >= MAXDOMAIN then DomainTooLong
        else Before([|r.lab|] + r.lab, Encoded(r.rest, nbytes + |r.lab| + 1, quoteok))
  {
    hide ReadLabel, Wire, MoreLen;
    var r := ReadLabel(s, [], quoteok);
    if ReadName(s, nbytes, quoteok).Labels? {
      var m := nbytes + |r.lab| + 1;
      var more := ReadName(r.rest, m, quoteok).ls;
      ReadNameIsLegal(s, nbytes, quoteok);
      ReadNameIsLegal(r.rest, m, quoteok);
      WireOfMore(r.lab, more);
    }
  }

  lemma WireOfMore(l: Label, ls: seq<Label>)
    requires |l| <= MAXLABEL && forall x :: x in ls ==> |x| <= MAXLABEL
    ensures forall x :: x in [l] + ls ==> |x| <= MAXLABEL
    ensures Wire([l] + ls) == ([|l|] + l) + Wire(ls)
  {
    assert ([l] + ls)[1..] == ls;
  }

  function Before(rq: seq<Byte>, r: Question): Question {
    if r.Question? then Question(rq + r.wire) else r
  }

  lemma BeforeMore(a: seq<Byte>, b: seq<Byte>, r: Question)
    ensures Before(a, Before(b, r)) == Before(a + b, r)
  {
    if r.Question? {
      Assoc(a, b, r.wire);
    }
  }

  lemma NothingBefore(r: Question)
    ensures Before([], r) == r
  {
    if r.Question? {
      assert [] + r.wire == r.wire;
    }
  }

  // ---------- from the wire to text and back ----------

  lemma {:induction false} DenotesOne(d: seq<Byte>, i: nat, a: seq<Label>, m: nat, b: seq<Label>, n: nat)
    requires Denotes(d, i, a, m) && Denotes(d, i, b, n)
    ensures a == b
    decreases m
  {
    if IsPointer(d, i) {
      DenotesOne(d, Target(d, i), a, m - 1, b, n - 1);
    } else if IsLabel(d, i) {
      DenotesOne(d, i + 1 + d[i], a[1..], m - 1, b[1..], n - 1);
      assert a == [a[0]] + a[1..] && b == [b[0]] + b[1..];
    }
  }

  lemma {:induction false} DenotedLabels(d: seq<Byte>, i: nat, ls: seq<Label>, n: nat)
    requires Denotes(d, i, ls, n)
    ensures forall l :: l in ls ==> 0 < |l| <= MAXLABEL
    decreases n
  {
    if IsPointer(d, i) {
      DenotedLabels(d, Target(d, i), ls, n - 1);
    } else if IsLabel(d, i) {
      DenotedLabels(d, i + 1 + d[i], ls[1..], n - 1);
      assert ls == [ls[0]] + ls[1..];
    }
  }

  lemma WireInjective(a: seq<Label>, b: seq<Label>)
    requires forall l :: l in a ==> 0 < |l| <= MAXLABEL
    requires forall l :: l in b ==> 0 < |l| <= MAXLABEL
    requires Wire(a) == Wire(b)
    ensures a == b
  {
    hide Wire, Denotes;
    var d := Wire(a);
    assert d[0..|d|] == d;
    WireDenotes(d, 0, a);
    WireDenotes(d, 0, b);
    DenotesOne(d, 0, a, |a|, b, |b|);
  }

  /** The name of a datagram, written out by adns__parse_domain with quoting and given to
      adns__mkquery, makes the same question bytes exactly when it is a legal name all of
      whose bytes are below 8 or visible. */
  lemma SameQuestion(d: seq<Byte>, i: nat, max: nat, ls: seq<Label>, end: nat)
    requires Decodes(d, i, max, ls, end)
    ensures forall l :: l in ls ==> |l| <= MAXLABEL
    ensures Encoded(Text(ls, true), 0, true) == Question(Wire(ls)) <==> Legal(ls) && forall l :: l in ls ==> Faithful(l)
  {
    DecodingIsExact(d, i, max, ls, end);
    var n: nat :| Denotes(d, i, ls, n);
    DenotedLabels(d, i, ls, n);
    hide Denotes, ReadName, Wire, Text, NameText, Faithful, Legal;
    TextIsNameText(ls);
    TextRoundTrip(ls);
    var r := ReadName(NameText(ls), 0, true);
    if r.Labels? {
      ReadNameIsLegal(NameText(ls), 0, true);
      if Wire(r.ls) == Wire(ls) {
        WireInjective(r.ls, ls);
      }
    }
  }
}
