/** Domain names as text: the quoting of adns__parse_domain and the reading of adns__mkquery. */
module DnsCodec {
  import opened Common
  import opened DnsName

  const DOT: Byte := 46
  const BACKSLASH: Byte := 92
  const HYPHEN: Byte := 45

  // ---------- writing ----------

  /** ctype_domainunquoted: letters, digits and "-_/+" */
  predicate Unquoted(b: Byte) {
    IsAlpha(b) || IsDigit(b) || b == 45 || b == 95 || b == 47 || b == 43
  }

  /** sprintf "\\%03o" */
  function Octal(b: Byte): seq<Byte> {
    [BACKSLASH, 48 + b / 64, 48 + b / 8 % 8, 48 + b % 8]
  }

  /** Three octal digits for a byte outside 33..126. */
  function Quoted(b: Byte): (s: seq<Byte>)
    ensures s != []
  {
    if b <= 32 || b >= 127 then Octal(b)
    else if Unquoted(b) then [b]
    else [BACKSLASH, b]
  }

  function QuotedLabel(l: Label): seq<Byte> {
    if l == [] then [] else Quoted(l[0]) + QuotedLabel(l[1..])
  }

  /** The labels with a dot between them. */
  function NameText(ls: seq<Label>): seq<Byte> {
    if ls == [] then []
    else if |ls| == 1 then QuotedLabel(ls[0])
    else QuotedLabel(ls[0]) + [DOT] + NameText(ls[1..])
  }

  /** What is left of buf behind the byte at i, if there is one. */
  function Behind(buf: Label, i: nat): Label {
    if i < |buf| then buf[i + 1..] else []
  }

  /** The inner loop of vbuf__append_quoted1035: up to the next byte that needs quoting. */
  method FindQuoted(buf: Label, at: nat) returns (i: nat, qbuf: seq<Byte>)
    requires at < |buf|
    ensures at <= i <= |buf|
    ensures QuotedLabel(buf[at..]) == buf[at..i] + (qbuf + QuotedLabel(Behind(buf, i)))
  {
    hide Octal, Unquoted, QuotedLabel;
    i := at;
    assert buf[at..i] == [];
    while i < |buf|
      invariant at <= i <= |buf|
      invariant QuotedLabel(buf[at..]) == buf[at..i] + QuotedLabel(buf[i..])
    {
      var ch := buf[i];
      QuotedFrom(buf, i);
      if ch <= 32 || ch >= 127 {
        qbuf := Octal(ch);
        return;
      } else if !Unquoted(ch) {
        qbuf := [BACKSLASH, ch];
        return;
      }
      assert buf[at..i + 1] == buf[at..i] + [ch];
      i := i + 1;
    }
    qbuf := [];
    assert buf[i..] == Behind(buf, i);
  }

  lemma QuotedFrom(buf: Label, i: nat)
    requires i < |buf|
    ensures QuotedLabel(buf[i..]) == Quoted(buf[i]) + QuotedLabel(buf[i + 1..])
  {
    hide Quoted;
    assert buf[i..][1..] == buf[i + 1..];
  }

  /** vbuf__append_quoted1035: runs of unquoted bytes, each followed by one quoted byte. */
  method AppendQuoted(vb: seq<Byte>, buf: Label) returns (r: seq<Byte>)
    ensures r == vb + QuotedLabel(buf)
  {
    hide Quoted;
    r := vb;
    var at := 0;
    assert buf[at..] == buf;
    while at < |buf|
      invariant at <= |buf|
      invariant r + QuotedLabel(buf[at..]) == vb + QuotedLabel(buf)
    {
      var i, qbuf := FindQuoted(buf, at);
      r := r + buf[at..i] + qbuf;
      at := if i < |buf| then i + 1 else i;
      assert buf[at..] == Behind(buf, i);
    }
    assert buf[at..] == [];
  }

  // ---------- reading ----------

  function Decimal(a: int, b: int, c: int): int {
    (a - 48) * 100 + (b - 48) * 10 + (c - 48)
  }

  datatype Char = Char(c: Byte, rest: seq<Byte>) | BadChar

  /** One character of a label, with its quoting; the text is followed by a NUL. */
  function ReadChar(s: seq<Byte>, quoteok: bool): (r: Char)
    requires s != []
    ensures r.Char? ==> |r.rest| < |s|
  {
    if s[0] != BACKSLASH then Char(s[0], s[1..])
    else if !quoteok || |s| == 1 then BadChar
    else if IsDigit(s[1]) then
      if |s| > 3 && IsDigit(s[2]) && IsDigit(s[3]) then
        var v := Decimal(s[1], s[2], s[3]);
        if v >= 256 then BadChar else Char(v, s[4..])
      else BadChar
    else if s[1] == 0 then BadChar
    else Char(s[1], s[2..])
  }

  /** What may stand in a label of an unquoted name, after ll characters. */
  predicate HostChar(c: Byte, ll: nat) {
    if c == HYPHEN then ll > 0 else IsAlpha(c) || IsDigit(c)
  }

  datatype Scan = Scan(lab: Label, rest: seq<Byte>) | BadLabel

  /** The label at the front of s, after the characters acc. */
  function ReadLabel(s: seq<Byte>, acc: Label, quoteok: bool): (r: Scan)
    ensures r.Scan? ==> |r.rest| <= |s| && |acc| <= |r.lab| && |r.lab| + |r.rest| <= |acc| + |s|
    ensures r.Scan? && r.rest != [] ==> |r.lab| + |r.rest| < |acc| + |s|
    ensures r.Scan? && s != [] ==> |r.rest| < |s|
    decreases |s|
  {
    if s == [] then Scan(acc, [])
    else if s[0] == DOT then Scan(acc, s[1..])
    else
      match ReadChar(s, quoteok)
      case BadChar => BadLabel
      case Char(c, rest) =>
        if (!quoteok && !HostChar(c, |acc|)) || |acc| == 255 then BadLabel
        else ReadLabel(rest, acc + [c], quoteok)
  }

  datatype Parsed = Labels(ls: seq<Label>) | Invalid | NameTooLong

  function ReadName(s: seq<Byte>, nbytes: nat, quoteok: bool): Parsed
    decreases |s|
  {
    if s == [] then Labels([])
    else
      match ReadLabel(s, [], quoteok)
      case BadLabel => Invalid
      case Scan(l, rest) =>
        if l == [] then Invalid
        else if |l| > MAXLABEL || nbytes + |l| + 1 >= MAXDOMAIN then NameTooLong
        else
          match ReadName(rest, nbytes + |l| + 1, quoteok)
          case Labels(ls) => Labels([l] + ls)
          case e => e
  }

  /** The name in a datagram, without compression. */
  function Wire(ls: seq<Label>): seq<Byte>
    requires forall l :: l in ls ==> |l| <= MAXLABEL
  {
    if ls == [] then [0] else [|ls[0]|] + ls[0] + Wire(ls[1..])
  }

  predicate Legal(ls: seq<Label>) {
    (forall l :: l in ls ==> 0 < |l| <= MAXLABEL) && MoreLen(ls) + 1 <= MAXDOMAIN
  }

  /** Whatever text is accepted is a legal name; the buffer reserved for it is large enough. */
  lemma {:induction false} ReadNameIsLegal(s: seq<Byte>, nbytes: nat, quoteok: bool)
    requires ReadName(s, nbytes, quoteok).Labels? && nbytes < MAXDOMAIN
    ensures var ls := ReadName(s, nbytes, quoteok).ls;
      (forall l :: l in ls ==> 0 < |l| <= MAXLABEL) && nbytes + MoreLen(ls) < MAXDOMAIN &&
      |Wire(ls)| <= |s| + 2 && (s == [] ==> |Wire(ls)| == 1)
    decreases |s|
  {
    hide ReadLabel;
    if s != [] {
      var r := ReadLabel(s, [], quoteok);
      ReadNameIsLegal(r.rest, nbytes + |r.lab| + 1, quoteok);
      var ls := ReadName(s, nbytes, quoteok).ls;
      assert ls[1..] == ReadName(r.rest, nbytes + |r.lab| + 1, quoteok).ls;
    }
  }

  // ---------- reading back what was written ----------

  /** The byte that the reader makes of a written byte: the three digits are octal when they
      are written and decimal when they are read. */
  function ReadBack(b: Byte): Option<Byte> {
    if b <= 32 || b >= 127 then
      var v := 100 * (b / 64) + 10 * (b / 8 % 8) + b % 8;
      if v >= 256 then None else Some(v)
    else Some(b)
  }

  lemma ReadBackIsIdentity(b: Byte)
    ensures ReadBack(b) == Some(b) <==> b < 8 || 33 <= b <= 126
  {
    var hi, mid, lo := b / 64, b / 8 % 8, b % 8;
    assert b == 64 * hi + 8 * mid + lo;
  }

  function ReadBackLabel(l: Label): Option<Label> {
    if l == [] then Some([])
    else
      match ReadBack(l[0])
      case None => None
      case Some(c) =>
        match ReadBackLabel(l[1..])
        case None => None
        case Some(cs) => Some([c] + cs)
  }

  lemma QuotedIsRead(b: Byte, rest: seq<Byte>)
    ensures (Quoted(b) + rest)[0] != DOT
    ensures ReadChar(Quoted(b) + rest, true) ==
      if ReadBack(b).Some? then Char(ReadBack(b).value, rest) else BadChar
  {
    var s := Quoted(b) + rest;
    if b <= 32 || b >= 127 {
      assert s[4..] == rest;
      assert IsDigit(s[1]) && IsDigit(s[2]) && IsDigit(s[3]);
      assert Decimal(s[1], s[2], s[3]) == 100 * (b / 64) + 10 * (b / 8 % 8) + b % 8;
    } else if Unquoted(b) {
      assert s[1..] == rest;
    } else {
      assert s[2..] == rest;
    }
  }

  function AfterDot(rest: seq<Byte>): seq<Byte> {
    if rest == [] then [] else rest[1..]
  }

  lemma {:induction false} QuotedLabelIsRead(l: Label, acc: Label, rest: seq<Byte>)
    requires (rest == [] || rest[0] == DOT) && |acc| + |l| <= 255
    ensures ReadLabel(QuotedLabel(l) + rest, acc, true) ==
      if ReadBackLabel(l).Some? then Scan(acc + ReadBackLabel(l).value, AfterDot(rest)) else BadLabel
    decreases |l|
  {
    hide ReadChar, ReadBack, Quoted, HostChar;
    if l == [] {
      assert QuotedLabel(l) + rest == rest;
      assert acc + [] == acc;
    } else {
      var more := QuotedLabel(l[1..]) + rest;
      assert QuotedLabel(l) + rest == Quoted(l[0]) + more;
      QuotedIsRead(l[0], more);
      if ReadBack(l[0]).Some? {
        var c := ReadBack(l[0]).value;
        QuotedLabelIsRead(l[1..], acc + [c], rest);
        if ReadBackLabel(l[1..]).Some? {
          assert (acc + [c]) + ReadBackLabel(l[1..]).value == acc + ReadBackLabel(l).value;
        }
      }
    }
  }

  function ReadBackName(ls: seq<Label>): Option<seq<Label>> {
    if ls == [] then Some([])
    else
      match ReadBackLabel(ls[0])
      case None => None
      case Some(l) =>
        match ReadBackName(ls[1..])
        case None => None
        case Some(more) => Some([l] + more)
  }

  lemma {:induction false} ReadBackLength(l: Label)
    requires ReadBackLabel(l).Some?
    ensures |ReadBackLabel(l).value| == |l|
  {
    if l != [] {
      ReadBackLength(l[1..]);
    }
  }

  /** The first label of a written name. */
  lemma FirstLabelIsRead(ls: seq<Label>)
    requires ls != [] && 0 < |ls[0]| <= MAXLABEL
    ensures NameText(ls) != []
    ensures ReadLabel(NameText(ls), [], true) ==
      if ReadBackLabel(ls[0]).Some? then Scan(ReadBackLabel(ls[0]).value, NameText(ls[1..])) else BadLabel
    ensures ReadBackLabel(ls[0]).Some? ==> |ReadBackLabel(ls[0]).value| == |ls[0]|
  {
    hide ReadLabel, ReadBackLabel, QuotedLabel;
    var rest := if |ls| == 1 then [] else [DOT] + NameText(ls[1..]);
    assert NameText(ls) == QuotedLabel(ls[0]) + rest;
    assert AfterDot(rest) == NameText(ls[1..]);
    QuotedLabelNotEmpty(ls[0]);
    QuotedLabelIsRead(ls[0], [], rest);
    if ReadBackLabel(ls[0]).Some? {
      ReadBackLength(ls[0]);
      assert [] + ReadBackLabel(ls[0]).value == ReadBackLabel(ls[0]).value;
    }
  }

  /** What the reader makes of a written name. */
  lemma {:induction false} TextIsRead(ls: seq<Label>, nbytes: nat)
    requires (forall l :: l in ls ==> 0 < |l| <= MAXLABEL) && nbytes < MAXDOMAIN
    ensures var r := ReadName(NameText(ls), nbytes, true);
      if ReadBackName(ls).Some? && nbytes + MoreLen(ls) < MAXDOMAIN
      then r == Labels(ReadBackName(ls).value) else !r.Labels?
    decreases |ls|
  {
    hide ReadLabel, ReadBackLabel, NameText;
    if ls != [] {
      FirstLabelIsRead(ls);
      if ReadBackLabel(ls[0]).Some? && nbytes + |ls[0]| + 1 < MAXDOMAIN {
        TextIsRead(ls[1..], nbytes + |ls[0]| + 1);
      }
    } else {
      EmptyText();
    }
  }

  lemma EmptyText()
    ensures NameText([]) == []
  {
  }

  lemma QuotedLabelNotEmpty(l: Label)
    requires l != []
    ensures QuotedLabel(l) != []
  {
  }

  /** Reading back changes nothing exactly when every byte is below 8 or visible. */
  lemma {:induction false} ReadBackNameIsIdentity(ls: seq<Label>)
    ensures ReadBackName(ls) == Some(ls) <==> forall l :: l in ls ==> Faithful(l)
  {
    hide ReadBackLabel;
    if ls != [] {
      ReadBackNameIsIdentity(ls[1..]);
      ReadBackLabelIsIdentity(ls[0]);
      assert ls == [ls[0]] + ls[1..];
      if ReadBackName(ls).Some? {
        assert ReadBackName(ls).value[0] == ReadBackLabel(ls[0]).value;
        assert ReadBackName(ls).value[1..] == ReadBackName(ls[1..]).value;
      }
    }
  }

  lemma {:induction false} ReadBackLabelIsIdentity(l: Label)
    ensures ReadBackLabel(l) == Some(l) <==> Faithful(l)
  {
    hide ReadBack;
    if l != [] {
      ReadBackLabelIsIdentity(l[1..]);
      ReadBackIsIdentity(l[0]);
      assert l == [l[0]] + l[1..];
      FaithfulSplit(l);
      if ReadBackLabel(l).Some? {
        assert ReadBackLabel(l).value[0] == ReadBack(l[0]).value;
        assert ReadBackLabel(l).value[1..] == ReadBackLabel(l[1..]).value;
      }
    }
  }

  ghost predicate Faithful(l: Label) {
    forall k :: 0 <= k < |l| ==> l[k] < 8 || 33 <= l[k] <= 126
  }

  lemma FaithfulSplit(l: Label)
    requires l != []
    ensures Faithful(l) <==> (l[0] < 8 || 33 <= l[0] <= 126) && Faithful(l[1..])
  {
    assert forall k :: 0 < k < |l| ==> l[k] == l[1..][k - 1];
  }

  /** The text that parse_domain writes for a name is read back by mkquery as the same name
      exactly when the name is legal and all its bytes are below 8 or visible. */
  lemma TextRoundTrip(ls: seq<Label>)
    requires forall l :: l in ls ==> 0 < |l| <= MAXLABEL
    ensures ReadName(NameText(ls), 0, true) == Labels(ls) <==> Legal(ls) && forall l :: l in ls ==> Faithful(l)
  {
    hide ReadName, NameText, ReadBackName, MoreLen, Faithful;
    TextIsRead(ls, 0);
    ReadBackNameIsIdentity(ls);
  }

  lemma Inside(d: seq<Byte>, i: nat, a: seq<Byte>, b: seq<Byte>)
    requires i + |a| + |b| <= |d| && d[i..i + |a| + |b|] == a + b
    ensures d[i..i + |a|] == a && d[i + |a|..i + |a| + |b|] == b
  {
    var e := d[i..i + |a| + |b|];
    assert e[..|a|] == a && e[|a|..] == b;
  }

  lemma WireUnfolds(ls: seq<Label>)
    requires ls != [] && forall l :: l in ls ==> |l| <= MAXLABEL
    ensures Wire(ls) == [|ls[0]|] + (ls[0] + Wire(ls[1..]))
  {
  }

  lemma DenotesLabel(d: seq<Byte>, i: nat, ls: seq<Label>, n: nat)
    requires ls != [] && 0 < |ls[0]| <= MAXLABEL && i + 1 + |ls[0]| <= |d|
    requires d[i] == |ls[0]| && d[i + 1..i + 1 + |ls[0]|] == ls[0] && Denotes(d, i + 1 + |ls[0]|, ls[1..], n)
    ensures Denotes(d, i, ls, n + 1) && EndOf(d, i) == EndOf(d, i + 1 + |ls[0]|)
  {
  }

  /** A name in a datagram begins with its first label. */
  lemma WireParts(d: seq<Byte>, i: nat, l: Label, w: seq<Byte>)
    requires |l| <= MAXLABEL && i + 1 + |l| + |w| <= |d| && d[i..i + 1 + |l| + |w|] == [|l|] + (l + w)
    ensures d[i] == |l| && d[i + 1..i + 1 + |l|] == l && d[i + 1 + |l|..i + 1 + |l| + |w|] == w
  {
    Inside(d, i, [|l|], l + w);
    Inside(d, i + 1, l, w);
    SliceOfOne(d, i);
  }

  lemma RootDenotes(d: seq<Byte>, i: nat)
    requires i + |Wire([])| <= |d| && d[i..i + |Wire([])|] == Wire([])
    ensures Denotes(d, i, [], 0) && EndOf(d, i) == i + |Wire([])|
  {
    SliceOfOne(d, i);
  }

  /** An uncompressed name denotes its labels wherever it stands in a datagram. */
  lemma {:induction false} WireDenotes(d: seq<Byte>, i: nat, ls: seq<Label>)
    requires forall l :: l in ls ==> 0 < |l| <= MAXLABEL
    requires i + |Wire(ls)| <= |d| && d[i..i + |Wire(ls)|] == Wire(ls)
    ensures Denotes(d, i, ls, |ls|) && EndOf(d, i) == i + |Wire(ls)|
    decreases |ls|
  {
    hide Denotes, EndOf, Wire;
    if ls == [] {
      RootDenotes(d, i);
    } else {
      WireUnfolds(ls);
      WireParts(d, i, ls[0], Wire(ls[1..]));
      WireDenotes(d, i + 1 + |ls[0]|, ls[1..]);
      DenotesLabel(d, i, ls, |ls| - 1);
    }
  }

  lemma TextWithin(ls: seq<Label>)
    ensures TextLen(ls) <= MoreLen(ls)
  {
  }

  /** The question that mkquery writes is decoded to the labels of its text. */
  lemma QuestionDecodes(d: seq<Byte>, i: nat, owner: seq<Byte>, quoteok: bool)
    requires ReadName(owner, 0, quoteok).Labels?
    ensures forall l :: l in ReadName(owner, 0, quoteok).ls ==> |l| <= MAXLABEL
    ensures var ls := ReadName(owner, 0, quoteok).ls; var w := Wire(ls);
      i + |w| <= |d| && d[i..i + |w|] == w ==> Decodes(d, i, |d|, ls, i + |w|)
  {
    hide ReadName, Wire, Decodes, Denotes, EndOf, MoreLen, TextLen;
    ReadNameIsLegal(owner, 0, quoteok);
    var ls := ReadName(owner, 0, quoteok).ls;
    TextWithin(ls);
    if i + |Wire(ls)| <= |d| && d[i..i + |Wire(ls)|] == Wire(ls) {
      WireDenotes(d, i, ls);
      DecodingIsExact(d, i, |d|, ls, i + |Wire(ls)|);
    }
  }
}
