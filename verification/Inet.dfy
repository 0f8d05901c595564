/** Presentation format of IPv6 addresses: inet_ntop6 and inet_pton6. */
module Inet {
  import opened Common

  type Word = x: int | 0 <= x < 0x10000

  // ---------- numbers as text ----------

  function HexChar(d: nat): char
    requires d < 16
  {
    if d < 10 then '0' + d as char else 'a' + (d - 10) as char
  }

  /** "%x" */
  function Hex(v: nat): (s: string)
    ensures s != []
  {
    if v < 16 then [HexChar(v)] else Hex(v / 16) + [HexChar(v % 16)]
  }

  /** "%u" */
  function Dec(n: nat): (s: string)
    ensures s != []
  {
    if n < 10 then [HexChar(n)] else Dec(n / 10) + [HexChar(n % 10)]
  }

  /** tolower, then the position in xdigits */
  function HexVal(ch: char): (r: Option<nat>)
    ensures r.Some? ==> r.value < 16
  {
    if '0' <= ch <= '9' then Some((ch - '0') as nat)
    else if 'a' <= ch <= 'f' then Some((ch - 'a') as nat + 10)
    else if 'A' <= ch <= 'F' then Some((ch - 'A') as nat + 10)
    else None
  }

  lemma HexCharVal(d: nat)
    requires d < 16
    ensures HexVal(HexChar(d)) == Some(d)
    ensures d < 10 ==> '0' <= HexChar(d) <= '9' && (HexChar(d) - '0') as nat == d
    ensures HexChar(d) != ':' && HexChar(d) != '.'
  {
  }

  // ---------- reading ----------

  predicate IsDigit(ch: char) {
    '0' <= ch <= '9'
  }

  /** The loop of inet_pton4: the octets finished, and the one being read. */
  function Loop4(s: string, done: seq<Byte>, cur: Byte, saw: bool): Option<seq<Byte>> {
    if s == [] then (if |done| + (if saw then 1 else 0) < 4 then None else Some(done + [cur]))
    else if IsDigit(s[0]) then
      var octet := Times10(cur) + (s[0] - '0') as nat;
      if octet > 255 || (!saw && |done| >= 4) then None else Loop4(s[1..], done, octet, true)
    else if s[0] == '.' && saw then
      if |done| == 3 then None else Loop4(s[1..], done + [cur], 0, false)
    else None
  }

  function Times10(b: int): int {
    b * 10
  }

  function Parse4(s: string): Option<seq<Byte>> {
    Loop4(s, [], 0, false)
  }

  /** The state of inet_pton6: the bytes up to tp, colonp, the group being read and where it began. */
  datatype St = St(out: seq<Byte>, colon: Option<nat>, saw: bool, val: nat, tok: string)

  function BytesOf(v: nat): (r: seq<Byte>)
    requires v < 0x10000
    ensures |r| == 2
  {
    [v / 256, v % 256]
  }

  /** The loop of inet_pton6; None where it returns 0. */
  function Loop6(s: string, st: St): (r: Option<St>)
    requires st.val < 0x10000 && |st.out| <= 16 && (st.colon.Some? ==> st.colon.value <= |st.out|)
    ensures r.Some? ==> r.value.val < 0x10000 && |r.value.out| <= 16
    ensures r.Some? && r.value.colon.Some? ==> r.value.colon.value <= |r.value.out|
    decreases |s|
  {
    if s == [] then Some(st)
    else
      var ch, rest := s[0], s[1..];
      if HexVal(ch).Some? then
        var v := st.val * 16 + HexVal(ch).value;
        if v > 0xffff then None else Loop6(rest, st.(saw := true, val := v))
      else if ch == ':' then
        if !st.saw then
          if st.colon.Some? then None else Loop6(rest, st.(colon := Some(|st.out|), tok := rest))
        else if rest == [] || |st.out| + 2 > 16 then None
        else Loop6(rest, St(st.out + BytesOf(st.val), st.colon, false, 0, rest))
      else if ch == '.' && |st.out| + 4 <= 16 then Quad(st)
      else None
  }

  /** A dotted quad from the beginning of the group ends the text. */
  function Quad(st: St): (r: Option<St>)
    requires |st.out| + 4 <= 16
    ensures r.Some? ==> |r.value.out| <= 16
  {
    match Parse4(st.tok)
    case None => None
    case Some(q) => if |q| == 4 then Some(st.(out := st.out + q, saw := false)) else None
  }

  function Zeros(n: nat): (z: seq<Byte>)
    ensures |z| == n && forall k :: 0 <= k < n ==> z[k] == 0
  {
    seq(n, _ => 0)
  }

  /** After the loop: the last group, and the shift that "::" asks for. */
  function Finish6(st: St): Option<seq<Byte>>
    requires st.val < 0x10000 && |st.out| <= 16 && (st.colon.Some? ==> st.colon.value <= |st.out|)
  {
    if st.saw && |st.out| + 2 > 16 then None
    else
      var out := if st.saw then st.out + BytesOf(st.val) else st.out;
      if st.colon == None then (if |out| == 16 then Some(out) else None)
      else if |out| == 16 then None
      else Some(out[..st.colon.value] + Zeros(16 - |out|) + out[st.colon.value..])
  }

  function Body6(s: string): Option<seq<Byte>> {
    var st := Loop6(s, St([], None, false, 0, s));
    if st == None then None else Finish6(st.value)
  }

  function Parse6(s: string): Option<seq<Byte>> {
    if s != [] && s[0] == ':' then
      if |s| < 2 || s[1] != ':' then None else Body6(s[1..])
    else Body6(s)
  }

  // ---------- writing ----------

  /** Each word followed by a colon. */
  function Pre(ws: seq<Word>): string {
    if ws == [] then [] else Hex(ws[0]) + ":" + Pre(ws[1..])
  }

  /** The words with a colon between them. */
  function Joined(ws: seq<Word>): string {
    if ws == [] then [] else Pre(ws[..|ws| - 1]) + Hex(ws[|ws| - 1])
  }

  function QuadText(q: seq<Byte>): string
    requires |q| == 4
  {
    Dec(q[0]) + "." + Dec(q[1]) + "." + Dec(q[2]) + "." + Dec(q[3])
  }

  function AllBytes(ws: seq<Word>): (r: seq<Byte>)
    ensures |r| == 2 * |ws|
  {
    if ws == [] then [] else BytesOf(ws[0]) + AllBytes(ws[1..])
  }

  /** The run of zero words that is left out, if any: its first word and its length. */
  datatype Run = NoRun | Run(base: nat, len: nat)

  predicate ZeroRun(ws: seq<Word>, base: nat, len: nat) {
    base + len <= |ws| && forall k :: base <= k < base + len ==> ws[k] == 0
  }

  predicate GoodRun(ws: seq<Word>, r: Run) {
    r.Run? ==> r.len >= 2 && ZeroRun(ws, r.base, r.len)
  }

  /** Is this address an encapsulated IPv4? */
  predicate Embedded(ws: seq<Word>, r: Run)
    requires |ws| == 8
  {
    r.Run? && r.base == 0 && (r.len == 6 || (r.len == 5 && ws[5] == 0xffff))
  }

  /** What follows the "::". */
  function Tail(ws: seq<Word>, r: Run): string
    requires |ws| == 8 && r.Run? && r.base + r.len <= 8
  {
    if Embedded(ws, r) then Pre(ws[r.len..6]) + QuadText(AllBytes(ws[6..])) else Joined(ws[r.base + r.len..])
  }

  function Print6(ws: seq<Word>, r: Run): string
    requires |ws| == 8 && GoodRun(ws, r)
  {
    if r == NoRun then Joined(ws)
    else (if r.base == 0 then ":" else Pre(ws[..r.base])) + ":" + Tail(ws, r)
  }

  // ---------- reading back what was written ----------

  predicate StOk(st: St) {
    st.val < 0x10000 && |st.out| <= 16 && (st.colon.Some? ==> st.colon.value <= |st.out|)
  }

  lemma {:induction false} HexIsRead(v: nat, rest: string, st: St)
    requires v < 0x10000 && StOk(st) && st.val == 0
    ensures Loop6(Hex(v) + rest, st) == Loop6(rest, st.(saw := true, val := v))
    decreases v
  {
    if v < 16 {
      HexCharVal(v);
      assert (Hex(v) + rest)[1..] == rest;
    } else {
      var c := HexChar(v % 16);
      HexCharVal(v % 16);
      assert Hex(v) + rest == Hex(v / 16) + ([c] + rest);
      HexIsRead(v / 16, [c] + rest, st);
      assert ([c] + rest)[1..] == rest;
    }
  }

  /** The value that decimal digits have when they are read as hexadecimal ones. */
  function AsHex(n: nat): nat {
    if n < 10 then n else AsHex(n / 10) * 16 + n % 10
  }

  lemma AsHexBound(n: nat)
    requires n < 1000
    ensures AsHex(n) < 0x10000
  {
    assert AsHex(n / 100) < 16;
    assert AsHex(n / 10) < 256;
  }

  lemma {:induction false} DecIsReadAsHex(n: nat, rest: string, st: St)
    requires n < 1000 && StOk(st) && st.val == 0
    ensures AsHex(n) < 0x10000
    ensures Loop6(Dec(n) + rest, st) == Loop6(rest, st.(saw := true, val := AsHex(n)))
    decreases n
  {
    AsHexBound(n);
    if n < 10 {
      HexCharVal(n);
      assert (Dec(n) + rest)[1..] == rest;
    } else {
      var c := HexChar(n % 10);
      HexCharVal(n % 10);
      assert Dec(n) + rest == Dec(n / 10) + ([c] + rest);
      DecIsReadAsHex(n / 10, [c] + rest, st);
      assert ([c] + rest)[1..] == rest;
    }
  }

  lemma {:induction false} DecIsRead(n: nat, rest: string, done: seq<Byte>)
    requires n < 256 && |done| < 4
    ensures Loop4(Dec(n) + rest, done, 0, false) == Loop4(rest, done, n, true)
    decreases n
  {
    if n < 10 {
      HexCharVal(n);
      assert (Dec(n) + rest)[1..] == rest;
    } else {
      var c := HexChar(n % 10);
      HexCharVal(n % 10);
      assert Dec(n) + rest == Dec(n / 10) + ([c] + rest);
      DecIsRead(n / 10, [c] + rest, done);
      assert ([c] + rest)[1..] == rest;
    }
  }

  lemma DotIsRead(n: nat, rest: string, done: seq<Byte>)
    requires n < 256 && |done| < 3
    ensures Loop4(Dec(n) + ("." + rest), done, 0, false) == Loop4(rest, done + [n], 0, false)
  {
    DecIsRead(n, "." + rest, done);
    assert ("." + rest)[1..] == rest;
  }

  lemma QuadIsRead(q: seq<Byte>)
    requires |q| == 4
    ensures Parse4(QuadText(q)) == Some(q)
  {
    hide Loop4, Dec;
    var d := Dec(q[3]);
    var c := Dec(q[2]) + ("." + d);
    var b := Dec(q[1]) + ("." + c);
    assert QuadText(q) == Dec(q[0]) + ("." + b);
    DotIsRead(q[0], b, []);
    DotIsRead(q[1], c, [q[0]]);
    DotIsRead(q[2], d, [q[0], q[1]]);
    assert [] + [q[0]] == [q[0]] && [q[0]] + [q[1]] == [q[0], q[1]] && [q[0], q[1]] + [q[2]] == [q[0], q[1], q[2]];
    DecIsRead(q[3], [], [q[0], q[1], q[2]]);
    assert d + [] == d;
    Loop4Ends([q[0], q[1], q[2]], q[3]);
    assert [q[0], q[1], q[2]] + [q[3]] == q;
  }

  lemma Loop4Ends(done: seq<Byte>, cur: Byte)
    requires |done| == 3
    ensures Loop4([], done, cur, true) == Some(done + [cur])
  {
  }

  /** A word and the colon behind it. */
  lemma GroupIsRead(w: Word, rest: string, st: St)
    requires StOk(st) && !st.saw && st.val == 0 && |st.out| + 2 <= 16 && rest != []
    ensures Loop6(Hex(w) + (":" + rest), st) == Loop6(rest, St(st.out + BytesOf(w), st.colon, false, 0, rest))
  {
    hide Hex;
    HexIsRead(w, ":" + rest, st);
    assert (":" + rest)[1..] == rest;
  }

  lemma PreUnfolds(ws: seq<Word>, rest: string)
    requires ws != []
    ensures Pre(ws) + rest == Hex(ws[0]) + (":" + (Pre(ws[1..]) + rest))
    ensures ws[1..] == [] ==> Pre(ws[1..]) + rest == rest
  {
    hide Hex;
  }

  lemma BytesUnfold(out: seq<Byte>, ws: seq<Word>)
    requires ws != []
    ensures (out + BytesOf(ws[0])) + AllBytes(ws[1..]) == out + AllBytes(ws)
  {
    hide BytesOf;
  }

  lemma NoWords(out: seq<Byte>, rest: string)
    ensures Pre([]) + rest == rest && out + AllBytes([]) == out
  {
  }

  /** Words each followed by a colon, before more text. */
  lemma {:induction false} PreIsRead(ws: seq<Word>, rest: string, st: St)
    requires StOk(st) && !st.saw && st.val == 0 && |st.out| + 2 * |ws| <= 16 && rest != []
    ensures Loop6(Pre(ws) + rest, st) ==
      Loop6(rest, St(st.out + AllBytes(ws), st.colon, false, 0, if ws == [] then st.tok else rest))
    decreases |ws|
  {
    hide Hex, Loop6, BytesOf, Pre, AllBytes;
    if ws == [] {
      NoWords(st.out, rest);
    } else {
      var more := Pre(ws[1..]) + rest;
      PreUnfolds(ws, rest);
      BytesUnfold(st.out, ws);
      GroupIsRead(ws[0], more, st);
      PreIsRead(ws[1..], rest, St(st.out + BytesOf(ws[0]), st.colon, false, 0, more));
    }
  }

  /** The last word of the text. */
  lemma LastIsRead(w: Word, st: St)
    requires StOk(st) && !st.saw && st.val == 0 && |st.out| + 2 <= 16
    ensures Loop6(Hex(w), st).Some?
    ensures Finish6(Loop6(Hex(w), st).value) == Finish6(st.(out := st.out + BytesOf(w)))
  {
    hide Hex;
    HexIsRead(w, [], st);
    assert Hex(w) + [] == Hex(w);
  }

  /** Words with colons between them, up to the end of the text. */
  lemma JoinedIsRead(ws: seq<Word>, st: St)
    requires StOk(st) && !st.saw && st.val == 0 && |st.out| + 2 * |ws| <= 16
    ensures Loop6(Joined(ws), st).Some?
    ensures Finish6(Loop6(Joined(ws), st).value) == Finish6(st.(out := st.out + AllBytes(ws)))
  {
    if ws == [] {
      assert st.out + [] == st.out;
    } else {
      hide Hex, Pre, Loop6, Finish6, BytesOf, AllBytes;
      var m := |ws| - 1;
      PreIsRead(ws[..m], Hex(ws[m]), st);
      var st1 := St(st.out + AllBytes(ws[..m]), st.colon, false, 0, if m == 0 then st.tok else Hex(ws[m]));
      LastIsRead(ws[m], st1);
      LastBytesOf(st.out, ws);
      FinishIgnoresTok(st.(out := st.out + AllBytes(ws)), st1.tok);
    }
  }

  lemma LastBytesOf(out: seq<Byte>, ws: seq<Word>)
    requires ws != []
    ensures (out + AllBytes(ws[..|ws| - 1])) + BytesOf(ws[|ws| - 1]) == out + AllBytes(ws)
  {
    hide BytesOf, AllBytes;
    var m := |ws| - 1;
    AllBytesSplit(ws, m);
    LastAlone(ws);
    OneWord(ws[m]);
    Assoc(out, AllBytes(ws[..m]), BytesOf(ws[m]));
  }

  lemma OneWord(w: Word)
    ensures AllBytes([w]) == BytesOf(w)
  {
    hide BytesOf;
    assert [w][1..] == [];
  }

  lemma FinishIgnoresTok(st: St, tok: string)
    requires StOk(st)
    ensures Finish6(st) == Finish6(st.(tok := tok))
  {
  }

  lemma {:induction false} AllBytesSplit(ws: seq<Word>, m: nat)
    requires m <= |ws|
    ensures AllBytes(ws) == AllBytes(ws[..m]) + AllBytes(ws[m..])
    decreases m
  {
    if m > 0 {
      AllBytesSplit(ws[1..], m - 1);
      assert ws[1..][..m - 1] == ws[..m][1..] && ws[1..][m - 1..] == ws[m..];
    } else {
      assert ws[..0] == [] && ws[0..] == ws;
    }
  }

  lemma QuadEnds(q: seq<Byte>, st: St)
    requires |q| == 4 && StOk(st) && !st.saw && st.val == 0 && |st.out| + 4 <= 16 && st.tok == QuadText(q)
    ensures Loop6(QuadText(q), st).Some?
    ensures Finish6(Loop6(QuadText(q), st).value) == Finish6(st.(out := st.out + q))
  {
    var more := Dec(q[1]) + "." + Dec(q[2]) + "." + Dec(q[3]);
    assert QuadText(q) == Dec(q[0]) + ("." + more);
    DecIsReadAsHex(q[0], "." + more, st);
    QuadIsRead(q);
  }

  /** What follows "::" adds the bytes of the words that follow the run. */
  lemma EmbeddedIsRead(ws: seq<Word>, r: Run, st: St)
    requires |ws| == 8 && Embedded(ws, r)
    requires StOk(st) && !st.saw && st.val == 0 && st.out == [] && st.tok == Tail(ws, r)
    ensures Loop6(Tail(ws, r), st).Some?
    ensures Finish6(Loop6(Tail(ws, r), st).value) == Finish6(st.(out := st.out + AllBytes(ws[r.base + r.len..])))
  {
    hide Pre, Loop6, Finish6, QuadText, AllBytes, Joined;
    var q := AllBytes(ws[6..]);
    QuadNotEmpty(q);
    PreIsRead(ws[r.len..6], QuadText(q), st);
    PreNone();
    assert r.base == 0 && [] + QuadText(q) == QuadText(q);
    assert ws[r.len..6] == [] ==> st.tok == QuadText(q);
    var st1 := St(st.out + AllBytes(ws[r.len..6]), st.colon, false, 0, QuadText(q));
    assert Loop6(Tail(ws, r), st) == Loop6(QuadText(q), st1);
    QuadEnds(q, st1);
    AllBytesSplit(ws[r.len..], 6 - r.len);
    assert ws[r.len..][..6 - r.len] == ws[r.len..6] && ws[r.len..][6 - r.len..] == ws[6..];
    assert st1.out + q == st.out + AllBytes(ws[r.len..]);
    FinishIgnoresTok(st.(out := st.out + AllBytes(ws[r.len..])), st1.tok);
  }

  lemma TailIsRead(ws: seq<Word>, r: Run, st: St)
    requires |ws| == 8 && r.Run? && GoodRun(ws, r)
    requires StOk(st) && !st.saw && st.val == 0 && |st.out| == 2 * r.base && st.tok == Tail(ws, r)
    ensures Loop6(Tail(ws, r), st).Some?
    ensures Finish6(Loop6(Tail(ws, r), st).value) == Finish6(st.(out := st.out + AllBytes(ws[r.base + r.len..])))
  {
    hide Loop6, Finish6, AllBytes, Pre, QuadText, Joined;
    if Embedded(ws, r) {
      EmbeddedIsRead(ws, r, st);
    } else {
      JoinedIsRead(ws[r.base + r.len..], st);
    }
  }

  lemma QuadNotEmpty(q: seq<Byte>)
    requires |q| == 4
    ensures QuadText(q) != []
  {
  }

  lemma PreNone()
    ensures Pre([]) == []
  {
  }

  lemma {:induction false} ZerosOfRun(ws: seq<Word>)
    requires forall k :: 0 <= k < |ws| ==> ws[k] == 0
    ensures AllBytes(ws) == Zeros(2 * |ws|)
  {
    if ws != [] {
      ZerosOfRun(ws[1..]);
    }
  }

  /** Reading undoes writing, whichever run of zero words is left out. */
  lemma WordsRoundTrip(ws: seq<Word>, r: Run)
    requires |ws| == 8 && GoodRun(ws, r)
    ensures Parse6(Print6(ws, r)) == Some(AllBytes(ws))
  {
    hide Pre, Loop6, Finish6, Tail, AllBytes, Joined;
    if r == NoRun {
      JoinedIsRead(ws, St([], None, false, 0, Joined(ws)));
      JoinedBegins(ws);
      assert [] + AllBytes(ws) == AllBytes(ws);
      FinishFull(ws, Joined(ws));
    } else {
      RunRoundTrip(ws, r);
    }
  }

  lemma JoinedBegins(ws: seq<Word>)
    requires ws != []
    ensures Joined(ws) != [] && Joined(ws)[0] != ':'
    ensures Pre(ws) != [] && Pre(ws)[0] != ':'
  {
    HexBegins(ws[0]);
    HexBegins(ws[|ws| - 1]);
  }

  lemma {:induction false} HexBegins(v: nat)
    ensures Hex(v)[0] != ':'
  {
    if v < 16 {
      HexCharVal(v);
    } else {
      HexBegins(v / 16);
    }
  }

  lemma FinishFull(ws: seq<Word>, tok: string)
    requires |ws| == 8
    ensures Finish6(St(AllBytes(ws), None, false, 0, tok)) == Some(AllBytes(ws))
  {
  }

  lemma RunRoundTrip(ws: seq<Word>, r: Run)
    requires |ws| == 8 && r.Run? && GoodRun(ws, r)
    ensures Parse6(Print6(ws, r)) == Some(AllBytes(ws))
  {
    hide Pre, Loop6, Finish6, Tail, AllBytes;
    var pre, tail := ws[..r.base], Tail(ws, r);
    var body := Pre(pre) + (":" + tail);
    PreNone();
    if r.base == 0 {
      assert Print6(ws, r) == ":" + body && (":" + body)[1..] == body;
    } else {
      JoinedBegins(pre);
      assert Print6(ws, r) == body;
    }
    PreIsRead(pre, ":" + tail, St([], None, false, 0, body));
    var st := St([] + AllBytes(pre), None, false, 0, if pre == [] then body else ":" + tail);
    ColonIsRead(tail, st);
    var st1 := st.(colon := Some(|st.out|), tok := tail);
    TailIsRead(ws, r, st1);
    Filled(ws, r, st1);
  }

  lemma ColonIsRead(tail: string, st: St)
    requires StOk(st) && !st.saw && st.colon == None
    ensures Loop6(":" + tail, st) == Loop6(tail, st.(colon := Some(|st.out|), tok := tail))
  {
    assert (":" + tail)[1..] == tail;
  }

  lemma Filled(ws: seq<Word>, r: Run, st: St)
    requires |ws| == 8 && r.Run? && GoodRun(ws, r)
    requires st.out == AllBytes(ws[..r.base]) && st.colon == Some(|st.out|) && !st.saw && st.val == 0
    ensures Finish6(st.(out := st.out + AllBytes(ws[r.base + r.len..]))) == Some(AllBytes(ws))
  {
    hide AllBytes;
    var post := AllBytes(ws[r.base + r.len..]);
    AllBytesSplit(ws, r.base);
    AllBytesSplit(ws[r.base..], r.len);
    assert ws[r.base..][r.len..] == ws[r.base + r.len..];
    ZerosOfRun(ws[r.base..][..r.len]);
    assert (st.out + post)[..|st.out|] == st.out && (st.out + post)[|st.out|..] == post;
    assert 16 - |st.out + post| == 2 * r.len;
    assert st.out + (Zeros(2 * r.len) + post) == st.out + Zeros(2 * r.len) + post;
  }
}
