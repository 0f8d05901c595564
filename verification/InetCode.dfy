/** inet_ntop6, inet_pton4 and inet_pton6 as the loops they are. */
module InetCode {
  import opened Common
  import opened Inet

  // ---------- inet_ntop6 ----------

  function WordAt(a: seq<Byte>, i: nat): Word
    requires 2 * i + 1 < |a|
  {
    var high: int := a[2 * i];
    high * 256 + a[2 * i + 1]
  }

  function WordsOf(a: seq<Byte>): seq<Word>
    requires |a| == 16
  {
    seq(8, i requires 0 <= i < 8 => WordAt(a, i))
  }

  lemma BytesOfWords(a: seq<Byte>)
    requires |a| == 16
    ensures AllBytes(WordsOf(a)) == a
  {
    FromWord(a, WordsOf(a), 0);
  }

  lemma {:induction false} FromWord(a: seq<Byte>, ws: seq<Word>, i: nat)
    requires |a| == 16 && ws == WordsOf(a) && i <= 8
    ensures AllBytes(ws[i..]) == a[2 * i..]
    decreases 8 - i
  {
    if i < 8 {
      FromWord(a, ws, i + 1);
      assert ws[i..][0] == WordAt(a, i) && ws[i..][1..] == ws[i + 1..];
      assert BytesOf(ws[i]) == a[2 * i..2 * i + 2];
      assert a[2 * i..] == a[2 * i..2 * i + 2] + a[2 * i + 2..];
    }
  }

  /** r is the longest run of at least two zero words, and the first of that length. */
  ghost predicate Longest(ws: seq<Word>, r: Run) {
    forall b: nat, l: nat :: ZeroRun(ws, b, l) && l >= 2 ==> r.Run? && (l < r.len || (l == r.len && r.base <= b))
  }

  /** best covers the runs that end before position n. */
  ghost predicate Covers(ws: seq<Word>, best: Run, n: nat) {
    forall b: nat, l: nat :: ZeroRun(ws, b, l) && l >= 1 && b + l <= n ==>
      best.Run? && (l < best.len || (l == best.len && best.base <= b))
  }

  function Better(best: Run, cur: Run): Run {
    if cur.Run? && (best == NoRun || cur.len > best.len) then cur else best
  }

  lemma BetterCovers(ws: seq<Word>, best: Run, cur: Run, n: nat)
    requires cur.Run? && ZeroRun(ws, cur.base, cur.len) && cur.base + cur.len == n <= |ws| && cur.len >= 1
    requires cur.base > 0 ==> ws[cur.base - 1] != 0
    requires Covers(ws, best, cur.base) && (best.Run? ==> best.base <= cur.base)
    ensures Covers(ws, Better(best, cur), n)
  {
    forall b: nat, l: nat | ZeroRun(ws, b, l) && l >= 1 && b + l <= n && b + l > cur.base ensures b >= cur.base {
    }
  }

  /** The search for the run to leave out. */
  method FindRun(ws: seq<Word>) returns (best: Run)
    requires |ws| == 8
    ensures GoodRun(ws, best) && Longest(ws, best)
  {
    hide Longest, Covers;
    best := NoRun;
    var cur := NoRun;
    NoRunCovers(ws);
    for i := 0 to 8
      invariant best.Run? ==> ZeroRun(ws, best.base, best.len) && best.len >= 1
      invariant best.Run? ==> best.base <= if cur == NoRun then i else cur.base
      invariant cur.Run? ==> ZeroRun(ws, cur.base, cur.len) && cur.base + cur.len == i && cur.len >= 1
      invariant cur.Run? ==> cur.base > 0 ==> ws[cur.base - 1] != 0
      invariant cur == NoRun ==> i > 0 ==> ws[i - 1] != 0
      invariant Covers(ws, best, if cur == NoRun then i else cur.base)
    {
      if ws[i] == 0 {
        if cur == NoRun {
          cur := Run(i, 1);
        } else {
          cur := Run(cur.base, cur.len + 1);
        }
      } else {
        if cur != NoRun {
          BetterCovers(ws, best, cur, i);
          best := Better(best, cur);
          cur := NoRun;
        }
        CoversNext(ws, best, i);
      }
    }
    if cur != NoRun {
      BetterCovers(ws, best, cur, 8);
      best := Better(best, cur);
    }
    CoversAll(ws, best);
    if best.Run? && best.len < 2 {
      best := NoRun;
    }
  }

  lemma NoRunCovers(ws: seq<Word>)
    ensures Covers(ws, NoRun, 0)
  {
  }

  lemma CoversNext(ws: seq<Word>, best: Run, i: nat)
    requires Covers(ws, best, i) && i < |ws| && ws[i] != 0
    ensures Covers(ws, best, i + 1)
  {
    forall b: nat, l: nat | ZeroRun(ws, b, l) && l >= 1 && b + l <= i + 1 ensures b + l <= i {
    }
  }

  lemma CoversAll(ws: seq<Word>, best: Run)
    requires Covers(ws, best, |ws|)
    ensures Longest(ws, if best.Run? && best.len < 2 then NoRun else best)
  {
  }

  /** Each word with a colon before it. */
  function Lead(ws: seq<Word>): string {
    if ws == [] then [] else Lead(ws[..|ws| - 1]) + ":" + Hex(ws[|ws| - 1])
  }

  lemma {:induction false} PreGrows(ws: seq<Word>, w: Word)
    ensures Pre(ws + [w]) == Pre(ws) + Hex(w) + ":"
  {
    hide Hex;
    if ws == [] {
      assert ws + [w] == [w] && [w][1..] == [];
    } else {
      assert (ws + [w])[1..] == ws[1..] + [w];
      PreGrows(ws[1..], w);
    }
  }

  lemma PreIsJoined(ws: seq<Word>)
    requires ws != []
    ensures Pre(ws) == Joined(ws) + ":"
  {
    hide Hex, Pre;
    var m := |ws| - 1;
    assert ws == ws[..m] + [ws[m]];
    PreGrows(ws[..m], ws[m]);
  }

  lemma LastOfJoined(ws: seq<Word>)
    requires ws != []
    ensures Joined(ws) == Pre(ws[..|ws| - 1]) + Hex(ws[|ws| - 1])
  {
  }

  lemma {:induction false} LeadIsJoined(ws: seq<Word>)
    requires ws != []
    ensures Lead(ws) == ":" + Joined(ws)
  {
    hide Hex, Pre, Joined;
    var m := |ws| - 1;
    LastOfJoined(ws);
    if m > 0 {
      LeadIsJoined(ws[..m]);
      PreIsJoined(ws[..m]);
      Assoc(":", Joined(ws[..m]) + ":", Hex(ws[m]));
      Assoc(":", Joined(ws[..m]), ":");
    } else {
      PreNone();
      assert ws[..m] == [];
      assert Lead(ws[..m]) + ":" + Hex(ws[m]) == ":" + Hex(ws[m]);
    }
  }

  /** What has been written before word i. */
  function Written(ws: seq<Word>, r: Run, i: nat): string
    requires |ws| == 8 && i <= 8 && (r.Run? ==> r.base + r.len <= 8)
  {
    if r == NoRun || i <= r.base then Joined(ws[..i])
    else if i <= r.base + r.len then Joined(ws[..r.base]) + ":"
    else Joined(ws[..r.base]) + ":" + Lead(ws[r.base + r.len..i])
  }

  lemma WordIsWritten(ws: seq<Word>, r: Run, i: nat)
    requires |ws| == 8 && i < 8 && GoodRun(ws, r) && (r.Run? ==> i < r.base || i >= r.base + r.len)
    ensures Written(ws, r, i + 1) == Written(ws, r, i) + (if i != 0 then ":" else "") + Hex(ws[i])
  {
    hide Hex, Pre, Joined, Lead;
    if r == NoRun || i < r.base {
      JoinedGrows(ws, i);
    } else {
      LeadGrows(Joined(ws[..r.base]) + ":", ws, r.base + r.len, i);
    }
  }

  lemma JoinedGrows(ws: seq<Word>, i: nat)
    requires i < |ws|
    ensures Joined(ws[..i + 1]) == Joined(ws[..i]) + (if i != 0 then ":" else "") + Hex(ws[i])
  {
    hide Hex, Pre;
    assert ws[..i + 1][..i] == ws[..i];
    PreNone();
    if i > 0 {
      PreIsJoined(ws[..i]);
    }
  }

  lemma LeadGrows(text: string, ws: seq<Word>, k: nat, i: nat)
    requires k <= i < |ws|
    ensures text + Lead(ws[k..i + 1]) == (if i == k then text else text + Lead(ws[k..i])) + ":" + Hex(ws[i])
  {
    hide Hex;
    assert ws[k..i + 1][..i - k] == ws[k..i];
  }

  lemma HeadIsJoined(ws: seq<Word>)
    ensures (if ws == [] then ":" else Pre(ws)) == Joined(ws) + ":"
  {
    if ws == [] {
      JoinedNone();
    } else {
      PreIsJoined(ws);
    }
  }

  lemma PrintsAs(ws: seq<Word>, r: Run)
    requires |ws| == 8 && GoodRun(ws, r) && !Embedded(ws, r) && r.Run?
    ensures Print6(ws, r) == (Joined(ws[..r.base]) + ":") + ":" + Joined(ws[r.base + r.len..])
  {
    hide Pre, Joined, Embedded;
    HeadIsJoined(ws[..r.base]);
  }

  lemma WritesAs(ws: seq<Word>, r: Run)
    requires |ws| == 8 && GoodRun(ws, r) && r.Run?
    ensures Written(ws, r, 8) == Joined(ws[..r.base]) + ":" + (if r.base + r.len == 8 then "" else Lead(ws[r.base + r.len..]))
  {
    hide Lead, Joined;
    assert r.base + r.len < 8 ==> ws[r.base + r.len..8] == ws[r.base + r.len..];
  }

  lemma EndOfRun(ws: seq<Word>, r: Run)
    requires |ws| == 8 && GoodRun(ws, r) && !Embedded(ws, r) && r.Run?
    ensures Written(ws, r, 8) + (if r.base + r.len == 8 then ":" else "") == Print6(ws, r)
  {
    hide Hex, Pre, Lead, Joined, Embedded, Written, Print6;
    var j, t := Joined(ws[..r.base]), Joined(ws[r.base + r.len..]);
    WritesAs(ws, r);
    PrintsAs(ws, r);
    if r.base + r.len < 8 {
      LeadIsJoined(ws[r.base + r.len..]);
      Assoc(j + ":", ":", t);
    } else {
      JoinedNone();
      assert ws[r.base + r.len..] == [];
      assert (j + ":") + ":" + [] == j + ":" + ":";
    }
  }

  lemma EndIsWritten(ws: seq<Word>, r: Run)
    requires |ws| == 8 && GoodRun(ws, r) && !Embedded(ws, r)
    ensures Written(ws, r, 8) + (if r.Run? && r.base + r.len == 8 then ":" else "") == Print6(ws, r)
  {
    hide Hex, Pre, Lead, Joined, Embedded, GoodRun;
    assert ws[..8] == ws;
    if r.Run? {
      EndOfRun(ws, r);
    }
  }

  lemma JoinedNone()
    ensures Joined([]) == [] && Lead([]) == []
  {
  }

  lemma QuadIsWritten(ws: seq<Word>, r: Run)
    requires |ws| == 8 && GoodRun(ws, r) && Embedded(ws, r)
    ensures Written(ws, r, 6) + ":" + QuadText(AllBytes(ws[6..])) == Print6(ws, r)
  {
    hide Hex, Pre, Lead, Joined, QuadText, AllBytes;
    var mid := ws[r.len..6];
    JoinedNone();
    PreNone();
    assert ws[..0] == [];
    if mid != [] {
      LeadIsJoined(mid);
      PreIsJoined(mid);
    }
  }

  /** inet_ntop6 with room for size characters. */
  method Ntop6(src: seq<Byte>, size: nat) returns (dst: Option<string>, best: Run)
    requires |src| == 16
    ensures GoodRun(WordsOf(src), best) && Longest(WordsOf(src), best)
    ensures dst.Some? <==> |Print6(WordsOf(src), best)| + 1 <= size
    ensures dst.Some? ==> dst.value == Print6(WordsOf(src), best)
  {
    hide Longest, Written, Hex, AllBytes, QuadText, Print6;
    var words := WordsOf(src);
    best := FindRun(words);
    var tp := "";
    WrittenNone(words, best);
    var i := 0;
    while i < 8
      invariant 0 <= i <= 8 && tp == Written(words, best, i)
      invariant i > 6 ==> !Embedded(words, best)
    {
      if best.Run? && best.base <= i < best.base + best.len {
        RunIsWritten(words, best, i);
        if i == best.base {
          tp := tp + ":";
        }
      } else {
        WordIsWritten(words, best, i);
        if i == 6 && Embedded(words, best) {
          QuadIsWritten(words, best);
          LastBytes(src);
          tp := tp + ":" + QuadText(src[12..16]);
          dst := if |tp| + 1 > size then None else Some(tp);
          return;
        }
        tp := tp + (if i != 0 then ":" else "") + Hex(words[i]);
      }
      i := i + 1;
    }
    EndIsWritten(words, best);
    if best.Run? && best.base + best.len == 8 {
      tp := tp + ":";
    }
    dst := if |tp| + 1 > size then None else Some(tp);
  }

  lemma WrittenNone(ws: seq<Word>, r: Run)
    requires |ws| == 8 && GoodRun(ws, r)
    ensures Written(ws, r, 0) == ""
  {
    JoinedNone();
  }

  lemma RunIsWritten(ws: seq<Word>, r: Run, i: nat)
    requires |ws| == 8 && GoodRun(ws, r) && r.Run? && r.base <= i < r.base + r.len
    ensures Written(ws, r, i + 1) == Written(ws, r, i) + (if i == r.base then ":" else "")
  {
  }

  lemma LastBytes(src: seq<Byte>)
    requires |src| == 16
    ensures AllBytes(WordsOf(src)[6..]) == src[12..16]
  {
    FromWord(src, WordsOf(src), 6);
  }

  /** inet_pton6 of what inet_ntop6 writes is the address again. */
  lemma AddressRoundTrip(src: seq<Byte>, best: Run)
    requires |src| == 16 && GoodRun(WordsOf(src), best)
    ensures Parse6(Print6(WordsOf(src), best)) == Some(src)
  {
    WordsRoundTrip(WordsOf(src), best);
    BytesOfWords(src);
  }

  // ---------- inet_pton4 ----------

  method Pton4(src: string) returns (r: Option<seq<Byte>>)
    ensures r == Parse4(src)
  {
    var done: seq<Byte>, cur: Byte, saw, octets := [], 0, false, 0;
    var i := 0;
    assert src[0..] == src;
    while i < |src|
      invariant 0 <= i <= |src| && |done| <= 3 && octets == |done| + if saw then 1 else 0
      invariant Loop4(src[i..], done, cur, saw) == Parse4(src)
      decreases |src| - i
    {
      var ch := src[i];
      assert src[i..][0] == ch && src[i..][1..] == src[i + 1..];
      if IsDigit(ch) {
        var octet := Times10(cur) + (ch - '0') as nat;
        if octet > 255 {
          return None;
        }
        cur := octet;
        if !saw {
          octets := octets + 1;
          if octets > 4 {
            return None;
          }
          saw := true;
        }
      } else if ch == '.' && saw {
        if octets == 4 {
          return None;
        }
        done, cur, saw := done + [cur], 0, false;
      } else {
        return None;
      }
      i := i + 1;
    }
    if octets < 4 {
      return None;
    }
    return Some(done + [cur]);
  }

  // ---------- inet_pton6 ----------

  /** The loop of inet_pton6 from position start on: the bytes written and the state it leaves. */
  method ReadGroups(src: string, start: nat, tmp: array<Byte>) returns (ok: bool, tp: nat, colonp: Option<nat>, saw: bool, val: nat)
    requires start <= |src| && tmp.Length == 16
    modifies tmp
    ensures ok == Loop6(src[start..], St([], None, false, 0, src[start..])).Some?
    ensures ok ==> tp <= 16 && val < 0x10000 && (colonp.Some? ==> colonp.value <= tp)
    ensures ok ==>
      var st := Loop6(src[start..], St([], None, false, 0, src[start..])).value;
      st.out == tmp[..tp] && st.colon == colonp && st.saw == saw && st.val == val
    ensures ok ==> forall k :: tp <= k < 16 ==> tmp[k] == old(tmp[k])
  {
    hide Parse4, BytesOf, HexVal;
    var i, curtok := start, start;
    tp, colonp, saw, val := 0, None, false, 0;
    ghost var s0 := src[start..];
    while i < |src|
      invariant start <= i <= |src| && start <= curtok <= |src|
      invariant tp <= 16 && val < 0x10000 && (colonp.Some? ==> colonp.value <= tp)
      invariant Loop6(s0, St([], None, false, 0, s0)) == Loop6(src[i..], St(tmp[..tp], colonp, saw, val, src[curtok..]))
      invariant forall k :: tp <= k < 16 ==> tmp[k] == old(tmp[k])
      decreases |src| - i
    {
      var ch := src[i];
      assert src[i..][0] == ch && src[i..][1..] == src[i + 1..];
      i := i + 1;
      var digit := HexVal(ch);
      if digit.Some? {
        val := val * 16 + digit.value;
        if val > 0xffff {
          return false, tp, colonp, saw, 0;
        }
        saw := true;
      } else if ch == ':' {
        curtok := i;
        if !saw {
          if colonp.Some? {
            return false, tp, colonp, saw, val;
          }
          colonp := Some(tp);
        } else {
          if i == |src| || tp + 2 > 16 {
            return false, tp, colonp, saw, val;
          }
          Store(tmp, tp, val);
          tp, saw, val := tp + 2, false, 0;
        }
      } else if ch == '.' && tp + 4 <= 16 {
        var q := Pton4(src[curtok..]);
        if q == None || |q.value| != 4 {
          return false, tp, colonp, saw, val;
        }
        Copy4(tmp, tp, q.value);
        return true, tp + 4, colonp, false, val;
      } else {
        return false, tp, colonp, saw, val;
      }
    }
    return true, tp, colonp, saw, val;
  }

  method Store(tmp: array<Byte>, tp: nat, val: nat)
    requires tp + 2 <= tmp.Length && val < 0x10000
    modifies tmp
    ensures tmp[..tp + 2] == old(tmp[..tp]) + BytesOf(val)
    ensures forall k :: tp + 2 <= k < tmp.Length ==> tmp[k] == old(tmp[k])
  {
    tmp[tp] := val / 256;
    tmp[tp + 1] := val % 256;
  }

  method Copy4(tmp: array<Byte>, tp: nat, q: seq<Byte>)
    requires tp + 4 <= tmp.Length && |q| == 4
    modifies tmp
    ensures tmp[..tp + 4] == old(tmp[..tp]) + q
    ensures forall k :: tp + 4 <= k < tmp.Length ==> tmp[k] == old(tmp[k])
  {
    tmp[tp], tmp[tp + 1], tmp[tp + 2], tmp[tp + 3] := q[0], q[1], q[2], q[3];
  }

  /** The shift by hand: what follows the colons moves to the end, zeros take its place. */
  method Shift(tmp: array<Byte>, colonp: nat, tp: nat)
    requires tmp.Length == 16 && colonp <= tp < 16 && forall k :: tp <= k < 16 ==> tmp[k] == 0
    modifies tmp
    ensures tmp[..] == old(tmp[..colonp]) + Zeros(16 - tp) + old(tmp[colonp..tp])
  {
    var n := tp - colonp;
    ghost var was := tmp[..];
    for i := 0 to n
      invariant forall k :: 0 <= k < tp - i ==> tmp[k] == was[k]
      invariant forall k :: tp - i <= k < 16 - i ==> tmp[k] == 0
      invariant forall k :: 16 - i <= k < 16 ==> tmp[k] == was[k - (16 - tp)]
    {
      tmp[16 - (i + 1)] := tmp[colonp + (n - (i + 1))];
      tmp[colonp + (n - (i + 1))] := 0;
    }
  }

  /** What inet_pton6 does after its loop. */
  method Complete(tmp: array<Byte>, end: nat, colonp: Option<nat>, saw: bool, val: nat) returns (r: Option<seq<Byte>>)
    requires tmp.Length == 16 && end <= 16 && val < 0x10000 && (colonp.Some? ==> colonp.value <= end)
    requires forall k :: end <= k < 16 ==> tmp[k] == 0
    modifies tmp
    ensures r == Finish6(St(old(tmp[..end]), colonp, saw, val, ""))
  {
    hide BytesOf;
    var tp := end;
    if saw {
      if tp + 2 > 16 {
        return None;
      }
      Store(tmp, tp, val);
      tp := tp + 2;
    }
    ghost var full := tmp[..tp];
    if colonp == None {
      if tp != 16 {
        return None;
      }
      assert full == tmp[..];
      return Some(tmp[..]);
    }
    if tp == 16 {
      return None;
    }
    assert full[..colonp.value] == tmp[..colonp.value] && full[colonp.value..] == tmp[colonp.value..tp];
    Shift(tmp, colonp.value, tp);
    return Some(tmp[..]);
  }

  method Pton6(src: string) returns (r: Option<seq<Byte>>)
    ensures r == Parse6(src)
  {
    hide Loop6, Finish6;
    var start := 0;
    if src != "" && src[0] == ':' {
      if |src| < 2 || src[1] != ':' {
        return None;
      }
      start := 1;
    }
    assert src[0..] == src;
    var tmp := new Byte[16](_ => 0);
    var ok, tp, colonp, saw, val := ReadGroups(src, start, tmp);
    if !ok {
      return None;
    }
    FinishIgnoresTok(Loop6(src[start..], St([], None, false, 0, src[start..])).value, "");
    r := Complete(tmp, tp, colonp, saw, val);
  }
}
