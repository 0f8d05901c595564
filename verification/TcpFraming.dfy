/** Length-prefixed DNS messages on a byte stream (section 4.2.2 of RFC 1035). */
module TcpFraming {
  import opened Common

  /** The two length bytes that adns__querysend_tcp puts before a datagram. */
  function Prefix(len: nat): (p: seq<Byte>)
    ensures |p| == 2
  {
    [(len / 256) % 256, len % 256]
  }

  function Frame(dgram: seq<Byte>): (f: seq<Byte>)
    ensures |f| == |dgram| + 2
  {
    Prefix(|dgram|) + dgram
  }

  function Frames(msgs: seq<seq<Byte>>): seq<Byte> {
    if msgs == [] then [] else Frames(msgs[..|msgs| - 1]) + Frame(msgs[|msgs| - 1])
  }

  lemma FramesAppend(msgs: seq<seq<Byte>>, m: seq<Byte>)
    ensures Frames(msgs + [m]) == Frames(msgs) + Frame(m)
  {
    assert (msgs + [m])[..|msgs|] == msgs;
  }

  /** The length a reader of the stream sees at offset i. */
  function LengthAt(s: seq<Byte>, i: nat): (n: nat)
    requires i + 2 <= |s|
    ensures n < 65536
  {
    (s[i] as int) * 256 + s[i + 1]
  }

  /** A whole message begins at offset i of s. */
  predicate WholeAt(s: seq<Byte>, i: nat) {
    i + 2 <= |s| && i + 2 + LengthAt(s, i) <= |s|
  }

  /** Reading a frame back: the message found is the one whose frame it is. */
  lemma WholeIsFrame(s: seq<Byte>, i: nat)
    requires WholeAt(s, i)
    ensures s[i..] == Frame(s[i + 2..i + 2 + LengthAt(s, i)]) + s[i + 2 + LengthAt(s, i)..]
  {
    var n := LengthAt(s, i);
    var m := s[i + 2..i + 2 + n];
    assert Prefix(n) == s[i..i + 2];
    assert s[i..] == s[i..i + 2] + m + s[i + 2 + n..];
  }

  function MessageAt(s: seq<Byte>, i: nat): seq<Byte>
    requires WholeAt(s, i)
  {
    s[i + 2..i + 2 + LengthAt(s, i)]
  }

  /** The messages of a stream, taken off its front one by one, and the bytes after them. */
  function Messages(s: seq<Byte>): (r: seq<seq<Byte>>)
    ensures forall m | m in r :: |m| < 65536
  {
    if WholeAt(s, 0) then [MessageAt(s, 0)] + Messages(s[2 + LengthAt(s, 0)..]) else []
  }

  function Leftover(s: seq<Byte>): (r: seq<Byte>)
    ensures !WholeAt(r, 0)
  {
    if WholeAt(s, 0) then Leftover(s[2 + LengthAt(s, 0)..]) else s
  }

  lemma FirstMessage(s: seq<Byte>, m: seq<Byte>, after: seq<Byte>)
    requires WholeAt(s, 0) && LengthAt(s, 0) == |m| && s[2..2 + |m|] == m && s[2 + |m|..] == after
    ensures Messages(s) == [m] + Messages(after) && Leftover(s) == Leftover(after)
  {
  }

  /** Whatever messages are framed at the front of a stream are its first messages. */
  lemma {:induction false} MessagesOfFrames(msgs: seq<seq<Byte>>, rest: seq<Byte>)
    requires forall m | m in msgs :: |m| < 65536
    ensures Messages(FramesOf(msgs) + rest) == msgs + Messages(rest)
    ensures Leftover(FramesOf(msgs) + rest) == Leftover(rest)
  {
    if msgs == [] {
      assert FramesOf(msgs) + rest == rest;
    } else {
      FirstFrame(msgs, rest);
      MessagesOfFrames(msgs[1..], rest);
      FirstMessage(FramesOf(msgs) + rest, msgs[0], FramesOf(msgs[1..]) + rest);
      assert msgs == [msgs[0]] + msgs[1..];
      Assoc([msgs[0]], msgs[1..], Messages(rest));
    }
  }

  lemma {:induction false} MessagesMakeFrames(s: seq<Byte>)
    ensures s == FramesOf(Messages(s)) + Leftover(s)
    decreases |s|
  {
    if WholeAt(s, 0) {
      WholeIsFrame(s, 0);
      var t := s[2 + LengthAt(s, 0)..];
      MessagesMakeFrames(t);
      assert s[0..] == s;
      assert s == Frame(MessageAt(s, 0)) + (FramesOf(Messages(t)) + Leftover(t));
    }
  }

  /** Splitting is unambiguous: to be the frames of some messages and then bytes without a
      whole message is to be the frames of its messages and then its leftover. */
  lemma SplitUnique(s: seq<Byte>, msgs: seq<seq<Byte>>, rest: seq<Byte>)
    requires forall m | m in msgs :: |m| < 65536
    ensures s == Frames(msgs) + rest && !WholeAt(rest, 0) <==> msgs == Messages(s) && rest == Leftover(s)
    ensures s == Frames(msgs) + rest ==> Messages(s) == msgs + Messages(rest)
  {
    FramesBothWays(msgs);
    MessagesOfFrames(msgs, rest);
    MessagesMakeFrames(s);
  }

  /** More bytes on a stream leave its messages where they are. */
  lemma MessagesGrow(s: seq<Byte>, more: seq<Byte>)
    ensures Messages(s) <= Messages(s + more)
  {
    SplitUnique(s, Messages(s), Leftover(s));
    Assoc(Frames(Messages(s)), Leftover(s), more);
    SplitUnique(s + more, Messages(s), Leftover(s) + more);
  }

  /** The same concatenation, read from the front. */
  function FramesOf(msgs: seq<seq<Byte>>): seq<Byte> {
    if msgs == [] then [] else Frame(msgs[0]) + FramesOf(msgs[1..])
  }

  lemma {:induction false} FramesConcat(a: seq<seq<Byte>>, b: seq<seq<Byte>>)
    ensures Frames(a + b) == Frames(a) + Frames(b)
  {
    if b == [] {
      assert a + b == a;
    } else {
      var last := b[|b| - 1];
      FramesConcat(a, b[..|b| - 1]);
      assert b == b[..|b| - 1] + [last];
      assert a + b == (a + b[..|b| - 1]) + [last];
      FramesAppend(a + b[..|b| - 1], last);
      FramesAppend(b[..|b| - 1], last);
    }
  }

  /** More messages and more bytes on a stream that has been split so far. */
  lemma StreamGoesOn(s: seq<Byte>, msgs: seq<seq<Byte>>, rest: seq<Byte>, more: seq<Byte>, taken: seq<seq<Byte>>, left: seq<Byte>)
    requires s == Frames(msgs) + rest && rest + more == Frames(taken) + left
    ensures s + more == Frames(msgs + taken) + left
  {
    FramesConcat(msgs, taken);
    Assoc(Frames(msgs), rest, more);
    Assoc(Frames(msgs), Frames(taken), left);
  }

  lemma {:induction false} FramesBothWays(msgs: seq<seq<Byte>>)
    ensures Frames(msgs) == FramesOf(msgs)
  {
    if msgs != [] {
      FramesBothWays(msgs[..|msgs| - 1]);
      FramesOfAppend(msgs[..|msgs| - 1], msgs[|msgs| - 1]);
      assert msgs == msgs[..|msgs| - 1] + [msgs[|msgs| - 1]];
    }
  }

  lemma {:induction false} FramesOfAppend(msgs: seq<seq<Byte>>, m: seq<Byte>)
    ensures FramesOf(msgs + [m]) == FramesOf(msgs) + Frame(m)
  {
    if msgs == [] {
      assert msgs + [m] == [m] && [m][1..] == [];
    } else {
      assert (msgs + [m])[1..] == msgs[1..] + [m];
      FramesOfAppend(msgs[1..], m);
    }
  }

  lemma FirstFrame(msgs: seq<seq<Byte>>, rest: seq<Byte>)
    requires msgs != [] && |msgs[0]| < 65536
    ensures var s := FramesOf(msgs) + rest;
      WholeAt(s, 0) && LengthAt(s, 0) == |msgs[0]| && s[2..2 + |msgs[0]|] == msgs[0] &&
      s[2 + |msgs[0]|..] == FramesOf(msgs[1..]) + rest
  {
    assert FramesOf(msgs) + rest == Frame(msgs[0]) + (FramesOf(msgs[1..]) + rest);
    FrameThen(msgs[0], FramesOf(msgs[1..]) + rest);
  }

  lemma FrameThen(m: seq<Byte>, rest: seq<Byte>)
    requires |m| < 65536
    ensures var s := Frame(m) + rest;
      WholeAt(s, 0) && LengthAt(s, 0) == |m| && s[2..2 + |m|] == m && s[2 + |m|..] == rest
  {
    var s := Frame(m) + rest;
    assert s[0] == |m| / 256 && s[1] == |m| % 256;
  }

  /** What writev and the appends of adns__querysend_tcp leave in the stream after wr
      bytes went out: the bytes sent, then the bytes queued. */
  function AfterWritev(dgram: seq<Byte>, wr: nat): (sent: (seq<Byte>, seq<Byte>))
    requires wr <= |dgram| + 2
  {
    var length := Prefix(|dgram|);
    if wr < 2 then (Frame(dgram)[..wr], length[..2 - wr] + dgram)
    else (Frame(dgram)[..wr], dgram[wr - 2..])
  }

  /** The frame survives the partial write exactly when writev did not stop after one
      byte, or the two length bytes happen to be equal. */
  lemma PartialWrite(dgram: seq<Byte>, wr: nat)
    requires wr <= |dgram| + 2
    ensures var sent := AfterWritev(dgram, wr);
      |sent.0 + sent.1| == |Frame(dgram)| &&
      (sent.0 + sent.1 == Frame(dgram) <==> (wr == 1 ==> Prefix(|dgram|)[0] == Prefix(|dgram|)[1]))
  {
    var p := Prefix(|dgram|);
    var f := Frame(dgram);
    var sent := AfterWritev(dgram, wr);
    if wr == 0 {
      assert p[..2] == p;
      assert sent.0 + sent.1 == f;
    } else if wr == 1 {
      assert sent.0 + sent.1 == [p[0], p[0]] + dgram;
      assert (sent.0 + sent.1)[1] == p[0] && f[1] == p[1];
      if p[0] == p[1] {
        assert [p[0], p[0]] == p;
      }
    } else {
      assert f[wr..] == dgram[wr - 2..];
      assert sent.0 + sent.1 == f[..wr] + f[wr..] == f;
    }
  }
}
