/** Whole runs of yyparse: every input ends, no stack is read below its bottom, no semantic
    action reads a value that was not stored, and printed expressions come back as they were. */
module PluralRun {
  import opened Common
  import opened Plural
  import opened PluralParser

  // ---------- the shape of the stacks ----------

  predicate IsExp(s: nat) {
    s in {5, 6, 7, 16, 17, 18, 19, 20, 21, 22, 24}
  }

  /** State b may lie directly above state a. */
  predicate Link(a: nat, b: nat) {
    match b
    case 0 => false
    case 15 => a == 7
    case 23 => a == 16
    case 25 => a == 0
    case 26 => a == 25
    case _ =>
      if b <= 4 then Expects(a)
      else if 8 <= b <= 14 then IsExp(a)
      else IsExp(b) && Expects(a) && b == GotoState(2, a)
  }

  /** The value that lies beside state s. */
  predicate ValOk(s: nat, v: Val) {
    (s == 2 ==> v.NumVal?) &&
    (11 <= s <= 14 ==> v.OpVal? && OpPrec(v.op) + 7 == s) &&
    (s in {1, 3, 4, 8, 9, 10, 15, 23} ==> v.NoVal?) &&
    (IsExp(s) ==> v.ExpVal?)
  }

  /** What the lexer delivers: never the end marker inside the input, and beside a symbol
      the value of that number or operator, if it has one. */
  predicate TokenOk(t: Token) {
    t.sym != EOF &&
    (t.sym == NUMBER ==> t.val.NumVal?) &&
    (EQUOP2 <= t.sym <= MULOP2 ==> t.val.OpVal? && OpPrec(t.val.op) + 2 == t.sym) &&
    (t.sym in {QM, OR, AND, NOT, COLON, N, LPAR, RPAR} ==> t.val.NoVal?)
  }

  ghost predicate Inv(c: Config) {
    c.ss != [] && |c.vs| == |c.ss| && c.ss[0] == 0 &&
    (forall k :: 0 < k < |c.ss| ==> Link(c.ss[k - 1], c.ss[k])) &&
    (forall k :: 0 <= k < |c.ss| ==> ValOk(c.ss[k], c.vs[k])) &&
    (forall t :: t in c.input ==> TokenOk(t)) &&
    (|c.ss| > 1 && c.ss[1] == 25 ==> c.res.Some?)
  }

  lemma StartInv(tokens: seq<Token>)
    requires forall t :: t in tokens ==> TokenOk(t)
    ensures Inv(Start(tokens))
  {
  }

  /** A shifted symbol fits on the state that shifts it. */
  ghost predicate ShiftFits(s: nat, tok: Token) {
    var d := Decide(s, tok.sym);
    d.Shift? ==>
      Link(s, d.state) && ValOk(d.state, tok.val) && (d.state == 26 <==> tok.sym == EOF) && !IsExp(d.state) && d.state != 25
  }

  lemma ShiftStart(s: nat, tok: Token)
    requires YyPact(s) == -9 || YyPact(s) == YYFLAG
    requires tok.sym == EOF || TokenOk(tok)
    ensures ShiftFits(s, tok)
  {
    assert Decide(s, tok.sym).Shift? ==> tok.sym in {NUMBER, N, NOT, LPAR};
  }

  lemma OperatorOnly(s: nat, sym: nat)
    requires s in {5, 7, 16, 24} && Decide(s, sym).Shift?
    ensures if QM <= sym <= MULOP2 then Decide(s, sym).state == sym + 5
      else (s == 7 && sym == RPAR && Decide(s, sym).state == 15) || (s == 16 && sym == COLON && Decide(s, sym).state == 23)
  {
  }

  lemma ShiftOperator(s: nat, tok: Token)
    requires s in {5, 7, 16, 24}
    requires tok.sym == EOF || TokenOk(tok)
    ensures ShiftFits(s, tok)
  {
    hide Decide, GotoState;
    if Decide(s, tok.sym).Shift? {
      OperatorOnly(s, tok.sym);
    }
  }

  lemma TighterOnly(s: nat, sym: nat)
    requires s in {17, 18, 19, 20, 21} && Decide(s, sym).Shift?
    ensures AND <= sym <= MULOP2 && Decide(s, sym).state == sym + 5
  {
  }

  lemma ShiftTighter(s: nat, tok: Token)
    requires s in {17, 18, 19, 20, 21}
    requires tok.sym == EOF || TokenOk(tok)
    ensures ShiftFits(s, tok)
  {
    hide Decide, GotoState;
    if Decide(s, tok.sym).Shift? {
      TighterOnly(s, tok.sym);
    }
  }

  lemma ShiftEnd(s: nat, tok: Token)
    requires s in {25, 26}
    requires tok.sym == EOF || TokenOk(tok)
    ensures ShiftFits(s, tok)
  {
  }

  lemma ShiftLinks(s: nat, tok: Token)
    requires tok.sym == EOF || TokenOk(tok)
    ensures ShiftFits(s, tok)
  {
    hide Decide, ShiftFits;
    if s in {5, 7, 16, 24} {
      ShiftOperator(s, tok);
    } else if s in {17, 18, 19, 20, 21} {
      ShiftTighter(s, tok);
    } else if s in {25, 26} {
      ShiftEnd(s, tok);
    } else {
      ShiftStart(s, tok);
    }
  }

  /** The states below the top when a rule is about to be reduced. */
  predicate Handle(s: nat, r: nat) {
    match r
    case 1 => s == 5
    case 2 => s == 24
    case 9 => s == 6
    case 10 => s == 3
    case 11 => s == 2
    case 12 => s == 15
    case _ => 3 <= r <= 8 && s == r + 14
  }

  lemma ReduceHandle(s: nat, sym: nat)
    requires Decide(s, sym).Reduce?
    ensures Handle(s, Decide(s, sym).rule)
  {
  }

  lemma GotoFacts(a: nat)
    requires Expects(a)
    ensures IsExp(GotoState(2, a)) && Link(a, GotoState(2, a))
    ensures GotoState(2, a) == 5 <==> a == 0
    ensures GotoState(2, a) == 6 <==> a == 1
    ensures GotoState(2, a) == 7 <==> a == 4
    ensures GotoState(2, a) == 16 <==> a == 8
    ensures GotoState(2, a) == 24 <==> a == 23
    ensures 17 <= GotoState(2, a) <= 22 ==> GotoState(2, a) == a + 8
  {
  }

  // ---------- one move ----------

  /** The stacks hold the right-hand side of rule r with values of the kinds its action reads. */
  lemma HandleBelow(c: Config, r: nat)
    requires Inv(c) && Handle(c.ss[|c.ss| - 1], r)
    ensures 0 < YyR2(r) < |c.ss|
    ensures r != 1 ==> Expects(c.ss[|c.ss| - 1 - YyR2(r)])
    ensures r == 1 ==> |c.ss| == 2
    ensures Act(r, c.vs[|c.ss| - YyR2(r)..]).Some?
    ensures Act(r, c.vs[|c.ss| - YyR2(r)..]).value.ExpVal?
  {
    hide Decide, GotoState, OpPrec;
    var ss, vs, m := c.ss, c.vs, |c.ss|;
    assert m > 1;
    assert Link(ss[m - 2], ss[m - 1]) && ValOk(ss[m - 1], vs[m - 1]);
    match r {
      case 1 =>
        OnExp(ss[m - 2], ss[m - 1]);
        ZeroIsBottom(c, m - 2);
      case 10 =>
      case 11 =>
      case 9 =>
        OnExp(ss[m - 2], ss[m - 1]);
        assert Link(ss[m - 3], ss[m - 2]);
      case 2 =>
        OnExp(ss[m - 2], ss[m - 1]);
        assert Link(ss[m - 3], ss[m - 2]) && ValOk(ss[m - 3], vs[m - 3]);
        assert Link(ss[m - 4], ss[m - 3]);
        OnExp(ss[m - 4], ss[m - 3]);
        assert Link(ss[m - 5], ss[m - 4]) && ValOk(ss[m - 5], vs[m - 5]);
        assert Link(ss[m - 6], ss[m - 5]);
      case 12 =>
        assert Link(ss[m - 3], ss[m - 2]) && ValOk(ss[m - 2], vs[m - 2]);
        OnExp(ss[m - 3], ss[m - 2]);
        assert Link(ss[m - 4], ss[m - 3]);
      case _ =>
        OnExp(ss[m - 2], ss[m - 1]);
        assert Link(ss[m - 3], ss[m - 2]) && ValOk(ss[m - 2], vs[m - 2]) && ValOk(ss[m - 3], vs[m - 3]);
        assert Link(ss[m - 4], ss[m - 3]);
    }
  }

  lemma LinkAt(c: Config, k: nat)
    requires Inv(c) && 0 < k < |c.ss|
    ensures Link(c.ss[k - 1], c.ss[k])
  {
  }

  lemma ZeroIsBottom(c: Config, k: nat)
    requires Inv(c) && k < |c.ss| && c.ss[k] == 0
    ensures k == 0
  {
    if k > 0 {
      LinkAt(c, k);
    }
  }

  lemma OnExp(a: nat, b: nat)
    requires Link(a, b) && IsExp(b)
    ensures Expects(a)
    ensures b == 5 ==> a == 0
    ensures b == 6 ==> a == 1
    ensures b == 7 ==> a == 4
    ensures b == 16 ==> a == 8
    ensures b == 24 ==> a == 23
    ensures 17 <= b <= 22 ==> b == a + 8
  {
    GotoFacts(a);
  }

  /** What one move uses up, whichever move it is. */
  function Measure(c: Config): nat
    requires c.ss != []
  {
    4 * |c.input| + 2 * |c.ss| + Rank(c.ss[|c.ss| - 1])
  }

  function Rank(s: nat): nat {
    if s == 26 then 0 else if s == 25 then 3 else if s == 2 || s == 3 then 5 else 4
  }

  lemma PoppedInv(c: Config, h: nat, g: nat, v: Val, res: Option<Exp>)
    requires Inv(c) && 0 < h < |c.ss| && Link(c.ss[h - 1], g) && ValOk(g, v)
    requires h == 1 && g == 25 ==> res.Some?
    requires c.res.Some? ==> res.Some?
    ensures Inv(Config(c.ss[..h] + [g], c.vs[..h] + [v], c.input, res))
  {
    hide Link, ValOk;
    var c' := Config(c.ss[..h] + [g], c.vs[..h] + [v], c.input, res);
    assert forall k :: 0 <= k < h ==> c'.ss[k] == c.ss[k] && c'.vs[k] == c.vs[k];
  }

  lemma PopKeeps(c: Config, r: nat)
    requires Inv(c) && Handle(c.ss[|c.ss| - 1], r)
    ensures Pop(c, r).Running? && Inv(Pop(c, r).c) && Measure(Pop(c, r).c) < Measure(c)
  {
    hide Decide, GotoState, Act, Link, ValOk, IsExp;
    HandleBelow(c, r);
    var h := |c.ss| - YyR2(r);
    var v := Act(r, c.vs[h..]).value;
    if r == 1 {
      assert c.ss[h - 1] == 0;
    }
    GotoKeeps(r, c.ss[h - 1], v);
    PoppedInv(c, h, GotoState(r, c.ss[h - 1]), v, if r == 1 then Some(v.e) else c.res);
    hide Inv;
  }

  lemma GotoKeeps(r: nat, s: nat, v: Val)
    requires v.ExpVal? && (if r == 1 then s == 0 else Expects(s))
    ensures Link(s, GotoState(r, s)) && ValOk(GotoState(r, s), v)
    ensures if r == 1 then GotoState(r, s) == 25 else Rank(GotoState(r, s)) == 4
    ensures r != 1 ==> GotoState(r, s) != 25
  {
    if r != 1 {
      GotoIsUniform(r, s);
      GotoFacts(s);
    }
  }

  lemma ShiftKeeps(c: Config, t: nat)
    requires Inv(c) && Step(c).Running? && Decide(c.ss[|c.ss| - 1], Peek(c.input).sym) == Shift(t)
    ensures Inv(Step(c).c) && Measure(Step(c).c) < Measure(c)
  {
    hide Decide, GotoState, Act, Link, ValOk, IsExp;
    ShiftLinks(c.ss[|c.ss| - 1], Peek(c.input));
    var c' := Step(c).c;
    assert forall k :: 0 <= k < |c.ss| ==> c'.ss[k] == c.ss[k] && c'.vs[k] == c.vs[k];
    LinkFacts(c.ss[|c.ss| - 1], t);
  }

  lemma LinkFacts(a: nat, b: nat)
    requires Link(a, b)
    ensures b == 26 <==> a == 25
    ensures b != 26 && !IsExp(b) && b != 25 ==> Rank(b) <= Rank(a) + 1
  {
  }

  lemma AcceptFacts(c: Config)
    requires Inv(c) && Decide(c.ss[|c.ss| - 1], Peek(c.input).sym) == Accept
    ensures |c.ss| == 3 && c.ss[1] == 25 && c.ss[2] == 26 && c.res.Some? && c.input == []
  {
    var m := |c.ss|;
    AcceptState(c.ss[m - 1], Peek(c.input).sym);
    hide Decide;
    assert c.input == [] || Peek(c.input) in c.input;
    LinkAt(c, m - 1);
    LinkAt(c, m - 2);
    ZeroIsBottom(c, m - 3);
  }

  lemma AcceptState(s: nat, sym: nat)
    requires Decide(s, sym) == Accept
    ensures s == 26 && sym == EOF
  {
  }

  /** No move reads below a stack or reads a value that is not there, and each uses the measure up. */
  lemma StepKeeps(c: Config)
    requires Inv(c)
    ensures Step(c) != Corrupt
    ensures Step(c).Running? ==> Inv(Step(c).c) && Measure(Step(c).c) < Measure(c)
  {
    hide Decide, Pop, Inv, Measure;
    assert c.ss != [] && |c.vs| == |c.ss| by {
      InvFacts(c);
    }
    if |c.ss| < YYMAXDEPTH {
      match Decide(c.ss[|c.ss| - 1], Peek(c.input).sym) {
        case Fail =>
        case Accept => AcceptFacts(c);
        case Shift(t) => ShiftKeeps(c, t);
        case Reduce(r) =>
          ReduceHandle(c.ss[|c.ss| - 1], Peek(c.input).sym);
          PopKeeps(c, r);
      }
    }
  }

  lemma InvFacts(c: Config)
    requires Inv(c)
    ensures c.ss != [] && |c.vs| == |c.ss|
  {
  }

  // ---------- whole runs ----------

  /** What yyparse returns from configuration c. */
  function Run(c: Config): (o: Outcome)
    requires Inv(c)
    ensures !o.Running? && o != Corrupt
    decreases Measure(c)
  {
    StepKeeps(c);
    match Step(c)
    case Running(c') => Run(c')
    case o => o
  }

  lemma {:induction false} RunIsStepN(c: Config, n: nat)
    requires Inv(c) && !StepN(c, n).Running?
    ensures Run(c) == StepN(c, n)
    decreases n
  {
    hide Step, Inv;
    StepKeeps(c);
    if Step(c).Running? {
      RunIsStepN(Step(c).c, n - 1);
    }
  }

  lemma {:induction false} TokensOk(d: Src)
    ensures forall t :: t in Tokens(d) ==> TokenOk(t)
  {
    match d
    case SVar =>
    case SNum(_) =>
    case SNot(x) => TokensOk(x);
    case SBin(_, l, r) => TokensOk(l); TokensOk(r);
    case SCond(x, y, z) => TokensOk(x); TokensOk(y); TokensOk(z);
    case SParen(x) => TokensOk(x);
  }

  /** The parser undoes the printer. */
  lemma ParserUndoesPrinter(e: Exp)
    ensures Inv(Start(Tokens(Written(e, 1))))
    ensures Run(Start(Tokens(Written(e, 1)))) == if 1 + Need(Written(e, 1)) < YYMAXDEPTH then Accepted(e) else Overflow
  {
    hide *;
    var d := Written(e, 1);
    WrittenIsGrammatical(e, 1);
    TokensOk(d);
    StartInv(Tokens(d));
    var n := WrittenIsParsed(d);
    RunIsStepN(Start(Tokens(d)), n);
  }
}
