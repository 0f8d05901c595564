/** What yyparse accepts is grammatical: the tree it returns is the tree of the tokens it read. */
module PluralSound {
  import opened Common
  import opened Plural
  import opened PluralParser
  import opened PluralRun

  /** A stack position: its state, its value, and what was written where an expression stands. */
  datatype Cell = Cell(s: nat, v: Val, d: Src)

  predicate HasSrc(s: nat) {
    IsExp(s) || s == 25
  }

  /** The symbol that a state was entered with, for states entered by a shift. */
  function SymOf(s: nat): nat {
    match s
    case 1 => NOT
    case 2 => NUMBER
    case 3 => N
    case 4 => LPAR
    case 15 => RPAR
    case 23 => COLON
    case _ => if 8 <= s <= 14 then s - 5 else EOF
  }

  /** The tokens that a stack position stands for. */
  function Piece(x: Cell): seq<Token> {
    if HasSrc(x.s) then Tokens(x.d)
    else if SymOf(x.s) == EOF then []
    else [Token(SymOf(x.s), x.v)]
  }

  function Frontier(xs: seq<Cell>): seq<Token> {
    if xs == [] then [] else Frontier(xs[..|xs| - 1]) + Piece(xs[|xs| - 1])
  }

  lemma {:induction false} FrontierConcat(xs: seq<Cell>, ys: seq<Cell>)
    ensures Frontier(xs + ys) == Frontier(xs) + Frontier(ys)
    decreases |ys|
  {
    hide Piece;
    if ys == [] {
      assert xs + ys == xs;
    } else {
      var m := |ys| - 1;
      assert (xs + ys)[..|xs| + m] == xs + ys[..m];
      FrontierConcat(xs, ys[..m]);
    }
  }

  /** An operator that would have taken an expression of precedence p as part of its left operand. */
  predicate Tighter(p: nat, sym: nat) {
    QM <= sym <= MULOP2 && (sym - 2 > p || (sym == QM && p < 2))
  }

  ghost predicate CellOk(below: nat, x: Cell, next: nat) {
    (HasSrc(x.s) ==> Grammatical(x.d) && x.v == ExpVal(Tree(x.d))) &&
    (IsExp(x.s) ==> Level(below) <= Prec(x.d) && !Tighter(Prec(x.d), next))
  }

  function NextSym(xs: seq<Cell>, k: nat, input: seq<Token>): nat {
    if k + 1 < |xs| then SymOf(xs[k + 1].s) else Peek(input).sym
  }

  ghost predicate Stacked(c: Config, xs: seq<Cell>) {
    |xs| == |c.ss| == |c.vs| && forall k :: 0 <= k < |xs| ==> xs[k].s == c.ss[k] && xs[k].v == c.vs[k]
  }

  /** The stacks are the parse of what has been read of w so far. */
  ghost predicate Derived(c: Config, xs: seq<Cell>, w: seq<Token>) {
    Stacked(c, xs) &&
    (forall k :: 0 < k < |xs| ==> CellOk(xs[k - 1].s, xs[k], NextSym(xs, k, c.input))) &&
    (forall k :: 2 <= k < |xs| && 8 <= xs[k].s <= 14 ==> Level(xs[k - 2].s) <= xs[k].s - 7) &&
    (|xs| > 1 && xs[1].s == 25 ==> c.res == Some(Tree(xs[1].d))) &&
    Frontier(xs) + c.input == w
  }

  // ---------- what the tables say about precedence ----------

  /** Only an operator that may be part of an expression begun in s is shifted after it. */
  lemma ShiftedFits(s: nat, sym: nat)
    requires Expects(s) && QM <= sym <= MULOP2 && Decide(GotoState(2, s), sym).Shift?
    ensures sym - 2 >= Level(s)
  {
  }

  lemma ShiftedSym(s: nat, sym: nat)
    requires Decide(s, sym).Shift?
    ensures SymOf(Decide(s, sym).state) == sym
  {
    if s in {5, 7, 16, 24} {
    } else if YyPact(s) == -9 {
    }
  }

  /** A complete operation is reduced only when no tighter operator follows. */
  lemma ReducedStops(r: nat, sym: nat)
    requires 2 <= r <= 8 && Decide(if r == 2 then 24 else r + 14, sym) == Reduce(r)
    ensures !Tighter(if r == 2 then 1 else r - 1, sym)
  {
  }

  // ---------- one move ----------

  lemma DerivedShift(c: Config, xs: seq<Cell>, w: seq<Token>, t: nat) returns (ys: seq<Cell>)
    requires Inv(c) && Derived(c, xs, w) && Step(c).Running?
    requires Decide(c.ss[|c.ss| - 1], Peek(c.input).sym) == Shift(t)
    ensures Derived(Step(c).c, ys, w)
  {
    hide Decide, IsExp, Link, Piece, Frontier, Tighter, Level, SymOf, ValOk, Grammatical, Tree, Prec, CellOk, NextSym;
    var tok, m := Peek(c.input), |xs|;
    var x := Cell(t, tok.val, SVar);
    ys := xs + [x];
    ShiftPiece(c, x);
    assert 8 <= t <= 14 ==> m >= 2 && Level(xs[m - 2].s) <= t - 7 by {
      if 8 <= t <= 14 {
        OperatorOnExp(c, t);
      }
    }
    var c' := Step(c).c;
    assert c'.ss == c.ss + [t] && c'.vs == c.vs + [tok.val] && c'.res == c.res;
    FrontierPush(xs, x, c'.input);
    CellsPushed(xs, x, c.input, c'.input);
  }

  lemma FrontierPush(xs: seq<Cell>, x: Cell, rest: seq<Token>)
    ensures Frontier(xs + [x]) + rest == Frontier(xs) + (Piece(x) + rest)
  {
    hide Frontier, Piece;
    FrontierConcat(xs, [x]);
    FrontierOne(x);
    Assoc(Frontier(xs), Piece(x), rest);
  }

  lemma CellsPushed(xs: seq<Cell>, x: Cell, input: seq<Token>, rest: seq<Token>)
    requires forall k :: 0 < k < |xs| ==> CellOk(xs[k - 1].s, xs[k], NextSym(xs, k, input))
    requires SymOf(x.s) == Peek(input).sym && !HasSrc(x.s)
    ensures forall k :: 0 < k < |xs| + 1 ==> CellOk((xs + [x])[k - 1].s, (xs + [x])[k], NextSym(xs + [x], k, rest))
  {
    hide SymOf, Grammatical, Level, Tighter, Prec;
    var ys := xs + [x];
    forall k | 0 < k < |ys| ensures CellOk(ys[k - 1].s, ys[k], NextSym(ys, k, rest)) {
      if k < |xs| {
        assert ys[k] == xs[k] && ys[k - 1] == xs[k - 1];
        assert NextSym(ys, k, rest) == NextSym(xs, k, input);
      }
    }
  }

  lemma FrontierOne(x: Cell)
    ensures Frontier([x]) == Piece(x)
  {
    assert [x][..0] == [];
  }

  /** A shifted token is the piece of the new position. */
  lemma ShiftPiece(c: Config, x: Cell)
    requires Inv(c) && Step(c).Running? && Decide(c.ss[|c.ss| - 1], Peek(c.input).sym) == Shift(x.s) && x.v == Peek(c.input).val
    ensures Piece(x) + Step(c).c.input == c.input
    ensures SymOf(x.s) == Peek(c.input).sym && !HasSrc(x.s)
  {
    hide Decide, IsExp, Link;
    assert c.input == [] || Peek(c.input) in c.input;
    ShiftLinks(c.ss[|c.ss| - 1], Peek(c.input));
    ShiftedSym(c.ss[|c.ss| - 1], Peek(c.input).sym);
    assert Step(c).c.input == if c.input == [] then [] else c.input[1..];
  }

  /** A binary operator or '?' is shifted only where it may extend the expression before it. */
  lemma OperatorOnExp(c: Config, t: nat)
    requires Inv(c) && 8 <= t <= 14 && Decide(c.ss[|c.ss| - 1], Peek(c.input).sym) == Shift(t)
    ensures |c.ss| >= 2 && Level(c.ss[|c.ss| - 2]) <= t - 7
  {
    hide Decide, GotoState, Level;
    var m := |c.ss|;
    assert c.input == [] || Peek(c.input) in c.input;
    ShiftLinks(c.ss[m - 1], Peek(c.input));
    ShiftedSym(c.ss[m - 1], Peek(c.input).sym);
    assert Link(c.ss[m - 2], c.ss[m - 1]);
    ShiftedFits(c.ss[m - 2], Peek(c.input).sym);
  }

  /** What was written where rule r is reduced, as one expression. */
  ghost predicate Builds(c: Config, xs: seq<Cell>, r: nat, d: Src)
    requires Stacked(c, xs)
  {
    0 < YyR2(r) < |xs| &&
    Act(r, c.vs[|xs| - YyR2(r)..]) == Some(ExpVal(Tree(d))) &&
    Frontier(xs[|xs| - YyR2(r)..]) == Tokens(d) &&
    Grammatical(d) && Level(c.ss[|xs| - 1 - YyR2(r)]) <= Prec(d) && !Tighter(Prec(d), Peek(c.input).sym)
  }

  lemma FrontierTwo(x: Cell, y: Cell)
    ensures Frontier([x, y]) == Piece(x) + Piece(y)
  {
    FrontierConcat([x], [y]);
    FrontierOne(x);
    FrontierOne(y);
    assert [x] + [y] == [x, y];
  }

  lemma FrontierThree(x: Cell, y: Cell, z: Cell)
    ensures Frontier([x, y, z]) == Piece(x) + Piece(y) + Piece(z)
  {
    FrontierConcat([x, y], [z]);
    FrontierTwo(x, y);
    FrontierOne(z);
    assert [x, y] + [z] == [x, y, z];
  }

  lemma LeafActs(s: nat, r: nat, v: Val) returns (d: Src)
    requires Handle(s, r) && (r == 10 || r == 11) && ValOk(s, v)
    ensures YyR2(r) == 1 && Act(r, [v]) == Some(ExpVal(Tree(d))) && Tokens(d) == [Token(SymOf(s), v)]
    ensures Grammatical(d) && Prec(d) == 9 && s in {2, 3}
  {
    d := if r == 10 then SVar else SNum(v.n);
  }

  lemma BuildLeaf(c: Config, xs: seq<Cell>, w: seq<Token>, r: nat) returns (d: Src)
    requires Inv(c) && Derived(c, xs, w) && Handle(c.ss[|c.ss| - 1], r) && (r == 10 || r == 11)
    ensures Builds(c, xs, r, d)
  {
    hide Act, Tokens, Tree, Grammatical, Prec, YyR2, GotoState, Level, Link, Frontier, CellOk, SymOf, ValOk;
    var m := |xs|;
    d := LeafActs(c.ss[m - 1], r, c.vs[m - 1]);
    LevelBound(c.ss[m - 2]);
    LastAlone(xs);
    LastAlone(c.vs);
    FrontierOne(xs[m - 1]);
    TokenPiece(xs[m - 1]);
  }

  lemma LevelBound(s: nat)
    ensures Level(s) <= 8
  {
  }

  /** The piece of a position entered by a shift. */
  lemma TokenPiece(x: Cell)
    requires x.s in {1, 2, 3, 4, 15}
    ensures Piece(x) == [Token(SymOf(x.s), x.v)]
  {
  }

  lemma NotTop(c: Config, xs: seq<Cell>, w: seq<Token>)
    requires Inv(c) && Derived(c, xs, w) && c.ss[|c.ss| - 1] == 6
    ensures |xs| >= 3 && xs[|xs| - 2].s == 1 && xs[|xs| - 2].v.NoVal? && xs[|xs| - 1].s == 6
    ensures CellOk(1, xs[|xs| - 1], Peek(c.input).sym) && Expects(xs[|xs| - 3].s)
  {
    hide GotoState, Grammatical, Tree, Prec, Act, Decide;
    var m := |xs|;
    HandleBelow(c, 9);
    assert Link(c.ss[m - 2], c.ss[m - 1]) && ValOk(c.ss[m - 2], c.vs[m - 2]);
    OnExp(c.ss[m - 2], c.ss[m - 1]);
    assert CellOk(xs[m - 2].s, xs[m - 1], NextSym(xs, m - 1, c.input));
  }

  lemma NotBuilt(x: Cell, y: Cell, next: nat)
    requires x.s == 1 && x.v.NoVal? && y.s == 6 && CellOk(1, y, next)
    ensures Act(9, [x.v, y.v]) == Some(ExpVal(Tree(SNot(y.d)))) && Frontier([x, y]) == Tokens(SNot(y.d))
    ensures Grammatical(SNot(y.d)) && !Tighter(Prec(SNot(y.d)), next)
  {
    hide GotoState, Decide;
    FrontierTwo(x, y);
  }

  lemma BuildNot(c: Config, xs: seq<Cell>, w: seq<Token>) returns (d: Src)
    requires Inv(c) && Derived(c, xs, w) && c.ss[|c.ss| - 1] == 6
    ensures Builds(c, xs, 9, d)
  {
    hide GotoState, Decide, Act, Tokens, Tree, Grammatical, Level, Link, Frontier, CellOk, SymOf, ValOk, Inv, Tighter;
    var m := |xs|;
    NotTop(c, xs, w);
    d := SNot(xs[m - 1].d);
    NotBuilt(xs[m - 2], xs[m - 1], Peek(c.input).sym);
    LevelBound(xs[m - 3].s);
    assert xs[m - 2..] == [xs[m - 2], xs[m - 1]] && c.vs[m - 2..] == [c.vs[m - 2], c.vs[m - 1]];
  }

  lemma ParensTop(c: Config, xs: seq<Cell>, w: seq<Token>)
    requires Inv(c) && Derived(c, xs, w) && c.ss[|c.ss| - 1] == 15
    ensures |xs| >= 4 && xs[|xs| - 3].s == 4 && xs[|xs| - 2].s == 7
    ensures xs[|xs| - 3].v == NoVal && xs[|xs| - 1].v == NoVal
    ensures Grammatical(xs[|xs| - 2].d) && xs[|xs| - 2].v == ExpVal(Tree(xs[|xs| - 2].d))
  {
    hide GotoState, Grammatical, Tree, Prec, Level, Tighter;
    var m := |xs|;
    HandleBelow(c, 12);
    LinkAt(c, m - 1);
    LinkAt(c, m - 2);
    OnExp(c.ss[m - 3], c.ss[m - 2]);
    assert ValOk(c.ss[m - 1], c.vs[m - 1]) && ValOk(c.ss[m - 3], c.vs[m - 3]);
    assert CellOk(xs[m - 3].s, xs[m - 2], NextSym(xs, m - 2, c.input));
  }

  lemma BuildParens(c: Config, xs: seq<Cell>, w: seq<Token>) returns (d: Src)
    requires Inv(c) && Derived(c, xs, w) && c.ss[|c.ss| - 1] == 15
    ensures Builds(c, xs, 12, d)
  {
    hide GotoState, Level, Link, Inv, CellOk, Frontier, Decide;
    var m := |xs|;
    ParensTop(c, xs, w);
    LevelBound(c.ss[m - 4]);
    d := SParen(xs[m - 2].d);
    LastThree(xs);
    LastThree(c.vs);
    FrontierThree(xs[m - 3], xs[m - 2], xs[m - 1]);
    TokenPiece(xs[m - 3]);
    TokenPiece(xs[m - 1]);
    ExpPiece(xs[m - 2]);
  }

  lemma LastThree<T>(s: seq<T>)
    requires |s| >= 3
    ensures s[|s| - 3..] == [s[|s| - 3], s[|s| - 2], s[|s| - 1]]
  {
  }

  /** The three topmost positions when a binary operation is reduced. */
  lemma BinaryTop(c: Config, xs: seq<Cell>, w: seq<Token>, r: nat)
    requires Inv(c) && Derived(c, xs, w) && Handle(c.ss[|c.ss| - 1], r) && 3 <= r <= 8
    ensures |xs| >= 4 && xs[|xs| - 2].s == r + 6
    ensures IsExp(xs[|xs| - 1].s) && IsExp(xs[|xs| - 3].s)
    ensures CellOk(xs[|xs| - 2].s, xs[|xs| - 1], Peek(c.input).sym)
    ensures CellOk(xs[|xs| - 4].s, xs[|xs| - 3], r + 1)
    ensures Level(xs[|xs| - 4].s) <= r - 1
    ensures ValOk(r + 6, xs[|xs| - 2].v)
  {
    hide GotoState, Grammatical, Tree, Prec;
    var m := |xs|;
    HandleBelow(c, r);
    assert Link(c.ss[m - 2], c.ss[m - 1]) && Link(c.ss[m - 3], c.ss[m - 2]);
    OnExp(c.ss[m - 2], c.ss[m - 1]);
    assert ValOk(c.ss[m - 2], c.vs[m - 2]);
    assert CellOk(xs[m - 2].s, xs[m - 1], NextSym(xs, m - 1, c.input));
    assert CellOk(xs[m - 4].s, xs[m - 3], NextSym(xs, m - 3, c.input));
  }

  /** A binary rule and the precedence of the operator it was reduced for. */
  lemma BinRule(r: nat, v: Val) returns (op: Op)
    requires 3 <= r <= 8 && ValOk(r + 6, v)
    ensures OpPrec(op) == r - 1 && OpToken(op) == Token(r + 1, v)
  {
    op := if r == 3 then LOr else if r == 4 then LAnd else v.op;
  }

  lemma BuildBin(c: Config, xs: seq<Cell>, w: seq<Token>, r: nat) returns (d: Src)
    requires Inv(c) && Derived(c, xs, w) && Handle(c.ss[|c.ss| - 1], r) && 3 <= r <= 8
    requires Decide(c.ss[|c.ss| - 1], Peek(c.input).sym) == Reduce(r)
    ensures Builds(c, xs, r, d)
  {
    hide GotoState, Decide, Act, OpPrec, OpToken, Level, Link, Inv, Frontier;
    var m := |xs|;
    BinaryTop(c, xs, w, r);
    var x, o, y := xs[m - 3], xs[m - 2], xs[m - 1];
    var op := BinRule(r, o.v);
    d := SBin(op, x.d, y.d);
    ReducedStops(r, Peek(c.input).sym);
    BinAct(op, Tree(x.d), Tree(y.d));
    LastThree(xs);
    LastThree(c.vs);
    FrontierThree(x, o, y);
    assert Level(r + 6) == r by {
      LevelOfOperator(r);
    }
  }

  lemma LevelOfOperator(r: nat)
    requires 3 <= r <= 8
    ensures Level(r + 6) == r
  {
  }

  /** The five topmost positions when a conditional is reduced. */
  lemma CondTop(c: Config, xs: seq<Cell>, w: seq<Token>)
    requires Inv(c) && Derived(c, xs, w) && c.ss[|c.ss| - 1] == 24
    ensures |xs| >= 6 && xs[|xs| - 4].s == 8 && xs[|xs| - 2].s == 23
    ensures IsExp(xs[|xs| - 1].s) && IsExp(xs[|xs| - 3].s) && IsExp(xs[|xs| - 5].s)
    ensures CellOk(23, xs[|xs| - 1], Peek(c.input).sym)
    ensures CellOk(8, xs[|xs| - 3], COLON)
    ensures CellOk(xs[|xs| - 6].s, xs[|xs| - 5], QM)
    ensures Level(xs[|xs| - 6].s) <= 1
    ensures xs[|xs| - 4].v == NoVal && xs[|xs| - 2].v == NoVal
  {
    hide GotoState, Grammatical, Tree, Prec, Level;
    var m := |xs|;
    HandleBelow(c, 2);
    assert Link(c.ss[m - 2], c.ss[m - 1]) && Link(c.ss[m - 3], c.ss[m - 2]) && Link(c.ss[m - 4], c.ss[m - 3]);
    OnExp(c.ss[m - 2], c.ss[m - 1]);
    OnExp(c.ss[m - 4], c.ss[m - 3]);
    assert Link(c.ss[m - 5], c.ss[m - 4]);
    assert ValOk(c.ss[m - 2], c.vs[m - 2]) && ValOk(c.ss[m - 4], c.vs[m - 4]);
    assert CellOk(xs[m - 2].s, xs[m - 1], NextSym(xs, m - 1, c.input));
    assert CellOk(xs[m - 4].s, xs[m - 3], NextSym(xs, m - 3, c.input));
    assert CellOk(xs[m - 6].s, xs[m - 5], NextSym(xs, m - 5, c.input));
  }

  lemma LastFive<T>(s: seq<T>)
    requires |s| >= 5
    ensures s[|s| - 5..] == [s[|s| - 5], s[|s| - 4], s[|s| - 3], s[|s| - 2], s[|s| - 1]]
  {
  }

  /** The tokens of a conditional, from its five pieces. */
  lemma CondFrontier(x: Cell, q: Cell, y: Cell, o: Cell, z: Cell)
    requires IsExp(x.s) && IsExp(y.s) && IsExp(z.s) && q.s == 8 && o.s == 23 && q.v == NoVal && o.v == NoVal
    ensures Frontier([x, q, y, o, z]) == Tokens(SCond(x.d, y.d, z.d))
  {
    hide Frontier;
    FrontierThree(x, q, y);
    FrontierTwo(o, z);
    FrontierConcat([x, q, y], [o, z]);
    assert [x, q, y] + [o, z] == [x, q, y, o, z];
    Assoc(Tokens(x.d) + Piece(q) + Tokens(y.d), Piece(o), Tokens(z.d));
  }

  lemma BuildCond(c: Config, xs: seq<Cell>, w: seq<Token>) returns (d: Src)
    requires Inv(c) && Derived(c, xs, w) && c.ss[|c.ss| - 1] == 24
    requires Decide(24, Peek(c.input).sym) == Reduce(2)
    ensures Builds(c, xs, 2, d)
  {
    hide GotoState, Decide, Level, Link, Inv, Act, OpPrec, Frontier, Tokens, Piece;
    var m := |xs|;
    CondTop(c, xs, w);
    var x, y, z := xs[m - 5], xs[m - 3], xs[m - 1];
    d := SCond(x.d, y.d, z.d);
    ElseFacts(Tree(x.d), Tree(y.d), Tree(z.d), EOF);
    ReducedStops(2, Peek(c.input).sym);
    LastFive(xs);
    LastFive(c.vs);
    CondFrontier(x, xs[m - 4], y, xs[m - 2], z);
  }

  lemma BuildAny(c: Config, xs: seq<Cell>, w: seq<Token>, r: nat) returns (d: Src)
    requires Inv(c) && Derived(c, xs, w) && Decide(c.ss[|c.ss| - 1], Peek(c.input).sym) == Reduce(r) && r != 1
    ensures Builds(c, xs, r, d)
  {
    hide Inv, Derived, Decide, Builds;
    assert c.ss != [] && Stacked(c, xs) by {
      InvFacts(c);
      DerivedFacts(c, xs, w);
    }
    ReduceHandle(c.ss[|c.ss| - 1], Peek(c.input).sym);
    match r {
      case 2 => d := BuildCond(c, xs, w);
      case 9 => d := BuildNot(c, xs, w);
      case 10 => d := BuildLeaf(c, xs, w, r);
      case 11 => d := BuildLeaf(c, xs, w, r);
      case 12 => d := BuildParens(c, xs, w);
      case _ => d := BuildBin(c, xs, w, r);
    }
  }

  lemma DerivedFacts(c: Config, xs: seq<Cell>, w: seq<Token>)
    requires Derived(c, xs, w)
    ensures Stacked(c, xs)
  {
  }

  lemma FrontierPop(xs: seq<Cell>, h: nat, x: Cell)
    requires h <= |xs| && Frontier(xs[h..]) == Piece(x)
    ensures Frontier(xs[..h] + [x]) == Frontier(xs)
  {
    hide Frontier, Piece;
    assert xs == xs[..h] + xs[h..];
    FrontierConcat(xs[..h], xs[h..]);
    FrontierConcat(xs[..h], [x]);
    FrontierOne(x);
  }

  lemma CellsPopped(xs: seq<Cell>, h: nat, x: Cell, input: seq<Token>)
    requires 0 < h < |xs| && !HasSrc(xs[h - 1].s) && CellOk(xs[h - 1].s, x, Peek(input).sym)
    requires forall k :: 0 < k < |xs| ==> CellOk(xs[k - 1].s, xs[k], NextSym(xs, k, input))
    ensures forall k :: 0 < k < h + 1 ==>
      CellOk((xs[..h] + [x])[k - 1].s, (xs[..h] + [x])[k], NextSym(xs[..h] + [x], k, input))
  {
    hide SymOf, Grammatical, Level, Tighter, Prec;
    var ys := xs[..h] + [x];
    forall k | 0 < k < h + 1 ensures CellOk(ys[k - 1].s, ys[k], NextSym(ys, k, input)) {
      assert ys[k - 1] == xs[k - 1];
      if k < h {
        assert ys[k] == xs[k];
        assert CellOk(xs[k - 1].s, xs[k], NextSym(xs, k, input));
      }
    }
  }

  lemma DerivedPop(c: Config, xs: seq<Cell>, w: seq<Token>, r: nat) returns (ys: seq<Cell>)
    requires Inv(c) && Derived(c, xs, w) && Step(c).Running?
    requires Decide(c.ss[|c.ss| - 1], Peek(c.input).sym) == Reduce(r) && r != 1
    ensures Derived(Step(c).c, ys, w)
  {
    hide GotoState, Decide, Act, Level, Link, IsExp, SymOf, ValOk, Frontier, Piece, Grammatical, Tighter, Prec, Tree,
      NextSym, Tokens;
    var d := BuildAny(c, xs, w, r);
    var h := |xs| - YyR2(r);
    ReduceHandle(c.ss[|c.ss| - 1], Peek(c.input).sym);
    HandleBelow(c, r);
    var x := Cell(GotoState(r, c.ss[h - 1]), ExpVal(Tree(d)), d);
    NewExp(c.ss[h - 1], r);
    NotExp(c.ss[h - 1]);
    ExpPiece(x);
    hide CellOk;
    ys := xs[..h] + [x];
    var c' := Step(c).c;
    assert c'.ss == c.ss[..h] + [x.s] && c'.vs == c.vs[..h] + [x.v] && c'.input == c.input && c'.res == c.res;
    FrontierPop(xs, h, x);
    NewCell(c.ss[h - 1], x, Peek(c.input).sym);
    CellsPopped(xs, h, x, c.input);
  }

  lemma NewCell(below: nat, x: Cell, next: nat)
    requires IsExp(x.s) && x.v == ExpVal(Tree(x.d)) && Grammatical(x.d) && Level(below) <= Prec(x.d) && !Tighter(Prec(x.d), next)
    ensures CellOk(below, x, next)
  {
  }

  lemma NewExp(s: nat, r: nat)
    requires Expects(s) && r != 1
    ensures IsExp(GotoState(r, s)) && GotoState(r, s) != 25 && !(8 <= GotoState(r, s) <= 14)
  {
    GotoIsUniform(r, s);
    GotoFacts(s);
  }

  lemma ExpPiece(x: Cell)
    requires IsExp(x.s)
    ensures Piece(x) == Tokens(x.d)
  {
  }

  lemma NotExp(s: nat)
    requires Expects(s)
    ensures !IsExp(s) && s != 25
  {
  }

  /** Rule 1: the whole input has been one expression. */
  lemma DerivedStart(c: Config, xs: seq<Cell>, w: seq<Token>) returns (ys: seq<Cell>)
    requires Inv(c) && Derived(c, xs, w) && Step(c).Running?
    requires Decide(c.ss[|c.ss| - 1], Peek(c.input).sym) == Reduce(1)
    ensures Derived(Step(c).c, ys, w)
  {
    hide Decide, Frontier, Tokens;
    ReduceHandle(c.ss[|c.ss| - 1], Peek(c.input).sym);
    HandleBelow(c, 1);
    var x := Cell(25, xs[1].v, xs[1].d);
    ys := [xs[0], x];
    assert CellOk(xs[0].s, xs[1], NextSym(xs, 1, c.input));
    assert xs == [xs[0], xs[1]];
    FrontierTwo(xs[0], xs[1]);
    FrontierTwo(xs[0], x);
    assert c.vs[1..] == [xs[1].v];
    var c' := Step(c).c;
    assert c'.ss == [0, 25] && c'.vs == [c.vs[0], xs[1].v] && c'.input == c.input && c'.res == Some(Tree(xs[1].d));
  }

  lemma DerivedAccept(c: Config, xs: seq<Cell>, w: seq<Token>) returns (d: Src)
    requires Inv(c) && Derived(c, xs, w) && Step(c).Accepted?
    ensures Grammatical(d) && Tokens(d) == w && Tree(d) == Step(c).e
  {
    hide Frontier, Tokens, Decide;
    AcceptFacts(c);
    assert CellOk(xs[0].s, xs[1], NextSym(xs, 1, c.input));
    d := xs[1].d;
    assert xs == [xs[0], xs[1], xs[2]];
    FrontierThree(xs[0], xs[1], xs[2]);
  }

  lemma {:induction false} RunIsSound(c: Config, xs: seq<Cell>, w: seq<Token>) returns (d: Src)
    requires Inv(c) && Derived(c, xs, w) && Run(c).Accepted?
    ensures Grammatical(d) && Tokens(d) == w && Tree(d) == Run(c).e
    decreases Measure(c)
  {
    StepKeeps(c);
    hide Inv, Derived, Measure, Decide, Pop;
    if Step(c).Running? {
      var ys: seq<Cell>;
      InvFacts(c);
      var a := Decide(c.ss[|c.ss| - 1], Peek(c.input).sym);
      if a.Shift? {
        ys := DerivedShift(c, xs, w, a.state);
      } else if a == Reduce(1) {
        ys := DerivedStart(c, xs, w);
      } else {
        ys := DerivedPop(c, xs, w, a.rule);
      }
      d := RunIsSound(Step(c).c, ys, w);
    } else {
      d := DerivedAccept(c, xs, w);
    }
  }

  /** yyparse decides C's grammar of plural expressions: it returns e exactly when the tokens
      are a way to write e, with whatever parentheses, that the stacks have room for. */
  lemma AcceptsExactly(w: seq<Token>, e: Exp)
    requires forall t :: t in w ==> TokenOk(t)
    ensures Inv(Start(w))
    ensures Run(Start(w)) == Accepted(e) <==>
      exists d :: Grammatical(d) && Tokens(d) == w && Tree(d) == e && 1 + Need(d) < YYMAXDEPTH
  {
    hide Tokens, Need, Grammatical, Tree;
    StartInv(w);
    if Run(Start(w)) == Accepted(e) {
      var xs := [Cell(0, NoVal, SVar)];
      FrontierOne(xs[0]);
      var d := RunIsSound(Start(w), xs, w);
      var n := WrittenIsParsed(d);
      RunIsStepN(Start(w), n);
    }
    forall d | Grammatical(d) && Tokens(d) == w && Tree(d) == e && 1 + Need(d) < YYMAXDEPTH
      ensures Run(Start(w)) == Accepted(e)
    {
      var n := WrittenIsParsed(d);
      RunIsStepN(Start(w), n);
    }
  }
}
