/** Plural-form expressions of message catalogs: their trees, their value, their text. */
module Plural {
  import opened Common

  datatype Op =
    | Mult | Divide | Module | Plus | Minus
    | Less | Greater | LessEq | GreaterEq | Equal | NotEqual
    | LAnd | LOr

  datatype Exp =
    | Var
    | Num(n: nat)
    | Not(arg: Exp)
    | Bin(op: Op, left: Exp, right: Exp)
    | Cond(test: Exp, yes: Exp, no: Exp)

  /** unsigned long */
  const WORD := 0x1_0000_0000_0000_0000

  function Bool(b: bool): (r: nat)
    ensures r <= 1
  {
    if b then 1 else 0
  }

  /** The arithmetic of plural_eval; None is the division by zero that raises SIGFPE. */
  function Apply(op: Op, a: nat, b: nat): Option<nat> {
    match op
    case Mult => Some((a * b) % WORD)
    case Divide => if b == 0 then None else Some(a / b)
    case Module => if b == 0 then None else Some(a % b)
    case Plus => Some((a + b) % WORD)
    case Minus => Some((a - b) % WORD)
    case Less => Some(Bool(a < b))
    case Greater => Some(Bool(a > b))
    case LessEq => Some(Bool(a <= b))
    case GreaterEq => Some(Bool(a >= b))
    case Equal => Some(Bool(a == b))
    case NotEqual => Some(Bool(a != b))
    case LAnd => Some(Bool(a != 0 && b != 0))
    case LOr => Some(Bool(a != 0 || b != 0))
  }

  /** plural_eval: logical operators do not evaluate a right argument they do not need. */
  function Eval(e: Exp, n: nat): Option<nat> {
    match e
    case Var => Some(n)
    case Num(k) => Some(k)
    case Not(x) =>
      (match Eval(x, n)
       case None => None
       case Some(v) => Some(Bool(v == 0)))
    case Bin(op, l, r) =>
      (match Eval(l, n)
       case None => None
       case Some(a) =>
         if op == LOr && a != 0 then Some(1)
         else if op == LAnd && a == 0 then Some(0)
         else
           match Eval(r, n)
           case None => None
           case Some(b) => Apply(op, a, b))
    case Cond(c, t, f) =>
      (match Eval(c, n)
       case None => None
       case Some(v) => if v != 0 then Eval(t, n) else Eval(f, n))
  }

  /** An expression as it is written: a tree with its parentheses. */
  datatype Src =
    | SVar
    | SNum(n: nat)
    | SNot(arg: Src)
    | SBin(op: Op, left: Src, right: Src)
    | SCond(test: Src, yes: Src, no: Src)
    | SParen(inner: Src)

  /** The meaning of what is written: parentheses only group. */
  function Tree(d: Src): Exp {
    match d
    case SVar => Var
    case SNum(k) => Num(k)
    case SNot(x) => Not(Tree(x))
    case SBin(op, l, r) => Bin(op, Tree(l), Tree(r))
    case SCond(c, t, f) => Cond(Tree(c), Tree(t), Tree(f))
    case SParen(x) => Tree(x)
  }

  /** C precedence, from ?: (1) to the operands (9). */
  function OpPrec(op: Op): (p: nat)
    ensures 2 <= p <= 7
  {
    match op
    case LOr => 2
    case LAnd => 3
    case Equal => 4
    case NotEqual => 4
    case Less => 5
    case Greater => 5
    case LessEq => 5
    case GreaterEq => 5
    case Plus => 6
    case Minus => 6
    case _ => 7
  }

  function Prec(d: Src): (p: nat)
    ensures 1 <= p <= 9
  {
    match d
    case SVar => 9
    case SNum(_) => 9
    case SNot(_) => 8
    case SBin(op, _, _) => OpPrec(op)
    case SCond(_, _, _) => 1
    case SParen(_) => 9
  }

  /** C's grammar: binary operators group to the left, ?: to the right, and an operand that
      binds less tightly than its place demands stands in parentheses. */
  predicate Grammatical(d: Src) {
    match d
    case SVar => true
    case SNum(_) => true
    case SNot(x) => Grammatical(x) && Prec(x) >= 8
    case SBin(op, l, r) => Grammatical(l) && Grammatical(r) && Prec(l) >= OpPrec(op) && Prec(r) > OpPrec(op)
    case SCond(c, t, f) => Grammatical(c) && Grammatical(t) && Grammatical(f) && Prec(c) >= 2
    case SParen(x) => Grammatical(x)
  }

  /** e written with no more parentheses than it needs where precedence p is demanded. */
  function Written(e: Exp, p: nat): (d: Src)
    decreases e, 1
  {
    var d := WrittenBody(e);
    if Prec(d) >= p then d else SParen(d)
  }

  function WrittenBody(e: Exp): Src
    decreases e, 0
  {
    match e
    case Var => SVar
    case Num(k) => SNum(k)
    case Not(x) => SNot(Written(x, 8))
    case Bin(op, l, r) => SBin(op, Written(l, OpPrec(op)), Written(r, OpPrec(op) + 1))
    case Cond(c, t, f) => SCond(Written(c, 2), Written(t, 1), Written(f, 1))
  }

  lemma WrittenIsGrammatical(e: Exp, p: nat)
    requires p <= 9
    ensures Grammatical(Written(e, p)) && Tree(Written(e, p)) == e && Prec(Written(e, p)) >= p
    decreases e, 1
  {
    hide WrittenBody;
    BodyIsGrammatical(e);
  }

  lemma {:induction false} BodyIsGrammatical(e: Exp)
    ensures Grammatical(WrittenBody(e)) && Tree(WrittenBody(e)) == e
    decreases e, 0
  {
    hide OpPrec, Written;
    match e
    case Var =>
    case Num(_) =>
    case Not(x) => WrittenIsGrammatical(x, 8);
    case Bin(op, l, r) =>
      WrittenIsGrammatical(l, OpPrec(op));
      WrittenIsGrammatical(r, OpPrec(op) + 1);
    case Cond(c, t, f) =>
      WrittenIsGrammatical(c, 2);
      WrittenIsGrammatical(t, 1);
      WrittenIsGrammatical(f, 1);
  }

  // Symbol numbers of the Bison tables (yytname).
  const EOF := 0
  const QM := 3
  const OR := 4
  const AND := 5
  const EQUOP2 := 6
  const CMPOP2 := 7
  const ADDOP2 := 8
  const MULOP2 := 9
  const NOT := 10
  const NUMBER := 11
  const COLON := 12
  const N := 13
  const LPAR := 14
  const RPAR := 15

  /** YYSTYPE */
  datatype Val = NoVal | NumVal(n: nat) | OpVal(op: Op) | ExpVal(e: Exp)

  datatype Token = Token(sym: nat, val: Val)

  /** '|' and '&' carry no value; the lexer sets lval->op for the other operators. */
  function OpToken(op: Op): (t: Token)
    ensures t.sym == OpPrec(op) + 2
  {
    Token(OpPrec(op) + 2, if op == LOr || op == LAnd then NoVal else OpVal(op))
  }

  /** The tokens of an expression as written. */
  function Tokens(d: Src): (r: seq<Token>)
    ensures r != []
  {
    match d
    case SVar => [Token(N, NoVal)]
    case SNum(k) => [Token(NUMBER, NumVal(k))]
    case SNot(x) => [Token(NOT, NoVal)] + Tokens(x)
    case SBin(op, l, r) => Tokens(l) + [OpToken(op)] + Tokens(r)
    case SCond(c, t, f) =>
      Tokens(c) + [Token(QM, NoVal)] + Tokens(t) + [Token(COLON, NoVal)] + Tokens(f)
    case SParen(x) => [Token(LPAR, NoVal)] + Tokens(x) + [Token(RPAR, NoVal)]
  }
}

/** yyparse of intl/plural.c, driven by its tables. */
module PluralParser {
  import opened Common
  import opened Plural

  const YYFINAL := 27
  const YYLAST := 53
  const YYFLAG := -32768
  const YYMAXDEPTH := 10000

  // The tables, one function each, with 0 (or YYFLAG) outside their range.

  function YyTable(i: int): int {
    match i
    case 0 => 6
    case 1 => 1 case 2 => 2 case 3 => 7 case 4 => 3 case 5 => 4
    case 6 => 14 case 7 => 16 case 8 => 17 case 9 => 18 case 10 => 19
    case 11 => 20 case 12 => 21 case 13 => 22 case 14 => 8 case 15 => 9
    case 16 => 10 case 17 => 11 case 18 => 12 case 19 => 13 case 20 => 14
    case 21 => 26 case 22 => 24 case 23 => 12 case 24 => 13 case 25 => 14
    case 26 => 15 case 27 => 8 case 28 => 9 case 29 => 10 case 30 => 11
    case 31 => 12 case 32 => 13 case 33 => 14 case 34 => 13 case 35 => 14
    case 36 => 23 case 37 => 8 case 38 => 9 case 39 => 10 case 40 => 11
    case 41 => 12 case 42 => 13 case 43 => 14 case 44 => 10 case 45 => 11
    case 46 => 12 case 47 => 13 case 48 => 14 case 49 => 11 case 50 => 12
    case 51 => 13 case 52 => 14 case 53 => 27
    case _ => 0
  }

  function YyCheck(i: int): int {
    match i
    case 0 => 1
    case 1 => 10 case 2 => 11 case 3 => 4 case 4 => 13 case 5 => 14
    case 6 => 9 case 7 => 8 case 8 => 9 case 9 => 10 case 10 => 11
    case 11 => 12 case 12 => 13 case 13 => 14 case 14 => 3 case 15 => 4
    case 16 => 5 case 17 => 6 case 18 => 7 case 19 => 8 case 20 => 9
    case 21 => 0 case 22 => 23 case 23 => 7 case 24 => 8 case 25 => 9
    case 26 => 15 case 27 => 3 case 28 => 4 case 29 => 5 case 30 => 6
    case 31 => 7 case 32 => 8 case 33 => 9 case 34 => 8 case 35 => 9
    case 36 => 12 case 37 => 3 case 38 => 4 case 39 => 5 case 40 => 6
    case 41 => 7 case 42 => 8 case 43 => 9 case 44 => 5 case 45 => 6
    case 46 => 7 case 47 => 8 case 48 => 9 case 49 => 6 case 50 => 7
    case 51 => 8 case 52 => 9 case 53 => 0
    case _ => -1
  }

  function YyPact(s: nat): int {
    match s
    case 0 => -9
    case 1 => -9 case 4 => -9 case 5 => 34 case 7 => 11 case 8 => -9
    case 9 => -9 case 10 => -9 case 11 => -9 case 12 => -9 case 13 => -9
    case 14 => -9 case 16 => 24 case 17 => 39 case 18 => 43 case 19 => 16
    case 20 => 26 case 21 => -3 case 23 => -9 case 24 => 34 case 25 => 21
    case 26 => 53
    case _ => YYFLAG
  }

  function YyDefact(s: nat): (r: nat)
    ensures r <= 12
  {
    match s
    case 2 => 11 case 3 => 10 case 5 => 1 case 6 => 9 case 15 => 12
    case 17 => 3 case 18 => 4 case 19 => 5 case 20 => 6 case 21 => 7
    case 22 => 8 case 24 => 2
    case _ => 0
  }

  /** yyr2: the length of the right-hand side of a rule. */
  function YyR2(r: nat): nat {
    match r
    case 1 => 1 case 2 => 5 case 3 => 3 case 4 => 3 case 5 => 3 case 6 => 3
    case 7 => 3 case 8 => 3 case 9 => 2 case 10 => 1 case 11 => 1 case 12 => 3
    case _ => 0
  }

  /** yypgoto and yydefgoto: rule 1 reduces to start, every other rule to exp. */
  function GotoState(r: nat, s: nat): nat {
    if r == 1 then 25
    else
      var i := s - 1;
      if 0 <= i <= YYLAST && YyCheck(i) == s && YyTable(i) >= 0 then YyTable(i) else 5
  }

  datatype Action = Shift(state: nat) | Reduce(rule: nat) | Accept | Fail

  /** From yybackup to the decision what to do with the next symbol. */
  function Decide(s: nat, sym: nat): Action {
    var i := YyPact(s) + sym;
    if YyPact(s) == YYFLAG || i < 0 || i > YYLAST || YyCheck(i) != sym then
      if YyDefact(s) == 0 then Fail else Reduce(YyDefact(s))
    else
      var t := YyTable(i);
      if t <= 0 then Fail
      else if t == YYFINAL then Accept
      else Shift(t)
  }

  /** The semantic actions; None stands for a read of a union member that was not stored. */
  function Act(r: nat, args: seq<Val>): Option<Val>
    requires |args| == YyR2(r)
  {
    match r
    case 1 => if args[0].ExpVal? then Some(args[0]) else None
    case 2 =>
      if args[0].ExpVal? && args[2].ExpVal? && args[4].ExpVal?
      then Some(ExpVal(Cond(args[0].e, args[2].e, args[4].e))) else None
    case 3 =>
      if args[0].ExpVal? && args[2].ExpVal? then Some(ExpVal(Bin(LOr, args[0].e, args[2].e))) else None
    case 4 =>
      if args[0].ExpVal? && args[2].ExpVal? then Some(ExpVal(Bin(LAnd, args[0].e, args[2].e))) else None
    case 9 => if args[1].ExpVal? then Some(ExpVal(Not(args[1].e))) else None
    case 10 => Some(ExpVal(Var))
    case 11 => if args[0].NumVal? then Some(ExpVal(Num(args[0].n))) else None
    case 12 => if args[1].ExpVal? then Some(args[1]) else None
    case _ =>
      if |args| == 3 && args[0].ExpVal? && args[1].OpVal? && args[2].ExpVal?
      then Some(ExpVal(Bin(args[1].op, args[0].e, args[2].e))) else None
  }

  /** The state stack, the value stack beside it, the tokens not yet shifted, and res. */
  datatype Config = Config(ss: seq<nat>, vs: seq<Val>, input: seq<Token>, res: Option<Exp>)

  datatype Outcome = Running(c: Config) | Accepted(e: Exp) | Aborted | Overflow | Corrupt

  function Peek(input: seq<Token>): Token {
    if input == [] then Token(EOF, NoVal) else input[0]
  }

  /** From one yynewstate to the next.  Corrupt stands for a pop beyond the bottom of a stack
      or a value of the wrong kind. */
  function Step(c: Config): Outcome {
    if c.ss == [] || |c.vs| != |c.ss| then Corrupt
    else if |c.ss| >= YYMAXDEPTH then Overflow
    else
      match Decide(c.ss[|c.ss| - 1], Peek(c.input).sym)
      case Fail => Aborted
      case Accept => if c.res.Some? then Accepted(c.res.value) else Corrupt
      case Shift(t) =>
        Running(Config(c.ss + [t], c.vs + [Peek(c.input).val],
                       if c.input == [] then [] else c.input[1..], c.res))
      case Reduce(r) => Pop(c, r)
  }

  /** yyreduce */
  function Pop(c: Config, r: nat): Outcome
    requires |c.vs| == |c.ss|
  {
    var len := YyR2(r);
    if |c.ss| <= len then Corrupt
    else
      var h := |c.ss| - len;
      match Act(r, c.vs[h..])
      case None => Corrupt
      case Some(v) =>
        Running(Config(c.ss[..h] + [GotoState(r, c.ss[h - 1])], c.vs[..h] + [v], c.input,
                       if r == 1 && v.ExpVal? then Some(v.e) else c.res))
  }

  function StepN(c: Config, n: nat): Outcome
    decreases n
  {
    if n == 0 then Running(c)
    else
      match Step(c)
      case Running(c') => StepN(c', n - 1)
      case o => o
  }

  lemma {:induction false} StepNAdd(c: Config, a: nat, b: nat, c': Config)
    requires StepN(c, a) == Running(c')
    ensures StepN(c, a + b) == StepN(c', b)
    decreases a
  {
    hide Step;
    if a > 0 {
      StepNAdd(Step(c).c, a - 1, b, c');
    }
  }

  function Start(tokens: seq<Token>): Config {
    Config([0], [NoVal], tokens, None)
  }

  // ---------- what the tables say, state by state ----------

  /** States in which an expression may begin. */
  predicate Expects(s: nat) {
    s in {0, 1, 4, 8, 9, 10, 11, 12, 13, 14, 23}
  }

  /** The lowest precedence that an expression begun in state s may have unparenthesised. */
  function Level(s: nat): nat {
    match s
    case 1 => 8
    case 9 => 3
    case 10 => 4
    case 11 => 5
    case 12 => 6
    case 13 => 7
    case 14 => 8
    case _ => 1
  }

  /** A symbol that may follow an expression printed at precedence p. */
  predicate Stops(p: nat, sym: nat) {
    sym in {EOF, RPAR, COLON} || (QM <= sym <= MULOP2 && sym - 2 <= p && (sym == QM ==> p >= 2))
  }

  lemma BeginFacts(s: nat)
    requires Expects(s)
    ensures Decide(s, NUMBER) == Shift(2) && Decide(s, N) == Shift(3)
    ensures Decide(s, NOT) == Shift(1) && Decide(s, LPAR) == Shift(4)
  {
    hide Decide;
    BeginAtom(s);
    BeginMark(s);
  }

  lemma BeginAtom(s: nat)
    requires Expects(s)
    ensures Decide(s, NUMBER) == Shift(2) && Decide(s, N) == Shift(3)
  {
  }

  lemma BeginMark(s: nat)
    requires Expects(s)
    ensures Decide(s, NOT) == Shift(1) && Decide(s, LPAR) == Shift(4)
  {
  }

  /** After an expression begun in s, an operator that binds at least as Level(s) is shifted. */
  lemma OperatorShifts(s: nat, sym: nat)
    requires Expects(s) && QM <= sym <= MULOP2 && sym - 2 >= Level(s)
    ensures Decide(GotoState(2, s), sym) == Shift(sym + 5) && Expects(sym + 5)
  {
  }

  /** After a complete binary operation, whatever may follow it reduces it. */
  lemma OperatorReduces(sym: nat, next: nat)
    requires OR <= sym <= MULOP2 && Stops(sym - 2, next)
    ensures Decide(GotoState(2, sym + 5), next) == Reduce(sym - 1)
  {
  }

  lemma GotoIsUniform(r: nat, s: nat)
    requires r != 1
    ensures GotoState(r, s) == GotoState(2, s)
  {
  }

  // ---------- single moves ----------

  lemma ShiftOne(ss: seq<nat>, vs: seq<Val>, tok: Token, rest: seq<Token>, res: Option<Exp>, t: nat)
    requires ss != [] && |vs| == |ss| < YYMAXDEPTH && Decide(ss[|ss| - 1], tok.sym) == Shift(t)
    ensures StepN(Config(ss, vs, [tok] + rest, res), 1) == Running(Config(ss + [t], vs + [tok.val], rest, res))
  {
    hide Decide;
    var c := Config(ss, vs, [tok] + rest, res);
    assert c.input[1..] == rest;
    assert StepN(Step(c).c, 0) == Step(c);
  }

  /** Reducing the states st and values args on top of ss and vs. */
  lemma ReduceOne(ss: seq<nat>, st: seq<nat>, vs: seq<Val>, args: seq<Val>, input: seq<Token>, res: Option<Exp>, r: nat, v: Val)
    requires ss != [] && |vs| == |ss| && |ss| + |st| < YYMAXDEPTH && st != [] && |args| == |st| == YyR2(r) && 2 <= r
    requires Decide(st[|st| - 1], Peek(input).sym) == Reduce(r) && Act(r, args) == Some(v)
    ensures StepN(Config(ss + st, vs + args, input, res), 1) ==
      Running(Config(ss + [GotoState(2, ss[|ss| - 1])], vs + [v], input, res))
  {
    hide Decide, Act, YyR2, GotoState;
    var c := Config(ss + st, vs + args, input, res);
    assert (ss + st)[..|ss|] == ss && (vs + args)[..|ss|] == vs && (vs + args)[|ss|..] == args;
    assert GotoState(r, ss[|ss| - 1]) == GotoState(2, ss[|ss| - 1]) by {
      GotoIsUniform(r, ss[|ss| - 1]);
    }
    assert StepN(Step(c).c, 0) == Step(c);
  }

  lemma OverflowOne(ss: seq<nat>, vs: seq<Val>, input: seq<Token>, res: Option<Exp>)
    requires |vs| == |ss| && |ss| >= YYMAXDEPTH
    ensures StepN(Config(ss, vs, input, res), 1) == Overflow
  {
  }

  // ---------- the parser undoes the printer ----------

  /** How much higher than at its start the stacks get while d is parsed. */
  function Need(d: Src): (k: nat)
    ensures k >= 1
  {
    match d
    case SVar => 1
    case SNum(_) => 1
    case SNot(x) => 1 + Need(x)
    case SBin(op, l, r) => Max(Need(l), 2 + Need(r))
    case SCond(c, t, f) => Max(Need(c), Max(2 + Need(t), 4 + Need(f)))
    case SParen(x) => Max(1 + Need(x), 3)
  }

  function Max(a: nat, b: nat): nat {
    if a > b then a else b
  }

  /** n moves from the given stacks turn the tokens into the value e, pushed with the state
      for exp, if the stacks can grow by need; otherwise they end in an overflow. */
  ghost predicate Yields(ss: seq<nat>, vs: seq<Val>, tokens: seq<Token>, rest: seq<Token>, res: Option<Exp>,
                         e: Exp, need: nat, n: nat)
    requires ss != []
  {
    StepN(Config(ss, vs, tokens + rest, res), n) == Ends(ss, vs, rest, res, e, need)
  }

  function Ends(ss: seq<nat>, vs: seq<Val>, rest: seq<Token>, res: Option<Exp>, e: Exp, need: nat): Outcome
    requires ss != []
  {
    if |ss| + need < YYMAXDEPTH
    then Running(Config(ss + [GotoState(2, ss[|ss| - 1])], vs + [ExpVal(e)], rest, res))
    else Overflow
  }

  /** d may be read next: it binds as tightly as the state below demands, and what follows
      does not belong to it. */
  ghost predicate Ready(ss: seq<nat>, vs: seq<Val>, d: Src, rest: seq<Token>) {
    ss != [] && |vs| == |ss| && Expects(ss[|ss| - 1]) && Grammatical(d) &&
    Level(ss[|ss| - 1]) <= Prec(d) && Stops(Prec(d), Peek(rest).sym)
  }

  lemma {:induction false} TokensUnfold(d: Src)
    ensures match d
      case SVar => Tokens(d) == [Token(N, NoVal)]
      case SNum(k) => Tokens(d) == [Token(NUMBER, NumVal(k))]
      case SNot(x) => Tokens(d) == [Token(NOT, NoVal)] + Tokens(x)
      case SBin(op, l, r) => Tokens(d) == Tokens(l) + [OpToken(op)] + Tokens(r)
      case SCond(c, t, f) => Tokens(d) == Tokens(c) + [Token(QM, NoVal)] + Tokens(t) + [Token(COLON, NoVal)] + Tokens(f)
      case SParen(x) => Tokens(d) == [Token(LPAR, NoVal)] + Tokens(x) + [Token(RPAR, NoVal)]
  {
    hide OpToken;
  }

  lemma {:induction false} TreeUnfolds(d: Src)
    ensures match d
      case SVar => true
      case SNum(_) => true
      case SNot(x) => Tree(d) == Not(Tree(x))
      case SBin(op, l, r) => Tree(d) == Bin(op, Tree(l), Tree(r))
      case SCond(c, t, f) => Tree(d) == Cond(Tree(c), Tree(t), Tree(f))
      case SParen(x) => Tree(d) == Tree(x)
  {
  }

  lemma {:induction false} NeedUnfolds(d: Src)
    ensures match d
      case SVar => Need(d) == 1
      case SNum(_) => Need(d) == 1
      case SNot(x) => Need(d) == 1 + Need(x)
      case SBin(_, l, r) => Need(d) == Max(Need(l), 2 + Need(r))
      case SCond(c, t, f) => Need(d) == Max(Need(c), Max(2 + Need(t), 4 + Need(f)))
      case SParen(x) => Need(d) == Max(1 + Need(x), 3)
  {
    hide Max;
    match d {
      case SVar =>
      case SNum(_) =>
      case SNot(_) =>
      case SBin(_, _, _) =>
      case SCond(_, _, _) =>
      case SParen(_) =>
    }
  }

  lemma {:induction false} ParseExp(d: Src, ss: seq<nat>, vs: seq<Val>, rest: seq<Token>, res: Option<Exp>) returns (n: nat)
    requires Ready(ss, vs, d, rest)
    ensures Yields(ss, vs, Tokens(d), rest, res, Tree(d), Need(d), n)
    decreases d, 1
  {
    hide Ready, Yields, Tokens, Need, Tree;
    TokensUnfold(d);
    TreeUnfolds(d);
    NeedUnfolds(d);
    match d {
      case SVar => n := ParseLeaf(d, Token(N, NoVal), 3, 10, ss, vs, rest, res);
      case SNum(k) => n := ParseLeaf(d, Token(NUMBER, NumVal(k)), 2, 11, ss, vs, rest, res);
      case SNot(x) => n := ParseNot(x, ss, vs, rest, res);
      case SBin(op, l, r) => n := ParseBin(op, l, r, ss, vs, rest, res);
      case SCond(c, t, f) => n := ParseCond(c, t, f, ss, vs, rest, res);
      case SParen(x) => n := ParseParens(x, ss, vs, rest, res);
    }
  }

  lemma ParseLeaf(d: Src, tok: Token, t: nat, r: nat, ss: seq<nat>, vs: seq<Val>, rest: seq<Token>, res: Option<Exp>) returns (n: nat)
    requires Ready(ss, vs, d, rest)
    requires (d == SVar && tok == Token(N, NoVal) && t == 3 && r == 10) ||
             (d.SNum? && tok == Token(NUMBER, NumVal(d.n)) && t == 2 && r == 11)
    ensures Yields(ss, vs, [tok], rest, res, Tree(d), 1, n)
  {
    hide StepN;
    var e := Tree(d);
    if |ss| >= YYMAXDEPTH {
      OverflowOne(ss, vs, [tok] + rest, res);
      n := 1;
    } else {
      BeginFacts(ss[|ss| - 1]);
      ShiftOne(ss, vs, tok, rest, res, t);
      if |ss| + 1 >= YYMAXDEPTH {
        OverflowOne(ss + [t], vs + [tok.val], rest, res);
      } else {
        ReduceOne(ss, [t], vs, [tok.val], rest, res, r, ExpVal(e));
      }
      StepNAdd(Config(ss, vs, [tok] + rest, res), 1, 1, Config(ss + [t], vs + [tok.val], rest, res));
      n := 2;
    }
  }

  /** The last operand is on the stack: one reduction ends the expression. */
  lemma ReduceAfter(c: Config, a: nat, ss: seq<nat>, st: seq<nat>, vs: seq<Val>, args: seq<Val>, x: Exp,
                    rest: seq<Token>, res: Option<Exp>, r: nat, e: Exp) returns (n: nat)
    requires ss != [] && |vs| == |ss| && st != [] && |st| == |args| && |ss| + |st| + 1 < YYMAXDEPTH
    requires |st| + 1 == YyR2(r) && 2 <= r
    requires StepN(c, a) ==
      Running(Config((ss + st) + [GotoState(2, st[|st| - 1])], (vs + args) + [ExpVal(x)], rest, res))
    requires Decide(GotoState(2, st[|st| - 1]), Peek(rest).sym) == Reduce(r)
    requires Act(r, args + [ExpVal(x)]) == Some(ExpVal(e))
    ensures StepN(c, n) == Running(Config(ss + [GotoState(2, ss[|ss| - 1])], vs + [ExpVal(e)], rest, res))
  {
    hide Decide, Act, GotoState, StepN;
    var g := GotoState(2, st[|st| - 1]);
    ReduceOne(ss, st + [g], vs, args + [ExpVal(x)], rest, res, r, ExpVal(e));
    assert (ss + st) + [g] == ss + (st + [g]) && (vs + args) + [ExpVal(x)] == vs + (args + [ExpVal(x)]);
    StepNAdd(c, a, 1, Config(ss + (st + [g]), vs + (args + [ExpVal(x)]), rest, res));
    n := a + 1;
  }

  /** An operand is on the stack: the next symbol is shifted onto it. */
  lemma ShiftAfter(c: Config, a: nat, ss: seq<nat>, vs: seq<Val>, tok: Token, rest: seq<Token>, res: Option<Exp>, t: nat)
    requires ss != [] && |vs| == |ss| < YYMAXDEPTH
    requires StepN(c, a) == Running(Config(ss, vs, [tok] + rest, res))
    requires Decide(ss[|ss| - 1], tok.sym) == Shift(t)
    ensures StepN(c, a + 1) == Running(Config(ss + [t], vs + [tok.val], rest, res))
  {
    hide Decide;
    ShiftOne(ss, vs, tok, rest, res, t);
    StepNAdd(c, a, 1, Config(ss, vs, [tok] + rest, res));
  }

  /** An operand is next in the input of the configuration reached by a moves from c. */
  lemma {:induction false} ParseNext(c: Config, a: nat, d: Src, ss: seq<nat>, vs: seq<Val>, rest: seq<Token>, res: Option<Exp>) returns (n: nat)
    requires Ready(ss, vs, d, rest)
    requires StepN(c, a) == Running(Config(ss, vs, Tokens(d) + rest, res))
    ensures StepN(c, n) == Ends(ss, vs, rest, res, Tree(d), Need(d))
    decreases d, 2
  {
    hide StepN, Ends, Tokens, Need;
    var b := ParseExp(d, ss, vs, rest, res);
    StepNAdd(c, a, b, Config(ss, vs, Tokens(d) + rest, res));
    n := a + b;
  }

  lemma {:induction false} ParseNot(x: Src, ss: seq<nat>, vs: seq<Val>, rest: seq<Token>, res: Option<Exp>) returns (n: nat)
    requires Ready(ss, vs, SNot(x), rest)
    ensures Yields(ss, vs, [Token(NOT, NoVal)] + Tokens(x), rest, res, Not(Tree(x)), 1 + Need(x), n)
    decreases x, 3
  {
    hide StepN, Tokens, Need;
    var tok := Token(NOT, NoVal);
    var c := Config(ss, vs, [tok] + (Tokens(x) + rest), res);
    assert ([tok] + Tokens(x)) + rest == c.input;
    if |ss| >= YYMAXDEPTH {
      OverflowOne(ss, vs, c.input, res);
      n := 1;
    } else {
      BeginFacts(ss[|ss| - 1]);
      ShiftOne(ss, vs, tok, Tokens(x) + rest, res, 1);
      n := ParseNext(c, 1, x, ss + [1], vs + [NoVal], rest, res);
      if |ss| + 1 + Need(x) < YYMAXDEPTH {
        n := ReduceAfter(c, n, ss, [1], vs, [NoVal], Tree(x), rest, res, 9, Not(Tree(x)));
      }
    }
  }

  lemma {:induction false} ParseParens(x: Src, ss: seq<nat>, vs: seq<Val>, rest: seq<Token>, res: Option<Exp>) returns (n: nat)
    requires Ready(ss, vs, SParen(x), rest)
    ensures Yields(ss, vs, [Token(LPAR, NoVal)] + Tokens(x) + [Token(RPAR, NoVal)], rest, res, Tree(x), Max(1 + Need(x), 3), n)
    decreases x, 3
  {
    hide StepN, Tokens, Need;
    var lpar, rpar := Token(LPAR, NoVal), Token(RPAR, NoVal);
    var c := Config(ss, vs, [lpar] + (Tokens(x) + ([rpar] + rest)), res);
    assert ([lpar] + Tokens(x) + [rpar]) + rest == c.input;
    if |ss| >= YYMAXDEPTH {
      OverflowOne(ss, vs, c.input, res);
      n := 1;
    } else {
      BeginFacts(ss[|ss| - 1]);
      ShiftOne(ss, vs, lpar, Tokens(x) + ([rpar] + rest), res, 4);
      n := ParseNext(c, 1, x, ss + [4], vs + [NoVal], [rpar] + rest, res);
      if |ss| + 1 + Need(x) < YYMAXDEPTH {
        n := CloseParens(c, n, Tree(x), ss, vs, rest, res);
      }
    }
  }

  lemma CloseParens(c: Config, a: nat, e: Exp, ss: seq<nat>, vs: seq<Val>, rest: seq<Token>, res: Option<Exp>) returns (n: nat)
    requires ss != [] && |vs| == |ss| && |ss| + 2 < YYMAXDEPTH
    requires StepN(c, a) ==
      Running(Config(ss + [4] + [7], vs + [NoVal] + [ExpVal(e)], [Token(RPAR, NoVal)] + rest, res))
    ensures StepN(c, n) == Ends(ss, vs, rest, res, e, 3)
  {
    hide StepN, GotoState;
    var st, args := [4, 7, 15], [NoVal, ExpVal(e), NoVal];
    ShiftAfter(c, a, ss + [4] + [7], vs + [NoVal] + [ExpVal(e)], Token(RPAR, NoVal), rest, res, 15);
    assert ss + [4] + [7] + [15] == ss + st && vs + [NoVal] + [ExpVal(e)] + [NoVal] == vs + args;
    if |ss| + 3 < YYMAXDEPTH {
      ReduceOne(ss, st, vs, args, rest, res, 12, ExpVal(e));
    } else {
      OverflowOne(ss + st, vs + args, rest, res);
    }
    StepNAdd(c, a + 1, 1, Config(ss + st, vs + args, rest, res));
    n := a + 2;
  }

  /** The action of a binary rule makes the node of the operator read. */
  lemma BinAct(op: Op, l: Exp, r: Exp)
    ensures YyR2(OpPrec(op) + 1) == 3
    ensures Act(OpPrec(op) + 1, [ExpVal(l), OpToken(op).val, ExpVal(r)]) == Some(ExpVal(Bin(op, l, r)))
  {
  }

  lemma {:induction false} ParseBin(op: Op, l: Src, r: Src, ss: seq<nat>, vs: seq<Val>, rest: seq<Token>, res: Option<Exp>) returns (n: nat)
    requires Ready(ss, vs, SBin(op, l, r), rest)
    ensures Yields(ss, vs, Tokens(l) + [OpToken(op)] + Tokens(r), rest, res, Bin(op, Tree(l), Tree(r)), Max(Need(l), 2 + Need(r)), n)
    decreases SBin(op, l, r), 0
  {
    hide StepN, GotoState, Tokens, Need, OpPrec, Decide;
    var rest1 := [OpToken(op)] + (Tokens(r) + rest);
    assert (Tokens(l) + [OpToken(op)] + Tokens(r)) + rest == Tokens(l) + rest1;
    n := ParseExp(l, ss, vs, rest1, res);
    if |ss| + Need(l) < YYMAXDEPTH {
      n := ParseRight(Config(ss, vs, Tokens(l) + rest1, res), n, op, l, r, ss, vs, rest, res);
    }
  }

  lemma {:induction false} ParseRight(c: Config, a: nat, op: Op, l: Src, r: Src, ss: seq<nat>, vs: seq<Val>, rest: seq<Token>, res: Option<Exp>) returns (n: nat)
    requires Ready(ss, vs, SBin(op, l, r), rest) && |ss| + 1 < YYMAXDEPTH
    requires StepN(c, a) == Running(Config(ss + [GotoState(2, ss[|ss| - 1])], vs + [ExpVal(Tree(l))],
                                           [OpToken(op)] + (Tokens(r) + rest), res))
    ensures StepN(c, n) == Ends(ss, vs, rest, res, Bin(op, Tree(l), Tree(r)), 2 + Need(r))
    decreases r, 3
  {
    hide StepN, GotoState, Tokens, Need, Decide, Act, OpPrec;
    var q := OpPrec(op);
    var g := GotoState(2, ss[|ss| - 1]);
    var st, args := [g, q + 7], [ExpVal(Tree(l)), OpToken(op).val];
    OperatorShifts(ss[|ss| - 1], q + 2);
    ShiftAfter(c, a, ss + [g], vs + [ExpVal(Tree(l))], OpToken(op), Tokens(r) + rest, res, q + 7);
    assert (ss + [g]) + [q + 7] == ss + st && (vs + [ExpVal(Tree(l))]) + [OpToken(op).val] == vs + args;
    n := ParseNext(c, a + 1, r, ss + st, vs + args, rest, res);
    if |ss| + 2 + Need(r) < YYMAXDEPTH {
      OperatorReduces(q + 2, Peek(rest).sym);
      BinAct(op, Tree(l), Tree(r));
      assert args + [ExpVal(Tree(r))] == [ExpVal(Tree(l)), OpToken(op).val, ExpVal(Tree(r))];
      n := ReduceAfter(c, n, ss, st, vs, args, Tree(r), rest, res, q + 1, Bin(op, Tree(l), Tree(r)));
    }
  }

  lemma {:induction false} ParseCond(t: Src, y: Src, f: Src, ss: seq<nat>, vs: seq<Val>, rest: seq<Token>, res: Option<Exp>) returns (n: nat)
    requires Ready(ss, vs, SCond(t, y, f), rest)
    ensures Yields(ss, vs, Tokens(t) + [Token(QM, NoVal)] + Tokens(y) + [Token(COLON, NoVal)] + Tokens(f), rest, res,
                   Cond(Tree(t), Tree(y), Tree(f)), Max(Need(t), Max(2 + Need(y), 4 + Need(f))), n)
    decreases SCond(t, y, f), 0
  {
    hide StepN, GotoState, Tokens, Need, Decide, YyCheck, YyTable, OpPrec, Tree;
    var qm, colon := Token(QM, NoVal), Token(COLON, NoVal);
    var rest2 := Tokens(y) + ([colon] + (Tokens(f) + rest));
    assert (Tokens(t) + [qm] + Tokens(y) + [colon] + Tokens(f)) + rest == Tokens(t) + ([qm] + rest2);
    n := ParseExp(t, ss, vs, [qm] + rest2, res);
    if |ss| + Need(t) < YYMAXDEPTH {
      var c := Config(ss, vs, Tokens(t) + ([qm] + rest2), res);
      var g := GotoState(2, ss[|ss| - 1]);
      OperatorShifts(ss[|ss| - 1], QM);
      ShiftAfter(c, n, ss + [g], vs + [ExpVal(Tree(t))], qm, rest2, res, 8);
      assert (ss + [g]) + [8] == ss + [g, 8] && (vs + [ExpVal(Tree(t))]) + [NoVal] == vs + [ExpVal(Tree(t)), NoVal];
      n := ParseNext(c, n + 1, y, ss + [g, 8], vs + [ExpVal(Tree(t)), NoVal], [colon] + (Tokens(f) + rest), res);
      if |ss| + 2 + Need(y) < YYMAXDEPTH {
        n := ParseElse(c, n, Tree(t), Tree(y), f, ss, vs, rest, res);
      }
    }
  }

  lemma {:induction false} ParseElse(c: Config, a: nat, t: Exp, y: Exp, f: Src, ss: seq<nat>, vs: seq<Val>, rest: seq<Token>, res: Option<Exp>) returns (n: nat)
    requires ss != [] && |vs| == |ss| && Grammatical(f) && Stops(1, Peek(rest).sym) && |ss| + 3 < YYMAXDEPTH
    requires StepN(c, a) == Running(Config((ss + [GotoState(2, ss[|ss| - 1]), 8]) + [GotoState(2, 8)],
                                           (vs + [ExpVal(t), NoVal]) + [ExpVal(y)],
                                           [Token(COLON, NoVal)] + (Tokens(f) + rest), res))
    ensures StepN(c, n) == Ends(ss, vs, rest, res, Cond(t, y, Tree(f)), 4 + Need(f))
    decreases f, 3
  {
    hide StepN, GotoState, Tokens, Need, Decide, Act;
    var g := GotoState(2, ss[|ss| - 1]);
    var st, args := [g, 8, 16, 23], [ExpVal(t), NoVal, ExpVal(y), NoVal];
    ElseFacts(t, y, Tree(f), Peek(rest).sym);
    ShiftAfter(c, a, (ss + [g, 8]) + [16], (vs + [ExpVal(t), NoVal]) + [ExpVal(y)], Token(COLON, NoVal), Tokens(f) + rest, res, 23);
    assert ((ss + [g, 8]) + [16]) + [23] == ss + st && ((vs + [ExpVal(t), NoVal]) + [ExpVal(y)]) + [NoVal] == vs + args;
    n := ParseNext(c, a + 1, f, ss + st, vs + args, rest, res);
    if |ss| + 4 + Need(f) < YYMAXDEPTH {
      assert args + [ExpVal(Tree(f))] == [ExpVal(t), NoVal, ExpVal(y), NoVal, ExpVal(Tree(f))];
      n := ReduceAfter(c, n, ss, st, vs, args, Tree(f), rest, res, 2, Cond(t, y, Tree(f)));
    }
  }

  lemma ElseFacts(t: Exp, y: Exp, f: Exp, next: nat)
    requires Stops(1, next)
    ensures GotoState(2, 8) == 16 && Decide(16, COLON) == Shift(23)
    ensures Decide(GotoState(2, 23), next) == Reduce(2)
    ensures Act(2, [ExpVal(t), NoVal, ExpVal(y), NoVal, ExpVal(f)]) == Some(ExpVal(Cond(t, y, f)))
  {
  }

  // ---------- the end of a run ----------

  /** For every expression a programmer may write, the parser returns its tree, unless the
      stacks would have to grow to YYMAXDEPTH. */
  lemma {:induction false} WrittenIsParsed(d: Src) returns (n: nat)
    requires Grammatical(d)
    ensures StepN(Start(Tokens(d)), n) == if 1 + Need(d) < YYMAXDEPTH then Accepted(Tree(d)) else Overflow
  {
    hide Tokens, Need, StepN, Decide, Grammatical;
    assert Tokens(d) + [] == Tokens(d);
    n := ParseExp(d, [0], [NoVal], [], None);
    if 1 + Need(d) < YYMAXDEPTH {
      Finish(Tree(d));
      StepNAdd(Start(Tokens(d)), n, 3, Config([0] + [5], [NoVal] + [ExpVal(Tree(d))], [], None));
      n := n + 3;
    }
  }

  lemma Finish(e: Exp)
    ensures StepN(Config([0] + [5], [NoVal] + [ExpVal(e)], [], None), 3) == Accepted(e)
  {
    var c1 := Config([0, 25], [NoVal, ExpVal(e)], [], Some(e));
    var c2 := Config([0, 25, 26], [NoVal, ExpVal(e), NoVal], [], Some(e));
    assert Step(Config([0] + [5], [NoVal] + [ExpVal(e)], [], None)) == Running(c1);
    assert Step(c1) == Running(c2);
    assert Step(c2) == Accepted(e);
    assert StepN(c2, 1) == Accepted(e);
    assert StepN(c1, 2) == Accepted(e);
  }
}
