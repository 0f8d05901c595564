/** yylex and yyparse of intl/plural.c on the text of a plural expression. */
module PluralText {
  import opened Common
  import opened Plural
  import opened PluralParser
  import opened PluralRun

  /** YYERRCODE after yytranslate */
  const ERROR := 1

  // ---------- reading ----------

  predicate IsBlank(ch: char) {
    ch == ' ' || ch == '\t'
  }

  predicate IsDigit(ch: char) {
    '0' <= ch <= '9'
  }

  function SkipBlanks(s: string): (r: string)
    ensures r != [] ==> !IsBlank(r[0])
    ensures |r| <= |s|
  {
    if s != [] && IsBlank(s[0]) then SkipBlanks(s[1..]) else s
  }

  /** The value of the digits at the front of s, after those that made n, in unsigned long
      arithmetic, and what follows them. */
  function Number(s: string, n: nat): (r: (nat, string))
    ensures |r.1| <= |s|
  {
    if s != [] && IsDigit(s[0]) then Number(s[1..], (n * 10 + (s[0] - '0') as nat) % WORD) else (n, s)
  }

  /** An operator whose second character decides between two tokens. */
  function Either(s: string, second: char, two: Token, one: Token): (r: (Token, string))
    requires s != []
    ensures (r.0 == two || r.0 == one) && |r.1| < |s|
  {
    if |s| > 1 && s[1] == second then (two, s[2..]) else (one, s[1..])
  }

  /** yylex: the next token and the text after it. */
  function Lex(text: string): (r: (Token, string))
    ensures if r.0.sym == EOF then r.0.val == NoVal else |r.1| < |text| && TokenOk(r.0)
  {
    var s := SkipBlanks(text);
    if s == [] then (Token(EOF, NoVal), s)
    else if IsDigit(s[0]) then
      var r := Number(s[1..], (s[0] - '0') as nat);
      (Token(NUMBER, NumVal(r.0)), r.1)
    else LexSymbol(s)
  }

  /** A token of one character. */
  function LexSingle(s: string): (r: (Token, string))
    requires s != []
    ensures if r.0.sym == EOF then r.0.val == NoVal else |r.1| < |s| && TokenOk(r.0)
  {
    match s[0]
    case '*' => (OpToken(Mult), s[1..])
    case '/' => (OpToken(Divide), s[1..])
    case '%' => (OpToken(Module), s[1..])
    case '+' => (OpToken(Plus), s[1..])
    case '-' => (OpToken(Minus), s[1..])
    case 'n' => (Token(N, NoVal), s[1..])
    case '?' => (Token(QM, NoVal), s[1..])
    case ':' => (Token(COLON, NoVal), s[1..])
    case '(' => (Token(LPAR, NoVal), s[1..])
    case ')' => (Token(RPAR, NoVal), s[1..])
    case ';' => (Token(EOF, NoVal), s)
    case '\n' => (Token(EOF, NoVal), s)
    case '\0' => (Token(EOF, NoVal), s)
    case _ => (Token(ERROR, NoVal), s[1..])
  }

  function LexSymbol(s: string): (r: (Token, string))
    requires s != []
    ensures if r.0.sym == EOF then r.0.val == NoVal else |r.1| < |s| && TokenOk(r.0)
  {
    var error := Token(ERROR, NoVal);
    match s[0]
    case '=' => Either(s, '=', OpToken(Equal), error)
    case '!' => Either(s, '=', OpToken(NotEqual), Token(NOT, NoVal))
    case '&' => Either(s, '&', OpToken(LAnd), error)
    case '|' => Either(s, '|', OpToken(LOr), error)
    case '<' => Either(s, '=', OpToken(LessEq), OpToken(Less))
    case '>' => Either(s, '=', OpToken(GreaterEq), OpToken(Greater))
    case _ => LexSingle(s)
  }

  /** All tokens up to the end of the expression. */
  function LexAll(text: string): (r: seq<Token>)
    ensures forall t :: t in r ==> TokenOk(t)
    decreases |text|
  {
    var (t, rest) := Lex(text);
    if t.sym == EOF then [] else [t] + LexAll(rest)
  }

  /** The lexer with its pointer into the text. */
  method YyLex(text: string, pos: nat) returns (tok: Token, next: nat)
    requires pos <= |text|
    ensures next <= |text| && Lex(text[pos..]) == (tok, text[next..])
  {
    hide LexSymbol, TokenOk, OpToken;
    next := pos;
    while next < |text| && IsBlank(text[next])
      invariant pos <= next <= |text|
      invariant SkipBlanks(text[next..]) == SkipBlanks(text[pos..])
    {
      assert text[next..][1..] == text[next + 1..];
      next := next + 1;
    }
    if next == |text| {
      tok := Token(EOF, NoVal);
    } else if IsDigit(text[next]) {
      var n: nat := (text[next] - '0') as nat;
      ghost var s := text[next + 1..];
      assert text[next..][1..] == s;
      next := next + 1;
      ghost var n0 := n;
      while next < |text| && IsDigit(text[next])
        invariant pos < next <= |text|
        invariant Number(text[next..], n) == Number(s, n0)
      {
        assert text[next..][1..] == text[next + 1..];
        n := (n * 10 + (text[next] - '0') as nat) % WORD;
        next := next + 1;
      }
      tok := Token(NUMBER, NumVal(n));
    } else {
      var (t, rest) := LexSymbol(text[next..]);
      tok := t;
      assert |rest| <= |text| - next && rest == text[|text| - |rest|..] by {
        SymbolLeavesSuffix(text, next);
      }
      next := |text| - |rest|;
    }
  }

  lemma SymbolLeavesSuffix(text: string, i: nat)
    requires i < |text|
    ensures |LexSymbol(text[i..]).1| <= |text| - i
    ensures LexSymbol(text[i..]).1 == text[|text| - |LexSymbol(text[i..]).1|..]
  {
    assert text[i..][1..] == text[i + 1..];
    assert i + 2 <= |text| ==> text[i..][2..] == text[i + 2..];
  }

  // ---------- parsing ----------

  /** The tokens still to come: the lookahead token, if one was read, and the rest of the text. */
  ghost function Pending(look: Option<Token>, rest: string): seq<Token> {
    match look
    case None => LexAll(rest)
    case Some(t) => if t.sym == EOF then [] else [t] + LexAll(rest)
  }

  /** The test at yyerrhandle: the tables have an entry for the error token in this state. */
  predicate HandlesError(s: nat) {
    var i := YyPact(s) + ERROR;
    YyPact(s) != YYFLAG && 0 <= i <= YYLAST && YyCheck(i) == ERROR
  }

  /** The error token is never shifted. */
  lemma ErrorsAreFinal(s: nat)
    ensures !HandlesError(s)
    ensures Decide(s, ERROR) == if YyDefact(s) == 0 then Fail else Reduce(YyDefact(s))
  {
  }

  /** From yyerrlab on: states are popped until one handles the error token; none does, so that
      the parse ends whatever is on the stack. */
  method YyError(ss: seq<nat>) returns (o: Outcome)
    requires ss != []
    ensures o == Aborted
  {
    hide HandlesError, Decide;
    var left := ss;
    while |left| > 1 && !HandlesError(left[|left| - 1])
      invariant left != [] && left <= ss
      decreases |left|
    {
      left := left[..|left| - 1];
    }
    ErrorsAreFinal(left[|left| - 1]);
    assert |left| == 1;
    o := Aborted;
  }

  /** One move, spelled out. */
  ghost predicate Spelled(c: Config, o: Outcome)
    requires c.ss != [] && |c.vs| == |c.ss|
  {
    match Decide(c.ss[|c.ss| - 1], Peek(c.input).sym)
    case Fail => o == Aborted
    case Accept => c.res.Some? && o == Accepted(c.res.value)
    case Shift(t) =>
      o == Running(Config(c.ss + [t], c.vs + [Peek(c.input).val], if c.input == [] then [] else c.input[1..], c.res))
    case Reduce(r) =>
      0 < YyR2(r) < |c.ss| &&
      var h := |c.ss| - YyR2(r);
      var v := Act(r, c.vs[h..]);
      v.Some? && v.value.ExpVal? &&
      o == Running(Config(c.ss[..h] + [GotoState(r, c.ss[h - 1])], c.vs[..h] + [v.value], c.input,
                          if r == 1 then Some(v.value.e) else c.res))
  }

  lemma StepIs(c: Config)
    requires Inv(c)
    ensures c.ss != [] && |c.vs| == |c.ss|
    ensures if |c.ss| >= YYMAXDEPTH then Step(c) == Overflow else Spelled(c, Step(c))
  {
    hide Decide, GotoState, Act, Inv;
    InvFacts(c);
    if |c.ss| < YYMAXDEPTH {
      match Decide(c.ss[|c.ss| - 1], Peek(c.input).sym) {
        case Fail =>
        case Accept => AcceptFacts(c);
        case Shift(_) =>
        case Reduce(r) =>
          ReduceHandle(c.ss[|c.ss| - 1], Peek(c.input).sym);
          HandleBelow(c, r);
      }
    }
  }

  /** yyparse: a lookahead token is read only in a state that does not reduce whatever follows. */
  method YyParse(text: string) returns (o: Outcome)
    ensures Inv(Start(LexAll(text))) && o == Run(Start(LexAll(text)))
  {
    hide Inv, Decide, Measure, Run, Lex, GotoState, YyPact, Act, Step, YyR2, TokenOk;
    StartInv(LexAll(text));
    var ss, vs, res := [0], [NoVal], None;
    var pos: nat, look: Option<Token> := 0, None;
    assert text[pos..] == text;
    ghost var c := Start(LexAll(text));
    while true
      invariant pos <= |text|
      invariant c == Config(ss, vs, Pending(look, text[pos..]), res)
      invariant look.Some? && look.value.sym == EOF ==> look.value.val == NoVal
      invariant Inv(c) && Run(c) == Run(Start(LexAll(text)))
      invariant Inv(Start(LexAll(text)))
      decreases (InvFacts(c); Measure(c))
    {
      StepIs(c);
      StepKeeps(c);
      RunUnfolds(c);
      if |ss| >= YYMAXDEPTH {
        return Overflow;
      }
      var s := ss[|ss| - 1];
      if YyPact(s) != YYFLAG && look == None {
        var t, next := YyLex(text, pos);
        look, pos := Some(t), next;
      }
      var next := if look.Some? then look.value else Token(EOF, NoVal);
      NoLookahead(s, Peek(c.input).sym, next.sym);
      match Decide(s, next.sym) {
        case Fail =>
          o := YyError(ss);
          return;
        case Accept => return Accepted(res.value);
        case Shift(t) =>
          ss, vs := ss + [t], vs + [next.val];
          if next.sym != EOF {
            TailOfOne(next, LexAll(text[pos..]));
            look := None;
          }
        case Reduce(r) =>
          var h := |ss| - YyR2(r);
          var v := Act(r, vs[h..]).value;
          ss, vs := ss[..h] + [GotoState(r, ss[h - 1])], vs[..h] + [v];
          if r == 1 {
            res := Some(v.e);
          }
      }
      c := Step(c).c;
    }
  }

  lemma TailOfOne(t: Token, ts: seq<Token>)
    ensures ([t] + ts)[1..] == ts
  {
  }

  /** Where no lookahead was read the tables do not ask for it. */
  lemma NoLookahead(s: nat, a: nat, b: nat)
    requires YyPact(s) == YYFLAG || a == b
    ensures Decide(s, a) == Decide(s, b)
    ensures YyPact(s) == YYFLAG ==> !Decide(s, a).Shift?
  {
  }

  lemma RunUnfolds(c: Config)
    requires Inv(c)
    ensures Step(c) != Corrupt
    ensures if Step(c).Running? then Inv(Step(c).c) && Run(c) == Run(Step(c).c) else Run(c) == Step(c)
  {
    StepKeeps(c);
  }

  // ---------- writing ----------

  function Digits(n: nat): (s: string)
    ensures s != [] && IsDigit(s[0])
  {
    var last := ['0' + (n % 10) as char];
    if n < 10 then last else Digits(n / 10) + last
  }

  function OpText(op: Op): string {
    match op
    case Mult => "*"
    case Divide => "/"
    case Module => "%"
    case Plus => "+"
    case Minus => "-"
    case Less => "<"
    case Greater => ">"
    case LessEq => "<="
    case GreaterEq => ">="
    case Equal => "=="
    case NotEqual => "!="
    case LAnd => "&&"
    case LOr => "||"
  }

  predicate Printable(t: Token) {
    TokenOk(t) && QM <= t.sym <= RPAR && (t.sym == NUMBER ==> t.val.n < WORD)
  }

  function Spelling(t: Token): string
    requires Printable(t)
  {
    match t.sym
    case 11 => Digits(t.val.n)
    case 3 => "?"
    case 4 => OpText(LOr)
    case 5 => OpText(LAnd)
    case 10 => "!"
    case 12 => ":"
    case 13 => "n"
    case 14 => "("
    case 15 => ")"
    case _ => OpText(t.val.op)
  }

  /** The tokens spelled out, a blank before each. */
  function Text(ts: seq<Token>): string
    requires forall t :: t in ts ==> Printable(t)
  {
    if ts == [] then "" else " " + Spelling(ts[0]) + Text(ts[1..])
  }

  lemma DigitChar(n: nat)
    ensures var c := '0' + (n % 10) as char; IsDigit(c) && (c - '0') as nat == n % 10
    ensures n < WORD ==> (n / 10 * 10 + n % 10) % WORD == n
  {
  }

  lemma NumberStep(c: char, tail: string, n: nat)
    requires IsDigit(c)
    ensures Number([c] + tail, n) == Number(tail, (n * 10 + (c - '0') as nat) % WORD)
  {
    assert ([c] + tail)[1..] == tail;
  }

  lemma {:induction false} NumberOfDigits(n: nat, tail: string)
    requires n < WORD
    ensures Number(Digits(n) + tail, 0) == Number(tail, n)
  {
    hide Number;
    var c := '0' + (n % 10) as char;
    DigitChar(n);
    NumberStep(c, tail, n / 10);
    if n >= 10 {
      Assoc(Digits(n / 10), [c], tail);
      NumberOfDigits(n / 10, [c] + tail);
    }
  }

  lemma LexAfterBlank(s: string)
    requires s != [] && !IsBlank(s[0])
    ensures Lex(" " + s) == if IsDigit(s[0])
      then (Token(NUMBER, NumVal(Number(s, 0).0)), Number(s, 0).1)
      else LexSymbol(s)
  {
    hide LexSymbol, TokenOk, Number;
    hide SkipBlanks;
    BlankSkipped(s);
    if IsDigit(s[0]) {
      FirstDigit(s);
    }
  }

  lemma FirstDigit(s: string)
    requires s != [] && IsDigit(s[0])
    ensures Number(s, 0) == Number(s[1..], (s[0] - '0') as nat)
  {
  }

  lemma BlankSkipped(s: string)
    requires s != [] && !IsBlank(s[0])
    ensures SkipBlanks(" " + s) == s
  {
    assert (" " + s)[1..] == s;
    assert SkipBlanks(s) == s;
  }

  /** A spelled token is read back, and the lexer stops right after it. */
  lemma LexSpelled(t: Token, tail: string)
    requires Printable(t) && (tail == [] || tail[0] == ' ')
    ensures Lex(" " + Spelling(t) + tail) == (t, tail)
  {
    hide LexSymbol, Lex, SkipBlanks, OpText;
    var s := Spelling(t) + tail;
    assert " " + Spelling(t) + tail == " " + s;
    if t.sym == NUMBER {
      NumberOfDigits(t.val.n, tail);
      assert s[0] == Digits(t.val.n)[0];
    } else {
      SymbolSpelled(t, tail);
      assert s[0] == Spelling(t)[0];
    }
    LexAfterBlank(s);
  }

  /** A blank after a symbol of one or two characters does not change how it is read. */
  lemma OneCharacter(ch: char, tail: string)
    requires (tail == [] || tail[0] == ' ') && ch !in ";\n\0"
    ensures LexSymbol([ch] + tail) == (LexSymbol([ch]).0, tail)
  {
    hide TokenOk, OpToken;
    assert ([ch] + tail)[1..] == tail;
  }

  lemma TwoCharacters(a: char, b: char, tail: string)
    requires LexSymbol([a, b]).1 == []
    ensures LexSymbol([a, b] + tail) == (LexSymbol([a, b]).0, tail)
  {
    hide TokenOk, OpToken;
    assert ([a, b] + tail)[2..] == tail;
  }

  lemma SpelledOperator(op: Op)
    ensures LexSymbol(OpText(op)) == (OpToken(op), [])
    ensures 1 <= |OpText(op)| <= 2 && !IsBlank(OpText(op)[0]) && !IsDigit(OpText(op)[0]) && OpText(op)[0] !in ";\n\0"
  {
    hide TokenOk, OpToken;
  }

  lemma SpelledAlone(t: Token)
    requires Printable(t) && t.sym != NUMBER
    ensures LexSymbol(Spelling(t)) == (t, [])
    ensures 1 <= |Spelling(t)| <= 2 && !IsBlank(Spelling(t)[0]) && !IsDigit(Spelling(t)[0]) && Spelling(t)[0] !in ";\n\0"
  {
    if t.sym == OR || t.sym == AND || EQUOP2 <= t.sym <= MULOP2 {
      var op := if t.sym == OR then LOr else if t.sym == AND then LAnd else t.val.op;
      hide LexSymbol, OpText;
      SpelledOperator(op);
      assert Spelling(t) == OpText(op) && t == OpToken(op);
    }
  }

  lemma SymbolSpelled(t: Token, tail: string)
    requires Printable(t) && t.sym != NUMBER && (tail == [] || tail[0] == ' ')
    ensures Spelling(t) != [] && !IsBlank(Spelling(t)[0]) && !IsDigit(Spelling(t)[0])
    ensures LexSymbol(Spelling(t) + tail) == (t, tail)
  {
    hide LexSymbol, Spelling, Printable;
    SpelledAlone(t);
    var s := Spelling(t);
    if |s| == 1 {
      assert s == [s[0]];
      OneCharacter(s[0], tail);
    } else {
      assert s == [s[0], s[1]];
      TwoCharacters(s[0], s[1], tail);
    }
  }

  lemma {:induction false} LexUndoesText(ts: seq<Token>)
    requires forall t :: t in ts ==> Printable(t)
    ensures LexAll(Text(ts)) == ts
  {
    if ts != [] {
      LexSpelled(ts[0], Text(ts[1..]));
      LexUndoesText(ts[1..]);
    }
  }

  /** The numbers of e fit an unsigned long. */
  predicate Words(e: Exp) {
    match e
    case Var => true
    case Num(k) => k < WORD
    case Not(x) => Words(x)
    case Bin(_, l, r) => Words(l) && Words(r)
    case Cond(c, t, f) => Words(c) && Words(t) && Words(f)
  }

  lemma {:induction false} TokensPrintable(d: Src)
    requires Words(Tree(d))
    ensures forall t :: t in Tokens(d) ==> Printable(t)
  {
    match d
    case SVar =>
    case SNum(_) =>
    case SNot(x) => TokensPrintable(x);
    case SBin(_, l, r) => TokensPrintable(l); TokensPrintable(r);
    case SCond(x, y, z) => TokensPrintable(x); TokensPrintable(y); TokensPrintable(z);
    case SParen(x) => TokensPrintable(x);
  }

  /** The text of e. */
  function ExpText(e: Exp): string
    requires Words(e)
  {
    WrittenIsGrammatical(e, 1);
    TokensPrintable(Written(e, 1));
    Text(Tokens(Written(e, 1)))
  }

  /** Reading the text of an expression gives the expression back. */
  lemma TextRoundTrip(e: Exp)
    requires Words(e)
    ensures Inv(Start(LexAll(ExpText(e))))
    ensures Run(Start(LexAll(ExpText(e)))) == if 1 + Need(Written(e, 1)) < YYMAXDEPTH then Accepted(e) else Overflow
  {
    WrittenIsGrammatical(e, 1);
    TokensPrintable(Written(e, 1));
    LexUndoesText(Tokens(Written(e, 1)));
    ParserUndoesPrinter(e);
  }

  // ---------- choosing a form ----------

  /** plural_eval stays within an unsigned long. */
  lemma {:induction false} EvalIsWord(e: Exp, n: nat)
    requires Words(e) && n < WORD
    ensures Eval(e, n).Some? ==> Eval(e, n).value < WORD
  {
    match e
    case Var =>
    case Num(_) =>
    case Not(x) => EvalIsWord(x, n);
    case Bin(op, l, r) =>
      EvalIsWord(l, n);
      EvalIsWord(r, n);
    case Cond(c, t, f) =>
      EvalIsWord(c, n);
      EvalIsWord(t, n);
      EvalIsWord(f, n);
  }

  /** The number of strings in a block of NUL-terminated strings. */
  function Strings(block: string): nat {
    if block == [] then 0 else Strings(block[..|block| - 1]) + if block[|block| - 1] == '\0' then 1 else 0
  }

  lemma {:induction false} StringsMonotone(block: string, i: nat)
    requires i <= |block|
    ensures Strings(block[..i]) <= Strings(block)
    decreases |block| - i
  {
    if i == |block| {
      assert block[..i] == block;
    } else {
      assert block[..i + 1][..i] == block[..i];
      StringsMonotone(block, i + 1);
    }
  }

  /** plural_lookup: where in the block of translations the form for n begins.  Without an
      answer the division by zero has ended the program. */
  method PluralLookup(e: Exp, nplurals: nat, n: nat, block: string) returns (p: Option<nat>)
    requires block != [] && block[|block| - 1] == '\0'
    ensures p == None <==> Eval(e, n) == None
    ensures p.Some? ==> p.value < |block| && (p.value == 0 || block[p.value - 1] == '\0')
    ensures p.Some? ==>
      var index := if Eval(e, n).value >= nplurals then 0 else Eval(e, n).value;
      Strings(block[..p.value]) == if index < Strings(block) then index else 0
  {
    if Eval(e, n) == None {
      return None;
    }
    var index := Eval(e, n).value;
    if index >= nplurals {
      index := 0;
    }
    var q, k := 0, 0;
    assert Strings(block) > 0;
    while k < index
      invariant q < |block| && k <= index && Strings(block[..q]) == k < Strings(block)
      invariant q == 0 || block[q - 1] == '\0'
      decreases index - k
    {
      ghost var was := Strings(block[..q]);
      while block[q] != '\0'
        invariant q < |block| && Strings(block[..q]) == was
        decreases |block| - q
      {
        assert block[..q + 1][..q] == block[..q];
        q := q + 1;
      }
      assert block[..q + 1][..q] == block[..q];
      q, k := q + 1, k + 1;
      StringsMonotone(block, q);
      if q >= |block| {
        assert block[..q] == block;
        return Some(0);
      }
      assert Strings(block) > Strings(block[..q]) by {
        StringsMonotone(block, |block| - 1);
        assert block[..|block| - 1][..q] == block[..q];
        StringsMonotone(block[..|block| - 1], q);
      }
    }
    return Some(q);
  }
}
