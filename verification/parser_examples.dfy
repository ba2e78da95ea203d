/** Worked cases of the parser: precedence, associativity, the error
    messages of its tests, and signed literals as the code reads them. */
module ParsingExamples {
  import opened Outcomes
  import opened Numerals
  import opened Tokens
  import opened Ast
  import opened Expectations
  import opened Parsing
  import opened ParsingFacts

  /** Integer literals at `pos`, `pos + 2` and `pos + 4` with the operators
      `a` and `b` between them, followed by a token that closes the term. */
  ghost predicate Chain(toks: seq<Token>, pos: nat, a: Kind, b: Kind) {
    && a != D && b != D && Stream(toks) && pos + 5 < |toks|
    && toks[pos].kind == Int && toks[pos + 1].kind == a && toks[pos + 2].kind == Int
    && toks[pos + 3].kind == b && toks[pos + 4].kind == Int && Closes(toks[pos + 5].kind)
  }

  /** An integer not followed by a dice operator is a literal of its
      decoded value, and only that one token is consumed. */
  lemma {:induction false} Literals(toks: seq<Token>, pos: nat)
    requires Stream(toks) && pos < |toks| && toks[pos].kind == Int && toks[pos + 1].kind != D
    ensures ParseBottomTerm(toks, pos) == Next(IntTerm(toks[pos].Int()), pos + 1)
  {
  }

  lemma {:induction false} ChainLiterals(toks: seq<Token>, pos: nat, a: Kind, b: Kind)
    requires Chain(toks, pos, a, b)
    ensures ParseBottomTerm(toks, pos) == Next(IntTerm(toks[pos].Int()), pos + 1)
    ensures ParseBottomTerm(toks, pos + 2) == Next(IntTerm(toks[pos + 2].Int()), pos + 3)
    ensures ParseBottomTerm(toks, pos + 4) == Next(IntTerm(toks[pos + 4].Int()), pos + 5)
  {
    Literals(toks, pos);
    Literals(toks, pos + 2);
    Literals(toks, pos + 4);
  }

  /** Addition and subtraction bind tighter than multiplication:
      `x + y * z` is `(x + y) * z`. */
  lemma {:induction false} SumBindsTighter(toks: seq<Token>, pos: nat)
    requires Chain(toks, pos, Add, Multiply)
    ensures ParseETerm(toks, pos)
      == Next(MultiplyTerm(AddTerm(IntTerm(toks[pos].Int()), IntTerm(toks[pos + 2].Int())), IntTerm(toks[pos + 4].Int())), pos + 5)
  {
    var x, y, z := IntTerm(toks[pos].Int()), IntTerm(toks[pos + 2].Int()), IntTerm(toks[pos + 4].Int());
    ChainLiterals(toks, pos, Add, Multiply);
    assert ParseASRest(toks, AddTerm(x, y), pos + 3) == Next(AddTerm(x, y), pos + 3);
    assert ParseASTerm(toks, pos) == Next(AddTerm(x, y), pos + 3);
    assert ParseASTerm(toks, pos + 4) == Next(z, pos + 5);
    assert ParseMDRest(toks, MultiplyTerm(AddTerm(x, y), z), pos + 5) == Next(MultiplyTerm(AddTerm(x, y), z), pos + 5);
    assert ParseMDTerm(toks, pos) == Next(MultiplyTerm(AddTerm(x, y), z), pos + 5);
  }

  /** Multiplication and division bind tighter than the exponent:
      `x / y ^ z` is `(x / y) ^ z`. */
  lemma {:induction false} ProductBindsTighter(toks: seq<Token>, pos: nat)
    requires Chain(toks, pos, Divide, Exponentiate)
    ensures ParseETerm(toks, pos)
      == Next(ExponentiateTerm(DivideTerm(IntTerm(toks[pos].Int()), IntTerm(toks[pos + 2].Int())), IntTerm(toks[pos + 4].Int())), pos + 5)
  {
    var x, y, z := IntTerm(toks[pos].Int()), IntTerm(toks[pos + 2].Int()), IntTerm(toks[pos + 4].Int());
    ChainLiterals(toks, pos, Divide, Exponentiate);
    assert ParseASTerm(toks, pos) == Next(x, pos + 1);
    assert ParseASTerm(toks, pos + 2) == Next(y, pos + 3);
    assert ParseMDRest(toks, DivideTerm(x, y), pos + 3) == Next(DivideTerm(x, y), pos + 3);
    assert ParseMDTerm(toks, pos) == Next(DivideTerm(x, y), pos + 3);
    LiftBottom(toks, pos + 4, z, pos + 5);
  }

  /** The exponent is right-associative: `x ^ y ^ z` is `x ^ (y ^ z)`. */
  lemma {:induction false} PowerRightAssociative(toks: seq<Token>, pos: nat)
    requires Chain(toks, pos, Exponentiate, Exponentiate)
    ensures ParseETerm(toks, pos)
      == Next(ExponentiateTerm(IntTerm(toks[pos].Int()), ExponentiateTerm(IntTerm(toks[pos + 2].Int()), IntTerm(toks[pos + 4].Int()))), pos + 5)
  {
    var x, y, z := IntTerm(toks[pos].Int()), IntTerm(toks[pos + 2].Int()), IntTerm(toks[pos + 4].Int());
    ChainLiterals(toks, pos, Exponentiate, Exponentiate);
    LiftBottom(toks, pos + 4, z, pos + 5);
    assert ParseASTerm(toks, pos + 2) == Next(y, pos + 3);
    assert ParseMDTerm(toks, pos + 2) == Next(y, pos + 3);
    assert ParseETerm(toks, pos + 2) == Next(ExponentiateTerm(y, z), pos + 5);
    assert ParseASTerm(toks, pos) == Next(x, pos + 1);
    assert ParseMDTerm(toks, pos) == Next(x, pos + 1);
  }

  /** Subtraction is left-associative: `x - y - z` is `(x - y) - z`. */
  lemma {:induction false} DifferenceLeftAssociative(toks: seq<Token>, pos: nat)
    requires Chain(toks, pos, Subtract, Subtract)
    ensures ParseETerm(toks, pos)
      == Next(SubtractTerm(SubtractTerm(IntTerm(toks[pos].Int()), IntTerm(toks[pos + 2].Int())), IntTerm(toks[pos + 4].Int())), pos + 5)
  {
    var x, y, z := IntTerm(toks[pos].Int()), IntTerm(toks[pos + 2].Int()), IntTerm(toks[pos + 4].Int());
    ChainLiterals(toks, pos, Subtract, Subtract);
    var t := SubtractTerm(SubtractTerm(x, y), z);
    assert ParseASRest(toks, t, pos + 5) == Next(t, pos + 5);
    assert ParseASRest(toks, SubtractTerm(x, y), pos + 3) == Next(t, pos + 5);
    assert ParseASTerm(toks, pos) == Next(t, pos + 5);
    assert ParseMDTerm(toks, pos) == Next(t, pos + 5);
  }

  /** Division is left-associative: `x / y / z` is `(x / y) / z`. */
  lemma {:induction false} QuotientLeftAssociative(toks: seq<Token>, pos: nat)
    requires Chain(toks, pos, Divide, Divide)
    ensures ParseETerm(toks, pos)
      == Next(DivideTerm(DivideTerm(IntTerm(toks[pos].Int()), IntTerm(toks[pos + 2].Int())), IntTerm(toks[pos + 4].Int())), pos + 5)
  {
    var x, y, z := IntTerm(toks[pos].Int()), IntTerm(toks[pos + 2].Int()), IntTerm(toks[pos + 4].Int());
    ChainLiterals(toks, pos, Divide, Divide);
    var t := DivideTerm(DivideTerm(x, y), z);
    assert ParseASTerm(toks, pos) == Next(x, pos + 1);
    assert ParseASTerm(toks, pos + 2) == Next(y, pos + 3);
    assert ParseASTerm(toks, pos + 4) == Next(z, pos + 5);
    assert ParseMDRest(toks, t, pos + 5) == Next(t, pos + 5);
    assert ParseMDRest(toks, DivideTerm(x, y), pos + 3) == Next(t, pos + 5);
    assert ParseMDTerm(toks, pos) == Next(t, pos + 5);
  }

  /** The error every term reports when it starts with a token that
      cannot start one. */
  function NotATerm(received: Token): Expectation {
    Expectation(["integer", "dice term", "\"(\""], received)
  }

  /** A term cannot start with anything but a dice operator, an integer,
      a sign or an opening parenthesis; the error names the three
      alternatives and the offending token. */
  lemma {:induction false} UnexpectedTermStart(toks: seq<Token>, pos: nat)
    requires Stream(toks) && pos < |toks|
    requires toks[pos].kind !in {D, Int, Add, Subtract, LeftParentheses}
    ensures ParseETerm(toks, pos) == Fail(NotATerm(toks[pos]), pos)
  {
    assert ParseBottomTerm(toks, pos) == Fail(NotATerm(toks[pos]), pos);
    assert ParseASTerm(toks, pos) == Fail(NotATerm(toks[pos]), pos);
  }

  /** A formula whose first token cannot start an equation fails there. */
  lemma {:induction false} UnexpectedFirstToken(toks: seq<Token>)
    requires Stream(toks) && toks[0].kind !in {D, Int, Add, Subtract, LeftParentheses, ID, EOF}
    ensures ParseTokens(toks) == Err(NotATerm(toks[0]))
  {
    UnexpectedTermStart(toks, 0);
  }

  /** After a complete equation `x`, a token that neither continues it nor
      starts a term is reported: `1 ! 2` fails at `!`. */
  lemma {:induction false} UnexpectedAfterLiteral(toks: seq<Token>)
    requires Stream(toks) && toks[0].kind == Int
    requires toks[1].kind !in {D, Int, Add, Subtract, Multiply, Divide, Exponentiate, LeftParentheses, ID, EOF}
    ensures ParseTokens(toks) == Err(NotATerm(toks[1]))
  {
    var x := IntTerm(toks[0].Int());
    assert ParseBottomTerm(toks, 0) == Next(x, 1);
    LiftBottom(toks, 0, x, 1);
    assert ParseEquation(toks, 0) == Next(Equation("", x), 1);
    UnexpectedTermStart(toks, 1);
    assert ParseEquation(toks, 1) == Fail(NotATerm(toks[1]), 1);
    assert ParseFormula(toks, 1, [Equation("", x)]) == Err(NotATerm(toks[1]));
    FormulaStep(toks, 0, [], Equation("", x), 1);
  }

  /** A word not followed by `=` is reported at the token after it, so
      equation names are single words. */
  lemma {:induction false} NameNeedsEqual(toks: seq<Token>, pos: nat)
    requires Stream(toks) && pos < |toks| && toks[pos].kind == ID && toks[pos + 1].kind != Equal
    ensures ParseEquation(toks, pos) == Fail(Expectation(["\"=\""], toks[pos + 1]), pos + 1)
  {
  }

  /** A formula that starts with two words is rejected at the second. */
  lemma {:induction false} MultiWordNameRejected(toks: seq<Token>)
    requires Stream(toks) && toks[0].kind == ID && toks[1].kind == ID
    ensures ParseTokens(toks) == Err(Expectation(["\"=\""], toks[1]))
  {
    NameNeedsEqual(toks, 0);
  }

  /** A count and a dice operator must be followed by an integer. */
  lemma {:induction false} DiceNeedFaces(toks: seq<Token>, pos: nat)
    requires Stream(toks) && pos < |toks| && toks[pos].kind == Int && toks[pos + 1].kind == D
    requires toks[pos + 2].kind != Int
    ensures ParseETerm(toks, pos) == Fail(Expectation(["integer"], toks[pos + 2]), pos + 2)
  {
    assert ParseBottomTerm(toks, pos) == Fail(Expectation(["integer"], toks[pos + 2]), pos + 2);
    assert ParseASTerm(toks, pos) == Fail(Expectation(["integer"], toks[pos + 2]), pos + 2);
  }

  /** A count, a dice operator and an integer make a dice term.  The dice
      operator's own text plays no part: the digits the lexer fused into
      `d4` in `3 d4 6` are dropped, and the term is three six-sided dice. */
  lemma {:induction false} CountedDice(toks: seq<Token>, pos: nat)
    requires Stream(toks) && pos < |toks| && toks[pos].kind == Int && toks[pos + 1].kind == D
    requires toks[pos + 2].kind == Int
    ensures ParseBottomTerm(toks, pos) == Next(DiceTerm(toks[pos].Int(), toks[pos + 2].Int()), pos + 3)
  {
  }

  /** A dice operator with no count is one die, whose faces are the
      integer after it. */
  lemma {:induction false} LeadingDice(toks: seq<Token>, pos: nat)
    requires Stream(toks) && pos < |toks| && toks[pos].kind == D && toks[pos + 1].kind == Int
    ensures ParseBottomTerm(toks, pos) == Next(DiceTerm(1, toks[pos + 1].Int()), pos + 2)
  {
  }

  /** A dice operator with no count must also be followed by an integer. */
  lemma {:induction false} LeadingDiceNeedsFaces(toks: seq<Token>, pos: nat)
    requires Stream(toks) && pos < |toks| && toks[pos].kind == D && toks[pos + 1].kind != Int
    ensures ParseBottomTerm(toks, pos) == Fail(Expectation(["integer"], toks[pos + 1]), pos + 1)
  {
  }

  /** A sign must be followed by an integer. */
  lemma {:induction false} SignNeedsInteger(toks: seq<Token>, pos: nat)
    requires Stream(toks) && pos < |toks| && toks[pos].kind in {Add, Subtract} && toks[pos + 1].kind != Int
    ensures ParseBottomTerm(toks, pos) == Fail(Expectation(["integer"], toks[pos + 1]), pos + 1)
  {
  }

  /** A group whose expression is not followed by `)` fails at the token
      found there, expecting `")"`. */
  lemma {:induction false} GroupNeedsClose(toks: seq<Token>, pos: nat, t: Term, p: nat)
    requires Stream(toks) && pos < |toks| && toks[pos].kind == LeftParentheses
    requires ParseETerm(toks, pos + 1) == Next(t, p) && toks[p].kind != RightParentheses
    ensures ParseBottomTerm(toks, pos) == Fail(Expectation(["\")\""], toks[p]), p)
  {
  }

  /** `( n d m` at the end of input: the group is never closed. */
  lemma {:induction false} UnclosedGroup(toks: seq<Token>)
    requires Stream(toks) && |toks| == 5
    requires toks[0].kind == LeftParentheses && toks[1].kind == Int && toks[2].kind == D && toks[3].kind == Int
    ensures ParseTokens(toks) == Err(Expectation(["\")\""], toks[4]))
  {
    var dice := DiceTerm(toks[1].Int(), toks[3].Int());
    assert ParseBottomTerm(toks, 1) == Next(dice, 4);
    LiftBottom(toks, 1, dice, 4);
    assert ParseBottomTerm(toks, 0) == Fail(Expectation(["\")\""], toks[4]), 4);
    assert ParseASTerm(toks, 0) == Fail(Expectation(["\")\""], toks[4]), 4);
    assert ParseMDTerm(toks, 0) == Fail(Expectation(["\")\""], toks[4]), 4);
    assert ParseEquation(toks, 0) == Fail(Expectation(["\")\""], toks[4]), 4);
  }

  /** A sign reads the integer after it only to check its kind: the value
      is taken from the token after that integer, which is also where
      parsing resumes. */
  lemma {:induction false} SignSkipsLiteral(toks: seq<Token>, pos: nat)
    requires Stream(toks) && pos < |toks| && toks[pos].kind in {Add, Subtract} && toks[pos + 1].kind == Int
    ensures var m: int := toks[pos + 2].Int();
      ParseBottomTerm(toks, pos) == Next(IntTerm(if toks[pos].kind == Add then m else -m), pos + 2)
  {
  }

  /** The tokens of `1 + +1 - -1`. */
  function SignedInput(): seq<Token> {
    [Tok(Int, "1"), Tok(Add, "+"), Tok(Add, "+"), Tok(Int, "1"),
     Tok(Subtract, "-"), Tok(Subtract, "-"), Tok(Int, "1"), Tok(EOF, "")]
  }

  /** `1 + +1 - -1`: both signed literals read as zero, the first from the
      `-` after it and the second from the end of input. */
  lemma {:induction false} SignedLiterals(toks: seq<Token>)
    requires toks == SignedInput()
    ensures ParseTokens(toks) == Ok(Formula([Equation("", SubtractTerm(AddTerm(IntTerm(1), IntTerm(0)), IntTerm(0)))]))
  {
    var t := SubtractTerm(AddTerm(IntTerm(1), IntTerm(0)), IntTerm(0));
    SignedTerm(toks);
    assert ParseEquation(toks, 0) == Next(Equation("", t), 7);
    FormulaStep(toks, 0, [], Equation("", t), 7);
  }

  lemma {:induction false} SignedTerm(toks: seq<Token>)
    requires toks == SignedInput()
    ensures Stream(toks) && ParseETerm(toks, 0) == Next(SubtractTerm(AddTerm(IntTerm(1), IntTerm(0)), IntTerm(0)), 7)
  {
    var sum := AddTerm(IntTerm(1), IntTerm(0));
    var t := SubtractTerm(sum, IntTerm(0));
    SignedOperands(toks);
    assert ParseASRest(toks, t, 7) == Next(t, 7);
    assert ParseASRest(toks, sum, 4) == Next(t, 7);
    assert ParseASRest(toks, IntTerm(1), 1) == Next(t, 7);
    assert ParseASTerm(toks, 0) == Next(t, 7);
    assert ParseMDTerm(toks, 0) == Next(t, 7);
  }

  lemma {:induction false} SignedOperands(toks: seq<Token>)
    requires toks == SignedInput()
    ensures Stream(toks)
    ensures ParseBottomTerm(toks, 0) == Next(IntTerm(1), 1)
    ensures ParseBottomTerm(toks, 2) == Next(IntTerm(0), 4)
    ensures ParseBottomTerm(toks, 5) == Next(IntTerm(0), 7)
  {
    assert Value("1") == 1 && Value("-") == 0 && Value("") == 0;
  }
}
