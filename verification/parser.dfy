/** The recursive-descent parser (internal/parser/parser.go) over the token
    stream the lexer produces: one token of lookahead (`toks[pos]`), every
    failure a single `Expectation` at the token where parsing stopped. */
module Parsing {
  import opened Outcomes
  import opened Runes
  import opened Tokens
  import opened Ast
  import opened Expectations
  import Lexing

  /** The outcome of one parsing function: a value and the index of the
      new current token, or the error together with the index of the
      token it reports. */
  datatype Step<+T> = Next(value: T, pos: nat) | Fail(error: Expectation, at: nat)

  /** A lexer's token stream: it ends with the first end-of-input token,
      which the lexer keeps returning from then on. */
  ghost predicate Stream(toks: seq<Token>) {
    1 <= |toks| && toks[|toks| - 1].kind == EOF
  }

  /** A step starting at `pos` moved forward (strictly, when `strict`)
      without consuming end of input, or failed at a token it had reached. */
  ghost predicate Progress<T>(toks: seq<Token>, pos: nat, r: Step<T>, strict: bool) {
    match r
    case Next(_, p) =>
      && (if strict then pos < p else pos <= p) && p < |toks|
      && forall k | pos <= k < p :: toks[k].kind != EOF
    case Fail(e, at) => pos <= at < |toks| && e.received == toks[at]
  }

  /** `parser.expected`: an error about the current token. */
  function Expected<T>(toks: seq<Token>, at: nat, alternatives: seq<string>): (r: Step<T>)
    requires at < |toks|
    ensures r.Fail? && r.at == at && r.error.received == toks[at] && r.error.expected == alternatives
  {
    Fail(Expectation(alternatives, toks[at]), at)
  }

  /** `parseETerm` (parser.go:86-104): an exponent chain, right-associative. */
  function ParseETerm(toks: seq<Token>, pos: nat): (r: Step<Term>)
    requires Stream(toks) && pos < |toks|
    ensures Progress(toks, pos, r, true)
    decreases |toks| - pos, 4
  {
    match ParseMDTerm(toks, pos)
    case Fail(e, at) => Fail(e, at)
    case Next(left, p) =>
      if toks[p].kind == Exponentiate then
        match ParseETerm(toks, p + 1)
        case Fail(e, at) => Fail(e, at)
        case Next(right, q) => Next(ExponentiateTerm(left, right), q)
      else Next(left, p)
  }

  /** `parseMDTerm` (parser.go:106-136): products and quotients of
      add/subtract terms, left-associative. */
  function ParseMDTerm(toks: seq<Token>, pos: nat): (r: Step<Term>)
    requires Stream(toks) && pos < |toks|
    ensures Progress(toks, pos, r, true)
    decreases |toks| - pos, 3
  {
    match ParseASTerm(toks, pos)
    case Fail(e, at) => Fail(e, at)
    case Next(left, p) => ParseMDRest(toks, left, p)
  }

  /** The loop of parseMDTerm, with the term built so far. */
  function ParseMDRest(toks: seq<Token>, left: Term, pos: nat): (r: Step<Term>)
    requires Stream(toks) && pos < |toks|
    ensures Progress(toks, pos, r, false)
    decreases |toks| - pos, 3
  {
    var kind := toks[pos].kind;
    if kind == Multiply || kind == Divide then
      match ParseASTerm(toks, pos + 1)
      case Fail(e, at) => Fail(e, at)
      case Next(right, p) =>
        ParseMDRest(toks, if kind == Multiply then MultiplyTerm(left, right) else DivideTerm(left, right), p)
    else Next(left, pos)
  }

  /** `parseASTerm` (parser.go:138-168): sums and differences of bottom
      terms, left-associative. */
  function ParseASTerm(toks: seq<Token>, pos: nat): (r: Step<Term>)
    requires Stream(toks) && pos < |toks|
    ensures Progress(toks, pos, r, true)
    decreases |toks| - pos, 2
  {
    match ParseBottomTerm(toks, pos)
    case Fail(e, at) => Fail(e, at)
    case Next(left, p) => ParseASRest(toks, left, p)
  }

  /** The loop of parseASTerm, with the term built so far. */
  function ParseASRest(toks: seq<Token>, left: Term, pos: nat): (r: Step<Term>)
    requires Stream(toks) && pos < |toks|
    ensures Progress(toks, pos, r, false)
    decreases |toks| - pos, 2
  {
    var kind := toks[pos].kind;
    if kind == Add || kind == Subtract then
      match ParseBottomTerm(toks, pos + 1)
      case Fail(e, at) => Fail(e, at)
      case Next(right, p) =>
        ParseASRest(toks, if kind == Add then AddTerm(left, right) else SubtractTerm(left, right), p)
    else Next(left, pos)
  }

  /** `parseBottomTerm` (parser.go:171-241).  The sign branches advance
      past the integer before reading it, so the value they produce is that
      of the token after the integer. */
  function ParseBottomTerm(toks: seq<Token>, pos: nat): (r: Step<Term>)
    requires Stream(toks) && pos < |toks|
    ensures Progress(toks, pos, r, true)
    decreases |toks| - pos, 1
  {
    var kind := toks[pos].kind;
    if kind == D then
      if toks[pos + 1].kind != Int then Expected(toks, pos + 1, ["integer"])
      else Next(DiceTerm(1, toks[pos + 1].Int()), pos + 2)
    else if kind == Int then
      var intOrCount := toks[pos].Int();
      if toks[pos + 1].kind == D then
        if toks[pos + 2].kind != Int then Expected(toks, pos + 2, ["integer"])
        else Next(DiceTerm(intOrCount, toks[pos + 2].Int()), pos + 3)
      else Next(IntTerm(intOrCount), pos + 1)
    else if kind == Add || kind == Subtract then
      if toks[pos + 1].kind != Int then Expected(toks, pos + 1, ["integer"])
      else
        var magnitude: int := toks[pos + 2].Int();
        Next(IntTerm(if kind == Add then magnitude else -magnitude), pos + 2)
    else if kind == LeftParentheses then ParseGroup(toks, pos)
    else Expected(toks, pos, ["integer", "dice term", "\"(\""])
  }

  /** The parenthesised branch of parseBottomTerm (parser.go:223-237): an
      expression, then the closing parenthesis. */
  function ParseGroup(toks: seq<Token>, pos: nat): (r: Step<Term>)
    requires Stream(toks) && pos < |toks| && toks[pos].kind == LeftParentheses
    ensures Progress(toks, pos, r, true)
    decreases |toks| - pos, 0
  {
    match ParseETerm(toks, pos + 1)
    case Fail(e, at) => Fail(e, at)
    case Next(term, p) =>
      if toks[p].kind != RightParentheses then Expected(toks, p, ["\")\""])
      else Next(term, p + 1)
  }

  /** `parseOptionalEquationName` (parser.go:68-84): one word followed by
      `=` names the equation; anything else but a word leaves it unnamed. */
  function ParseOptionalEquationName(toks: seq<Token>, pos: nat): (r: Step<string>)
    requires Stream(toks) && pos < |toks|
    ensures Progress(toks, pos, r, false)
    ensures toks[pos].kind != ID ==> r == Next("", pos)
    ensures toks[pos].kind == ID && toks[pos + 1].kind == Equal ==> r == Next(toks[pos].text, pos + 2)
    ensures toks[pos].kind == ID && toks[pos + 1].kind != Equal ==> r == Fail(Expectation(["\"=\""], toks[pos + 1]), pos + 1)
  {
    if toks[pos].kind != ID then Next("", pos)
    else if toks[pos + 1].kind != Equal then Expected(toks, pos + 1, ["\"=\""])
    else Next(toks[pos].text, pos + 2)
  }

  /** `parseEquation` (parser.go:54-66). */
  function ParseEquation(toks: seq<Token>, pos: nat): (r: Step<Equation>)
    requires Stream(toks) && pos < |toks|
    ensures Progress(toks, pos, r, true)
  {
    match ParseOptionalEquationName(toks, pos)
    case Fail(e, at) => Fail(e, at)
    case Next(name, p) =>
      match ParseETerm(toks, p)
      case Fail(e, at) => Fail(e, at)
      case Next(term, q) => Next(Equation(name, term), q)
  }

  /** `parseFormula` (parser.go:39-52): equations until end of input, with
      `done` the equations already parsed. */
  function ParseFormula(toks: seq<Token>, pos: nat, done: seq<Equation>): (r: Result<Formula, Expectation>)
    requires Stream(toks) && pos < |toks|
    ensures r.Ok? ==> |done| <= |r.value.equations| && r.value.equations[..|done|] == done
    ensures r.Err? ==> exists k | pos <= k < |toks| :: r.error.received == toks[k]
    decreases |toks| - pos
  {
    if toks[pos].kind == EOF then Ok(Formula(done))
    else
      match ParseEquation(toks, pos)
      case Fail(e, at) => Err(e)
      case Next(equation, p) =>
        var r := ParseFormula(toks, p, done + [equation]);
        assert r.Ok? ==> r.value.equations[..|done|] == (done + [equation])[..|done|];
        r
  }

  /** A formula from a token stream. */
  function ParseTokens(toks: seq<Token>): Result<Formula, Expectation>
    requires Stream(toks)
  {
    ParseFormula(toks, 0, [])
  }

  /** `parser.Parse` (parser.go:9-23): lex the whole input, then parse. */
  function Parse(u: Classes, input: string): (r: Result<Formula, Expectation>)
    ensures r.Err? ==> r.error.received in Lexing.Tokenize(u, Lexing.New(input))
  {
    ParseTokens(Lexing.Tokenize(u, Lexing.New(input)))
  }
}
