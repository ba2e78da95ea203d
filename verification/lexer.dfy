/** The lexer (internal/lexer/lexer.go): a forward-only state machine over
    the decoded input that yields one token per call of `Read`. */
module Lexing {
  import opened Outcomes
  import opened Runes
  import opened Numerals
  import opened Tokens

  /** The rune under the cursor, or end of input (lexer.go:11). */
  datatype Lookahead = Eof | Rune(c: char)

  /** lexer.go:16-23.  `offset` is the index of the current rune and `size`
      its width in runes: 1, or 0 at end of input. */
  datatype Lexer = Lexer(input: string, offset: nat, line: int, column: int, size: nat, current: Lookahead)

  /** Number of line-break runes among the first `n` runes of `s`. */
  function Lines(s: string, n: nat): nat
    requires n <= |s|
  {
    if n == 0 then 0
    else Lines(s, n - 1) + (if IsLineBreak(s[n - 1]) then 1 else 0)
  }

  /** Number of runes among the first `n` runes of `s` after the last line
      break among them. */
  function Column(s: string, n: nat): nat
    requires n <= |s|
  {
    if n == 0 then 0
    else if IsLineBreak(s[n - 1]) then 0
    else Column(s, n - 1) + 1
  }

  /** The line and column fields describe exactly the runes read so far,
      the current one included. */
  ghost predicate Tracks(lx: Lexer) {
    && lx.offset + lx.size <= |lx.input|
    && lx.line == 1 + Lines(lx.input, lx.offset + lx.size)
    && lx.column == Column(lx.input, lx.offset + lx.size)
  }

  /** A lexer between two calls: position tracked, and the lookahead is the
      rune at `offset`, or end of input when the offset has reached it. */
  ghost predicate Valid(lx: Lexer) {
    && Tracks(lx)
    && (if lx.offset < |lx.input|
        then lx.size == 1 && lx.current == Rune(lx.input[lx.offset])
        else lx.size == 0 && lx.current == Eof)
  }

  /** `readRune` (lexer.go:108-135): moves past the current rune and loads
      the next one, counting a line break as the start of a new line. */
  function ReadRune(lx: Lexer): (r: Lexer)
    ensures r.input == lx.input && r.offset == lx.offset + lx.size
    ensures r.offset < |r.input| && IsLineBreak(r.input[r.offset]) ==> r.line == lx.line + 1 && r.column == 0
    ensures r.offset < |r.input| && !IsLineBreak(r.input[r.offset]) ==> r.line == lx.line && r.column == lx.column + 1
    ensures r.offset >= |r.input| ==> r.line == lx.line && r.column == lx.column
    ensures Tracks(lx) ==> Valid(r)
  {
    var next := lx.offset + lx.size;
    if next < |lx.input| then
      var c := lx.input[next];
      if IsLineBreak(c) then Lexer(lx.input, next, lx.line + 1, 0, 1, Rune(c))
      else Lexer(lx.input, next, lx.line, lx.column + 1, 1, Rune(c))
    else
      Lexer(lx.input, next, lx.line, lx.column, 0, Eof)
  }

  /** `lexer.New` (lexer.go:25-38): line 1, column 0, then the first rune is read. */
  function New(input: string): (lx: Lexer)
    ensures Valid(lx) && lx.input == input && lx.offset == 0
    ensures input == [] ==> lx.line == 1 && lx.column == 0
    ensures input != [] && !IsLineBreak(input[0]) ==> lx.line == 1 && lx.column == 1
    ensures input != [] && IsLineBreak(input[0]) ==> lx.line == 2 && lx.column == 0
  {
    ReadRune(Lexer(input, 0, 1, 0, 0, Rune('\0')))
  }

  /** Runes skipped between tokens (lexer.go:42-45). */
  predicate IsSeparator(u: Classes, c: char) {
    c == ',' || u.isSpace(c)
  }

  predicate IsWordStart(u: Classes, c: char) {
    c == '_' || u.isLetter(c)
  }

  predicate IsWordRune(u: Classes, c: char) {
    c == '_' || u.isLetter(c) || u.isNumber(c)
  }

  /** The runes that continue a digit run (`word` false) or a word (`word` true). */
  predicate Continues(u: Classes, word: bool, c: char) {
    if word then IsWordRune(u, c) else IsAsciiDigit(c)
  }

  /** The one-rune operators of lexer.go:58-81. */
  function OperatorKind(c: char): Option<Kind> {
    if c == '=' then Some(Equal)
    else if c == '(' then Some(LeftParentheses)
    else if c == ')' then Some(RightParentheses)
    else if c == '^' then Some(Exponentiate)
    else if c == '*' then Some(Multiply)
    else if c == '/' then Some(Divide)
    else if c == '+' then Some(Add)
    else if c == '-' then Some(Subtract)
    else None
  }

  /** The pattern `\A[Dd]\d+\z` of lexer.go:14; `\d` is ASCII-only. */
  predicate MatchesD(s: string) {
    2 <= |s| && (s[0] == 'd' || s[0] == 'D') && AllDigits(s[1..])
  }

  /** Skips separators; stops on the first other rune or at end of input. */
  function Skip(u: Classes, lx: Lexer): (r: Lexer)
    requires Valid(lx)
    ensures Valid(r) && r.input == lx.input && lx.offset <= r.offset
    ensures forall i | lx.offset <= i < r.offset :: IsSeparator(u, lx.input[i])
    ensures r.current.Rune? ==> !IsSeparator(u, r.current.c)
    decreases |lx.input| - lx.offset
  {
    if lx.current.Rune? && IsSeparator(u, lx.current.c) then Skip(u, ReadRune(lx)) else lx
  }

  /** Consumes the maximal run of runes that continue a number or a word. */
  function ReadRun(u: Classes, lx: Lexer, word: bool): (r: Lexer)
    requires Valid(lx)
    ensures Valid(r) && r.input == lx.input && lx.offset <= r.offset
    ensures forall i | lx.offset <= i < r.offset :: Continues(u, word, lx.input[i])
    ensures r.offset < |r.input| ==> !Continues(u, word, r.input[r.offset])
    decreases |lx.input| - lx.offset
  {
    if lx.current.Rune? && Continues(u, word, lx.current.c) then ReadRun(u, ReadRune(lx), word) else lx
  }

  /** The classifying switch of lexer.go:52-97, applied after separators
      are skipped: the kind found and the lexer moved past the token. */
  function Scan(u: Classes, s: Lexer): (r: (Kind, Lexer))
    requires Valid(s)
    ensures Valid(r.1) && r.1.input == s.input && s.offset <= r.1.offset
    ensures r.0 == EOF <==> s.offset == |s.input|
    ensures r.0 == EOF ==> r.1 == s
    ensures r.0 != EOF ==> s.offset < r.1.offset
    ensures r.0 != D
  {
    match s.current
    case Eof => (EOF, s)
    case Rune(c) =>
      if c == ReplacementRune then (RuneError, ReadRune(s))
      else if OperatorKind(c).Some? then (OperatorKind(c).value, ReadRune(s))
      else if IsAsciiDigit(c) then (Int, ReadRun(u, s, false))
      else if IsWordStart(u, c) then (ID, ReadRun(u, s, true))
      else (Unrecognized, ReadRune(s))
  }

  /** `Lexer.Read` (lexer.go:41-106): skip separators, record the position,
      classify, cut the text from the input, and reclassify `[Dd]\d+` as D. */
  function Read(u: Classes, lx: Lexer): (r: (Token, Lexer))
    requires Valid(lx)
    ensures Valid(r.1) && r.1.input == lx.input
    ensures var s := Skip(u, lx);
      && s.offset <= r.1.offset
      && r.0.text == lx.input[s.offset..r.1.offset]
      && r.0.line == s.line && r.0.column == s.column
      && (r.0.kind == EOF <==> s.offset == |lx.input|)
      && (r.0.kind == EOF ==> r.1 == s)
    ensures r.0.kind != EOF ==> lx.offset < r.1.offset && 1 <= |r.0.text|
    ensures r.0.kind == D <==> MatchesD(r.0.text)
  {
    var s := Skip(u, lx);
    var scanned := Scan(u, s);
    var kind, next := scanned.0, scanned.1;
    var text := lx.input[s.offset..next.offset];
    assert |text| == next.offset - s.offset;
    (Tokens.New(s.line, s.column, if MatchesD(text) then D else kind, text), next)
  }

  /** The token stream of a lexer: every token up to and including the
      first end-of-input token. */
  function Tokenize(u: Classes, lx: Lexer): (toks: seq<Token>)
    requires Valid(lx)
    ensures 1 <= |toks| && toks[|toks| - 1].kind == EOF
    ensures forall i | 0 <= i < |toks| - 1 :: toks[i].kind != EOF
    decreases |lx.input| - lx.offset
  {
    var (t, next) := Read(u, lx);
    if t.kind == EOF then [t]
    else
      var rest := Tokenize(u, next);
      EndsAtEofCons(t, rest);
      [t] + rest
  }

  /** Putting a token other than end of input in front of a stream that
      ends at its only end-of-input token keeps that shape. */
  lemma EndsAtEofCons(t: Token, rest: seq<Token>)
    requires t.kind != EOF && 1 <= |rest| && rest[|rest| - 1].kind == EOF
    requires forall i | 0 <= i < |rest| - 1 :: rest[i].kind != EOF
    ensures var toks := [t] + rest;
      && toks[|toks| - 1].kind == EOF
      && forall i | 0 <= i < |toks| - 1 :: toks[i].kind != EOF
  {
    var toks := [t] + rest;
    assert forall i | 1 <= i < |toks| :: toks[i] == rest[i - 1];
  }
}
