/** Tokens (internal/token/token.go): the closed set of lexical kinds, the
    token record, its lenient integer decoder and its rendering for error
    messages. */
module Tokens {
  import opened Outcomes
  import opened Numerals
  import Quoting

  /** The kinds of token.go:7-22.  token.go declares no `Word` kind, which
      the lexer assigns to words; the model reads it as `ID`, the kind the
      parser takes a name from. */
  datatype Kind =
    | Unrecognized
    | RuneError
    | EOF
    | Equal
    | LeftParentheses
    | RightParentheses
    | Exponentiate
    | Multiply
    | Divide
    | Add
    | Subtract
    | D
    | Int
    | ID

  /** A token: the position of its first rune and the exact source text. */
  datatype Token = Token(line: int, column: int, kind: Kind, text: string) {

    /** `Token.Int()`: the decimal value of the ASCII digits in the text;
        every other rune is skipped. */
    function Int(): (r: nat)
      ensures r == Positional(OnlyDigits(text))
    {
      ValueIgnoresNonDigits(text);
      ValueIsPositional(OnlyDigits(text));
      Value(text)
    }

    /** `Token.Quote()`: the fixed phrases for end of input and for a
        decoding error, the `%q`-quoted text for every other kind. */
    function Quote(): (r: string)
      ensures kind == EOF ==> r == "end of input"
      ensures kind == RuneError ==> r == "invalid utf-8 sequence"
      ensures kind != EOF && kind != RuneError ==> Quoting.Unquote(r) == Some(text)
    {
      match kind
      case RuneError => "invalid utf-8 sequence"
      case EOF => "end of input"
      case _ =>
        Quoting.QuoteRoundTrip(text);
        Quoting.Quote(text)
    }
  }

  /** `token.New`. */
  function New(line: int, column: int, kind: Kind, text: string): (t: Token)
    ensures t.line == line && t.column == column && t.kind == kind && t.text == text
  {
    Token(line, column, kind, text)
  }

  /** The loop of `Token.Int()` (token.go:35-46), proved to compute `Int()`. */
  method ScanInt(t: Token) returns (value: nat)
    ensures value == t.Int()
    ensures AllDigits(t.text) ==> value == Positional(t.text)
  {
    value := 0;
    var i := 0;
    while i < |t.text|
      invariant 0 <= i <= |t.text|
      invariant value == Value(t.text[..i])
    {
      var c := t.text[i];
      ValueAppend(t.text[..i], c);
      assert t.text[..i + 1] == t.text[..i] + [c];
      if '0' <= c <= '9' {
        value := value * 10 + (c as int - '0' as int);
      }
      i := i + 1;
    }
    assert t.text[..i] == t.text;
    if AllDigits(t.text) {
      ValueIsPositional(t.text);
    }
  }

  /** Apart from end of input and decoding errors, the rendering of a token
      depends on its text alone, not on its kind or position. */
  lemma QuoteDependsOnlyOnText(a: Token, b: Token)
    requires a.kind !in {EOF, RuneError} && b.kind !in {EOF, RuneError}
    requires a.text == b.text
    ensures a.Quote() == b.Quote()
  {
  }
}
