/** Worked inputs of the lexer, and of the parser on what the lexer
    produces for them. */
module LexingExamples {
  import opened Outcomes
  import opened Runes
  import opened Tokens
  import opened Lexing
  import opened Expectations
  import Parsing

  /** The first token of `2d4`: the integer stops at the letter. */
  lemma TwoDFourFirst(u: Classes, s: string)
    requires AsciiFaithful(u) && s == "2d4"
    ensures Lexing.New(s) == Lexer(s, 0, 1, 1, 1, Rune('2'))
    ensures Read(u, Lexer(s, 0, 1, 1, 1, Rune('2'))) == (Token(1, 1, Int, "2"), Lexer(s, 1, 1, 2, 1, Rune('d')))
  {
    var l0 := Lexer(s, 0, 1, 1, 1, Rune('2'));
    var l1 := Lexer(s, 1, 1, 2, 1, Rune('d'));
    assert Skip(u, l0) == l0;
    assert ReadRune(l0) == l1;
    assert ReadRun(u, l1, false) == l1;
    assert s[0..1] == "2";
  }

  /** The second token of `2d4`: the word `d4` matches the dice pattern. */
  lemma TwoDFourSecond(u: Classes, s: string)
    requires AsciiFaithful(u) && s == "2d4"
    requires Valid(Lexer(s, 1, 1, 2, 1, Rune('d')))
    ensures Read(u, Lexer(s, 1, 1, 2, 1, Rune('d'))) == (Token(1, 2, D, "d4"), Lexer(s, 3, 1, 3, 0, Eof))
  {
    var l1 := Lexer(s, 1, 1, 2, 1, Rune('d'));
    TwoDFourWord(u, s);
    assert Skip(u, l1) == l1;
    assert s[1..3] == "d4";
    assert MatchesD("d4");
  }

  /** The rune `d` starts a word that runs to the end of `2d4`. */
  lemma TwoDFourWord(u: Classes, s: string)
    requires AsciiFaithful(u) && s == "2d4"
    requires Valid(Lexer(s, 1, 1, 2, 1, Rune('d')))
    ensures Scan(u, Lexer(s, 1, 1, 2, 1, Rune('d'))) == (ID, Lexer(s, 3, 1, 3, 0, Eof))
  {
    var l1 := Lexer(s, 1, 1, 2, 1, Rune('d'));
    var l2 := Lexer(s, 2, 1, 3, 1, Rune('4'));
    var l3 := Lexer(s, 3, 1, 3, 0, Eof);
    assert ReadRune(l1) == l2;
    assert ReadRune(l2) == l3;
    assert ReadRun(u, l2, true) == l3;
  }

  /** End of input keeps the position of the last rune. */
  lemma TwoDFourEnd(u: Classes, s: string)
    requires AsciiFaithful(u) && s == "2d4"
    requires Valid(Lexer(s, 3, 1, 3, 0, Eof))
    ensures Read(u, Lexer(s, 3, 1, 3, 0, Eof)) == (Token(1, 3, EOF, ""), Lexer(s, 3, 1, 3, 0, Eof))
  {
    assert s[3..3] == "";
  }

  /** `2d4` is two tokens, an integer and a dice operator that carries the
      faces in its text, not the three tokens the parser's dice rule reads. */
  lemma TwoDFour(u: Classes, s: string)
    requires AsciiFaithful(u) && s == "2d4"
    ensures Tokenize(u, Lexing.New(s)) == [Token(1, 1, Int, "2"), Token(1, 2, D, "d4"), Token(1, 3, EOF, "")]
  {
    TwoDFourFirst(u, s);
    TwoDFourSecond(u, s);
    TwoDFourEnd(u, s);
    var l1, l3 := Lexer(s, 1, 1, 2, 1, Rune('d')), Lexer(s, 3, 1, 3, 0, Eof);
    assert Tokenize(u, l3) == [Token(1, 3, EOF, "")];
    assert Tokenize(u, l1) == [Token(1, 2, D, "d4")] + Tokenize(u, l3);
  }

  /** `2d4` therefore does not parse: the dice operator after the count
      must be followed by an integer token. */
  lemma TwoDFourRejected(u: Classes, s: string)
    requires AsciiFaithful(u) && s == "2d4"
    ensures Parsing.Parse(u, s) == Err(Expectation(["integer"], Token(1, 3, EOF, "")))
  {
    TwoDFour(u, s);
    var toks := [Token(1, 1, Int, "2"), Token(1, 2, D, "d4"), Token(1, 3, EOF, "")];
    assert Parsing.ParseBottomTerm(toks, 0) == Parsing.Fail(Expectation(["integer"], toks[2]), 2);
    assert Parsing.ParseASTerm(toks, 0) == Parsing.Fail(Expectation(["integer"], toks[2]), 2);
    assert Parsing.ParseMDTerm(toks, 0) == Parsing.Fail(Expectation(["integer"], toks[2]), 2);
    assert Parsing.ParseEquation(toks, 0) == Parsing.Fail(Expectation(["integer"], toks[2]), 2);
  }

  /** `!` is not a separator, an operator, a digit or a word start. */
  lemma BangScan(u: Classes, s: string)
    requires AsciiFaithful(u) && s == "!"
    requires Valid(Lexer(s, 0, 1, 1, 1, Rune('!')))
    ensures Skip(u, Lexer(s, 0, 1, 1, 1, Rune('!'))) == Lexer(s, 0, 1, 1, 1, Rune('!'))
    ensures Scan(u, Lexer(s, 0, 1, 1, 1, Rune('!'))) == (Unrecognized, Lexer(s, 1, 1, 1, 0, Eof))
  {
    assert ReadRune(Lexer(s, 0, 1, 1, 1, Rune('!'))) == Lexer(s, 1, 1, 1, 0, Eof);
    assert !IsWordStart(u, '!') && OperatorKind('!') == None;
  }

  /** The only token of `!`: a rune no rule claims. */
  lemma BangFirst(u: Classes, s: string)
    requires AsciiFaithful(u) && s == "!"
    ensures Lexing.New(s) == Lexer(s, 0, 1, 1, 1, Rune('!'))
    ensures Read(u, Lexer(s, 0, 1, 1, 1, Rune('!'))) == (Token(1, 1, Unrecognized, s), Lexer(s, 1, 1, 1, 0, Eof))
  {
    assert s[0] == '!' && !IsLineBreak(s[0]);
    assert Lexing.New(s) == Lexer(s, 0, 1, 1, 1, Rune('!'));
    BangScan(u, s);
    assert s[0..1] == s;
    assert !MatchesD(s);
  }

  lemma BangEnd(u: Classes, s: string)
    requires AsciiFaithful(u) && s == "!"
    requires Valid(Lexer(s, 1, 1, 1, 0, Eof))
    ensures Read(u, Lexer(s, 1, 1, 1, 0, Eof)) == (Token(1, 1, EOF, ""), Lexer(s, 1, 1, 1, 0, Eof))
  {
    assert s[1..1] == "";
  }

  /** `!` is one unrecognised token, and end of input stays on its column. */
  lemma Bang(u: Classes, s: string)
    requires AsciiFaithful(u) && s == "!"
    ensures Tokenize(u, Lexing.New(s)) == [Token(1, 1, Unrecognized, s), Token(1, 1, EOF, "")]
  {
    BangFirst(u, s);
    BangEnd(u, s);
    var l1 := Lexer(s, 1, 1, 1, 0, Eof);
    assert Tokenize(u, l1) == [Token(1, 1, EOF, "")];
  }

  /** `!` cannot start a term. */
  lemma BangRejected(u: Classes, s: string)
    requires AsciiFaithful(u) && s == "!"
    ensures Parsing.Parse(u, s) == Err(Expectation(["integer", "dice term", "\"(\""], Token(1, 1, Unrecognized, s)))
  {
    Bang(u, s);
    var toks := [Token(1, 1, Unrecognized, s), Token(1, 1, EOF, "")];
    var e := Expectation(["integer", "dice term", "\"(\""], toks[0]);
    assert Parsing.ParseBottomTerm(toks, 0) == Parsing.Fail(e, 0);
    assert Parsing.ParseASTerm(toks, 0) == Parsing.Fail(e, 0);
    assert Parsing.ParseMDTerm(toks, 0) == Parsing.Fail(e, 0);
    assert Parsing.ParseETerm(toks, 0) == Parsing.Fail(e, 0);
    assert Parsing.ParseOptionalEquationName(toks, 0) == Parsing.Next("", 0);
    assert Parsing.ParseEquation(toks, 0) == Parsing.Fail(e, 0);
  }
}
