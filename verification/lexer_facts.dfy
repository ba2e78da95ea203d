/** Properties of the lexer (internal/lexer/lexer.go) stated against
    independent descriptions: the text each kind of token may carry, the
    position of a rune in the input, and concrete inputs. */
module LexingFacts {
  import opened Outcomes
  import opened Runes
  import opened Numerals
  import opened Tokens
  import opened Lexing

  /** What a token of each kind may look like, independently of how the
      lexer finds it. */
  ghost predicate Lexeme(u: Classes, kind: Kind, text: string) {
    match kind
    case EOF => text == []
    case RuneError => text == [ReplacementRune]
    case Int => 1 <= |text| && AllDigits(text)
    case ID =>
      && 1 <= |text| && IsWordStart(u, text[0])
      && (forall i | 1 <= i < |text| :: IsWordRune(u, text[i]))
      && !MatchesD(text)
    case D => MatchesD(text)
    case Unrecognized =>
      && |text| == 1
      && text[0] != ReplacementRune && OperatorKind(text[0]).None?
      && !IsAsciiDigit(text[0]) && !IsWordStart(u, text[0]) && !IsSeparator(u, text[0])
    case _ => |text| == 1 && OperatorKind(text[0]) == Some(kind)
  }

  /** Every token `Read` returns has the shape its kind promises; it never
      starts with a comma or white space. */
  lemma {:induction false} ReadLexeme(u: Classes, lx: Lexer)
    requires Valid(lx)
    ensures Lexeme(u, Read(u, lx).0.kind, Read(u, lx).0.text)
    ensures Read(u, lx).0.kind != EOF ==> !IsSeparator(u, Read(u, lx).0.text[0])
  {
    var s := Skip(u, lx);
    var (t, next) := Read(u, lx);
    assert t.text == lx.input[s.offset..next.offset];
    match s.current
    case Eof =>
    case Rune(c) =>
      assert t.text[0] == c;
      if c == ReplacementRune || OperatorKind(c).Some? {
        assert t.text == [c];
      } else if IsAsciiDigit(c) {
        RunText(u, s, false);
      } else if IsWordStart(u, c) {
        RunText(u, s, true);
      } else {
        assert t.text == [c];
      }
  }

  /** The text a run covers is made of runes that continue it. */
  lemma RunText(u: Classes, s: Lexer, word: bool)
    requires Valid(s)
    ensures var text := s.input[s.offset..ReadRun(u, s, word).offset];
      forall i | 0 <= i < |text| :: Continues(u, word, text[i])
  {
    var text := s.input[s.offset..ReadRun(u, s, word).offset];
    assert forall i | 0 <= i < |text| :: text[i] == s.input[s.offset + i];
  }

  /** Number and word tokens are maximal: the rune after the token could
      not have extended it. */
  lemma {:induction false} ReadMaximal(u: Classes, lx: Lexer)
    requires Valid(lx)
    ensures var (t, next) := Read(u, lx);
      next.offset < |lx.input| ==>
        && (t.kind == Int ==> !IsAsciiDigit(lx.input[next.offset]))
        && (t.kind == ID || t.kind == D ==> !IsWordRune(u, lx.input[next.offset]))
  {
    var s := Skip(u, lx);
    var (t, next) := Read(u, lx);
    if s.current.Rune? {
      var c := s.current.c;
      if c == ReplacementRune || OperatorKind(c).Some? || IsAsciiDigit(c) || !IsWordStart(u, c) {
        assert t.kind != ID && t.kind != D;
      }
    }
  }

  /** The recorded position is that of the token's first rune: line and
      column of the input up to and including it; end of input takes the
      position reached after the whole input. */
  lemma {:induction false} ReadPosition(u: Classes, lx: Lexer)
    requires Valid(lx)
    ensures var (t, next) := Read(u, lx);
      var start := Skip(u, lx).offset;
      && (t.kind == EOF ==> t.line == 1 + Lines(lx.input, |lx.input|) && t.column == Column(lx.input, |lx.input|))
      && (t.kind != EOF ==>
            && start < |lx.input| && lx.input[start] == t.text[0]
            && t.line == 1 + Lines(lx.input, start + 1)
            && t.column == Column(lx.input, start + 1))
  {
    var r := Read(u, lx);
    var s := Skip(u, lx);
    assert Tracks(s) && r.0.line == s.line && r.0.column == s.column;
    if r.0.kind != EOF {
      assert s.offset < |lx.input| && s.size == 1;
      assert r.0.text[0] == lx.input[s.offset];
    }
  }

  /** At end of input, reading again yields the same token and state. */
  lemma {:induction false} EofIsSticky(u: Classes, lx: Lexer)
    requires Valid(lx)
    requires Read(u, lx).0.kind == EOF
    ensures Read(u, Read(u, lx).1) == Read(u, lx)
  {
    var s := Skip(u, lx);
    assert Skip(u, s) == s;
  }
}
