/** Character classes consulted by the lexer and by the Markdown escaper.

    Input text is a sequence of Unicode scalar values that have already been
    decoded from UTF-8; offsets therefore count runes, not bytes.  The Unicode
    category tables are not reproduced: they are a parameter (`Classes`) whose
    ASCII part is fixed by `AsciiFaithful`. */
module Runes {

  /** U+FFFD, the rune a UTF-8 decoder yields for a malformed byte sequence. */
  const ReplacementRune: char := '\U{FFFD}'

  /** The four Unicode predicates the source takes from Go's `unicode` package. */
  datatype Classes = Classes(
    isSpace: char -> bool,
    isLetter: char -> bool,
    isNumber: char -> bool,
    isGraphic: char -> bool)

  predicate IsAsciiDigit(c: char) {
    '0' <= c <= '9'
  }

  predicate IsAsciiLetter(c: char) {
    'a' <= c <= 'z' || 'A' <= c <= 'Z'
  }

  /** Tab, newline, vertical tab, form feed, carriage return and space. */
  predicate IsAsciiSpace(c: char) {
    c == '\t' || c == '\n' || c == '\U{B}' || c == '\U{C}' || c == '\r' || c == ' '
  }

  /** What the Unicode tables say about the ASCII range, plus the one
      non-ASCII fact the lexer depends on: U+FFFD is not white space. */
  ghost predicate AsciiFaithful(u: Classes) {
    && (forall c: char {:trigger u.isSpace(c)} | c < '\U{80}' :: u.isSpace(c) == IsAsciiSpace(c))
    && (forall c: char {:trigger u.isLetter(c)} | c < '\U{80}' :: u.isLetter(c) == IsAsciiLetter(c))
    && (forall c: char {:trigger u.isNumber(c)} | c < '\U{80}' :: u.isNumber(c) == IsAsciiDigit(c))
    && (forall c: char {:trigger u.isGraphic(c)} | c < '\U{80}' :: u.isGraphic(c) == (' ' <= c <= '~'))
    && !u.isSpace(ReplacementRune)
  }

  /** The runes after which the lexer starts a new line (lexer.go:109-125). */
  predicate IsLineBreak(c: char) {
    || c == '\n' || c == '\r'
    || c == '\U{1C}' || c == '\U{1D}' || c == '\U{1E}'
    || c == '\U{85}' || c == '\U{2028}' || c == '\U{2029}'
  }
}
