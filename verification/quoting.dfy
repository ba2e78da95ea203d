/** Go's `%q` rendering of a string (`strconv.Quote`), used by
    `Token.Quote` (internal/token/token.go:55), together with its inverse.
    ASCII is rendered exactly as Go does; every non-ASCII rune is treated
    as printable and copied unchanged. */
module Quoting {
  import opened Outcomes

  function HexRune(n: nat): char
    requires n < 16
  {
    if n < 10 then ('0' as int + n) as char else ('a' as int + n - 10) as char
  }

  function HexValue(c: char): Option<nat> {
    if '0' <= c <= '9' then Some(c as int - '0' as int)
    else if 'a' <= c <= 'f' then Some(c as int - 'a' as int + 10)
    else None
  }

  /** The escape sequence Go writes for one rune inside double quotes. */
  function EscapeRune(c: char): (r: string)
    ensures 1 <= |r|
    ensures r[0] == '\\' <==> |r| > 1
  {
    if c == '"' || c == '\\' then ['\\', c]
    else if c == '\U{7}' then "\\a"
    else if c == '\U{8}' then "\\b"
    else if c == '\U{C}' then "\\f"
    else if c == '\n' then "\\n"
    else if c == '\r' then "\\r"
    else if c == '\t' then "\\t"
    else if c == '\U{B}' then "\\v"
    else if c < ' ' || c == '\U{7F}' then ['\\', 'x', HexRune(c as int / 16), HexRune(c as int % 16)]
    else [c]
  }

  function EscapeAll(s: string): string {
    if s == [] then [] else EscapeRune(s[0]) + EscapeAll(s[1..])
  }

  /** `fmt.Sprintf("%q", s)`. */
  function Quote(s: string): string {
    "\"" + EscapeAll(s) + "\""
  }

  function Prepend(c: char, rest: Option<string>): Option<string> {
    match rest
    case None => None
    case Some(s) => Some([c] + s)
  }

  /** Reads back the body of a quoted string; fails on a bare quote or an
      escape sequence Go would not write. */
  function Unescape(s: string): Option<string>
    decreases |s|
  {
    if s == [] then Some([])
    else if s[0] == '"' then None
    else if s[0] != '\\' then Prepend(s[0], Unescape(s[1..]))
    else if |s| < 2 then None
    else
      var e := s[1];
      if e == '"' || e == '\\' then Prepend(e, Unescape(s[2..]))
      else if e == 'a' then Prepend('\U{7}', Unescape(s[2..]))
      else if e == 'b' then Prepend('\U{8}', Unescape(s[2..]))
      else if e == 'f' then Prepend('\U{C}', Unescape(s[2..]))
      else if e == 'n' then Prepend('\n', Unescape(s[2..]))
      else if e == 'r' then Prepend('\r', Unescape(s[2..]))
      else if e == 't' then Prepend('\t', Unescape(s[2..]))
      else if e == 'v' then Prepend('\U{B}', Unescape(s[2..]))
      else if e == 'x' && |s| >= 4 && HexValue(s[2]).Some? && HexValue(s[3]).Some? then
        var hi, lo := HexValue(s[2]).value, HexValue(s[3]).value;
        Prepend((hi * 16 + lo) as char, Unescape(s[4..]))
      else None
  }

  function Unquote(q: string): Option<string> {
    if 2 <= |q| && q[0] == '"' && q[|q| - 1] == '"' then Unescape(q[1..|q| - 1]) else None
  }

  lemma HexRoundTrip(n: nat)
    requires n < 16
    ensures HexValue(HexRune(n)) == Some(n)
  {
  }

  /** Reading back one escaped rune yields that rune and continues after it. */
  lemma {:induction false} UnescapeRune(c: char, rest: string)
    ensures Unescape(EscapeRune(c) + rest) == Prepend(c, Unescape(rest))
  {
    var e := EscapeRune(c);
    var s := e + rest;
    if |e| == 1 {
      assert s[1..] == rest;
    } else if |e| == 2 {
      assert s[2..] == rest;
    } else {
      assert |e| == 4;
      assert s[4..] == rest;
      var hi, lo := c as int / 16, c as int % 16;
      HexRoundTrip(hi);
      HexRoundTrip(lo);
      assert (hi * 16 + lo) as char == c;
    }
  }

  /** `%q` loses nothing: the quoted text reads back to the original. */
  lemma {:induction false} QuoteRoundTrip(s: string)
    ensures Unescape(EscapeAll(s)) == Some(s)
    ensures Unquote(Quote(s)) == Some(s)
    decreases |s|
  {
    if s != [] {
      QuoteRoundTrip(s[1..]);
      UnescapeRune(s[0], EscapeAll(s[1..]));
      assert [s[0]] + s[1..] == s;
    }
    var q := Quote(s);
    assert q[1..|q| - 1] == EscapeAll(s);
  }
}
