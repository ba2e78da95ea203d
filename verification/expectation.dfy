/** The parser's single error value and its message
    (internal/parser/expectation.go). */
module Expectations {
  import opened Outcomes
  import opened Numerals
  import opened Tokens

  /** The alternatives that would have been accepted, in the order the
      grammar tried them, and the token found instead. */
  datatype Expectation = Expectation(expected: seq<string>, received: Token)

  /** The lengths of `parts`, each counted with one separator after it. */
  function PaddedLength(parts: seq<string>, sep: string): nat {
    if parts == [] then 0 else |parts[0]| + |sep| + PaddedLength(parts[1..], sep)
  }

  /** `strings.Join`: the parts in order with one separator between each
      two, so one separator fewer than there are parts. */
  function Join(parts: seq<string>, sep: string): (r: string)
    ensures |parts| >= 1 ==> |r| + |sep| == PaddedLength(parts, sep)
  {
    if |parts| == 0 then ""
    else if |parts| == 1 then parts[0]
    else parts[0] + sep + Join(parts[1..], sep)
  }

  /** `s` ends with `t`. */
  predicate EndsWith(s: string, t: string) {
    |t| <= |s| && s[|s| - |t|..] == t
  }

  /** `expectation.Error()`: `line L column C: expected X, got Y`.  The
      line and column of the received token can be read back from the
      start of the message, and the message ends with the alternatives
      joined by ` or ` and the received token as `Quote` renders it, with
      nothing between the column and that ending. */
  function Error(e: Expectation): (r: string)
    ensures e.received.line >= 0 && e.received.column >= 0 ==>
      MessagePosition(r) == Some((e.received.line, e.received.column))
    ensures EndsWith(r, ": expected " + Join(e.expected, " or ") + ", got " + e.received.Quote())
    ensures |r| == |"line " + Format(e.received.line) + " column " + Format(e.received.column)|
                 + |": expected " + Join(e.expected, " or ") + ", got " + e.received.Quote()|
  {
    var L, C := Format(e.received.line), Format(e.received.column);
    var tail := ": expected " + Join(e.expected, " or ") + ", got " + e.received.Quote();
    var r := "line " + L + " column " + C + tail;
    if e.received.line >= 0 && e.received.column >= 0 then
      PositionFields(L, C, tail);
      FormatNatRoundTrip(e.received.line);
      FormatNatRoundTrip(e.received.column);
      r
    else r
  }

  predicate HasPrefix(s: string, p: string) {
    |p| <= |s| && s[..|p|] == p
  }

  /** Reads the line and column back out of an error message. */
  function MessagePosition(msg: string): Option<(nat, nat)> {
    if !HasPrefix(msg, "line ") then None
    else
      var (l, afterLine) := SplitDigits(msg[5..]);
      if l == [] || !HasPrefix(afterLine, " column ") then None
      else
        var (c, afterColumn) := SplitDigits(afterLine[8..]);
        if c == [] || afterColumn == [] || afterColumn[0] != ':' then None
        else Some((Value(l), Value(c)))
  }

  /** A single alternative is written without any separator. */
  lemma JoinSingle(x: string, sep: string)
    ensures Join([x], sep) == x
  {
  }

  /** Alternatives appear in the order given, separated by `sep`. */
  lemma {:induction false} JoinAppend(xs: seq<string>, x: string, sep: string)
    requires |xs| >= 1
    ensures Join(xs + [x], sep) == Join(xs, sep) + sep + x
    decreases |xs|
  {
    if |xs| > 1 {
      assert (xs + [x])[1..] == xs[1..] + [x];
      JoinAppend(xs[1..], x, sep);
    } else {
      assert (xs + [x])[1..] == [x];
    }
  }

  lemma {:induction false} PositionFields(L: string, C: string, tail: string)
    requires 1 <= |L| && AllDigits(L) && 1 <= |C| && AllDigits(C)
    requires 1 <= |tail| && tail[0] == ':'
    ensures MessagePosition("line " + L + " column " + C + tail) == Some((Value(L), Value(C)))
  {
    var afterLine := " column " + C + tail;
    var msg := "line " + L + " column " + C + tail;
    assert msg == "line " + (L + afterLine);
    assert msg[..5] == "line ";
    assert msg[5..] == L + afterLine;
    SplitDigitsOf(L, afterLine);
    assert afterLine[..8] == " column ";
    assert afterLine[8..] == C + tail;
    SplitDigitsOf(C, tail);
  }

  /** Ending with `a + b` means ending with `b`. */
  lemma EndsWithTail(s: string, a: string, b: string)
    requires EndsWith(s, a + b)
    ensures EndsWith(s, b)
  {
    assert s[|s| - |b|..] == s[|s| - |a + b|..][|a|..];
  }

  /** An error at end of input says so in words, after the alternatives. */
  lemma EofMessage(e: Expectation)
    requires e.received.kind == EOF
    ensures EndsWith(Error(e), ", got end of input")
  {
    var head := ": expected " + Join(e.expected, " or ");
    assert head + ", got " + e.received.Quote() == head + ", got end of input";
    EndsWithTail(Error(e), head, ", got end of input");
  }
}
