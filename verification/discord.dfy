/** The two pure helpers of the Discord front end (discord.go): the
    Markdown escaper applied to text sent back to a channel, and the lookup
    of a named option of a slash command. */
module Discord {
  import opened Runes

  /** The ASCII punctuation runes the escaper puts a backslash before
      (discord.go:186). */
  const Punctuation: string := "!\"#$%&'()*+,-./:;<=>?@[\\]^_`{|}~"

  predicate IsPunctuation(c: char) {
    c in Punctuation
  }

  /** What the escaper writes for one input rune: nothing for a rune that
      is not graphic, a backslash and the rune for punctuation, otherwise
      the rune alone (discord.go:175-190). */
  function EscapeRune(u: Classes, c: char): (r: string)
    ensures |r| <= 2
    ensures forall i | 0 <= i < |r| :: r[i] == '\\' || (r[i] == c && u.isGraphic(c))
  {
    if !u.isGraphic(c) then []
    else if IsPunctuation(c) then ['\\', c]
    else [c]
  }

  /** The escaper applied to a whole string, rune by rune: at most two
      output runes per input rune, each a backslash or a graphic rune. */
  function Escape(u: Classes, s: string): (r: string)
    ensures |r| <= 2 * |s|
    ensures forall i | 0 <= i < |r| :: r[i] == '\\' || u.isGraphic(r[i])
  {
    if s == [] then [] else EscapeRune(u, s[0]) + Escape(u, s[1..])
  }

  /** The graphic runes of `s`, in order. */
  function Kept(u: Classes, s: string): (r: string)
    ensures |r| <= |s|
    ensures forall i | 0 <= i < |r| :: u.isGraphic(r[i])
  {
    if s == [] then []
    else (if u.isGraphic(s[0]) then [s[0]] else []) + Kept(u, s[1..])
  }

  /** Number of punctuation runes in `s`. */
  function PunctuationCount(s: string): nat {
    if s == [] then 0 else (if IsPunctuation(s[0]) then 1 else 0) + PunctuationCount(s[1..])
  }

  /** Text in which every punctuation rune is preceded by exactly one
      backslash and no other rune is: what Discord renders literally. */
  predicate WellEscaped(r: string)
    decreases |r|
  {
    if r == [] then true
    else if r[0] == '\\' then 2 <= |r| && IsPunctuation(r[1]) && WellEscaped(r[2..])
    else !IsPunctuation(r[0]) && WellEscaped(r[1..])
  }

  /** Drops the backslash in front of each escaped rune. */
  function Unescape(r: string): (s: string)
    ensures |s| <= |r|
    decreases |r|
  {
    if r == [] then []
    else if r[0] == '\\' && 2 <= |r| then [r[1]] + Unescape(r[2..])
    else [r[0]] + Unescape(r[1..])
  }

  /** `Punctuation` is exactly the printable ASCII runes that are neither
      letters nor digits. */
  lemma PunctuationIsAsciiPunctuation(c: char)
    ensures IsPunctuation(c) <==> '!' <= c <= '~' && !IsAsciiLetter(c) && !IsAsciiDigit(c)
  {
  }

  /** The escaper distributes over concatenation, which is what lets it
      run rune by rune. */
  lemma {:induction false} EscapeAppend(u: Classes, a: string, b: string)
    ensures Escape(u, a + b) == Escape(u, a) + Escape(u, b)
    decreases |a|
  {
    if a == [] {
      assert a + b == b;
    } else {
      assert (a + b)[1..] == a[1..] + b;
      EscapeAppend(u, a[1..], b);
    }
  }

  /** The output keeps only graphic runes, in their input order, with
      exactly one backslash added before each punctuation rune. */
  lemma {:induction false} EscapeLength(u: Classes, s: string)
    ensures |Escape(u, s)| == |Kept(u, s)| + PunctuationCount(Kept(u, s))
    decreases |s|
  {
    if s != [] {
      EscapeLength(u, s[1..]);
      var k := Kept(u, s[1..]);
      if u.isGraphic(s[0]) {
        assert ([s[0]] + k)[1..] == k;
      } else {
        assert [] + k == k;
      }
    }
  }

  /** Removing the inserted backslashes gives back the input without its
      non-graphic runes. */
  lemma {:induction false} EscapeRoundTrip(u: Classes, s: string)
    ensures Unescape(Escape(u, s)) == Kept(u, s)
    decreases |s|
  {
    if s != [] {
      EscapeRoundTrip(u, s[1..]);
      var rest := Escape(u, s[1..]);
      var c := s[0];
      if !u.isGraphic(c) {
        assert [] + rest == rest;
        assert [] + Kept(u, s[1..]) == Kept(u, s[1..]);
      } else if IsPunctuation(c) {
        var r := ['\\', c] + rest;
        assert r[0] == '\\' && r[1] == c && r[2..] == rest;
      } else {
        assert c != '\\';
        var r := [c] + rest;
        assert r[0] == c && r[1..] == rest;
      }
    }
  }

  /** Every output rune is a graphic rune of the input or an inserted
      backslash: non-graphic runes such as terminal escape codes never
      reach the channel. */
  lemma {:induction false} EscapeDrawsFromInput(u: Classes, s: string)
    ensures forall i | 0 <= i < |Escape(u, s)| ::
      Escape(u, s)[i] == '\\' || (Escape(u, s)[i] in s && u.isGraphic(Escape(u, s)[i]))
    decreases |s|
  {
    if s != [] {
      EscapeDrawsFromInput(u, s[1..]);
      var head, rest := EscapeRune(u, s[0]), Escape(u, s[1..]);
      forall i | 0 <= i < |head + rest|
        ensures (head + rest)[i] == '\\' || ((head + rest)[i] in s && u.isGraphic((head + rest)[i]))
      {
        if i >= |head| {
          var k := i - |head|;
          assert (head + rest)[i] == rest[k];
          if rest[k] != '\\' {
            assert rest[k] in s[1..];
            var j :| 0 <= j < |s[1..]| && s[1..][j] == rest[k];
            assert s[j + 1] == rest[k];
          }
        }
      }
    }
  }

  /** Whatever the input, the output is well escaped. */
  lemma {:induction false} EscapeWellEscaped(u: Classes, s: string)
    ensures WellEscaped(Escape(u, s))
    decreases |s|
  {
    if s != [] {
      EscapeWellEscaped(u, s[1..]);
      var rest := Escape(u, s[1..]);
      var c := s[0];
      if !u.isGraphic(c) {
        assert [] + rest == rest;
      } else if IsPunctuation(c) {
        var r := ['\\', c] + rest;
        assert r[0] == '\\' && r[1] == c && r[2..] == rest;
      } else {
        assert c != '\\';
        var r := [c] + rest;
        assert r[0] == c && r[1..] == rest;
      }
    }
  }

  /** Conversely, every well-escaped text of graphic runes is the output
      for exactly the input its unescaping gives. */
  lemma {:induction false} UnescapeEscape(u: Classes, r: string)
    requires WellEscaped(r)
    requires forall i | 0 <= i < |r| :: u.isGraphic(r[i])
    ensures Escape(u, Unescape(r)) == r
    decreases |r|
  {
    if r != [] {
      if r[0] == '\\' {
        UnescapeEscape(u, r[2..]);
        var s := [r[1]] + Unescape(r[2..]);
        assert s[0] == r[1] && s[1..] == Unescape(r[2..]);
        assert r == ['\\', r[1]] + r[2..];
      } else {
        UnescapeEscape(u, r[1..]);
        var s := [r[0]] + Unescape(r[1..]);
        assert s[0] == r[0] && s[1..] == Unescape(r[1..]);
        assert r == [r[0]] + r[1..];
      }
    }
  }

  /** One more input rune adds its own escape to the output. */
  lemma EscapeStep(u: Classes, input: string, i: nat)
    requires i < |input|
    ensures Escape(u, input[..i + 1]) == Escape(u, input[..i]) + EscapeRune(u, input[i])
  {
    var c := input[i];
    assert Escape(u, [c]) == EscapeRune(u, c) by {
      assert [c][1..] == [];
    }
    EscapeAppend(u, input[..i], [c]);
    assert input[..i + 1] == input[..i] + [c];
  }

  /** `discordEscapeMarkdown` (discord.go:169-194): one pass over the
      input, writing each rune's escape into the output. */
  method EscapeMarkdown(u: Classes, input: string) returns (output: string)
    ensures output == Escape(u, input)
  {
    output := [];
    var i := 0;
    while i < |input|
      invariant 0 <= i <= |input|
      invariant output == Escape(u, input[..i])
    {
      var c := input[i];
      EscapeStep(u, input, i);
      if u.isGraphic(c) {
        if IsPunctuation(c) {
          output := output + ['\\', c];
        } else {
          output := output + [c];
        }
      }
      i := i + 1;
    }
    assert input[..i] == input;
  }

  /** One option of a slash command: its name and a value of the JSON type
      the command declares. */
  datatype CommandOption<V> = CommandOption(name: string, value: V)

  /** `getStringOption` (discord.go:35-45): the value of the first option
      called `name`, formatted by `render` (Go's `%v`), or the empty string
      when no option has that name. */
  method GetStringOption<V>(options: seq<CommandOption<V>>, name: string, render: V -> string) returns (r: string)
    ensures (forall i | 0 <= i < |options| :: options[i].name != name) ==> r == ""
    ensures forall i | 0 <= i < |options| && options[i].name == name ::
      (forall j | 0 <= j < i :: options[j].name != name) ==> r == render(options[i].value)
  {
    var i := 0;
    while i < |options|
      invariant 0 <= i <= |options|
      invariant forall j | 0 <= j < i :: options[j].name != name
    {
      if options[i].name == name {
        return render(options[i].value);
      }
      i := i + 1;
    }
    return "";
  }
}
