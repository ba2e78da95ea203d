/** Properties of the parser: a printer whose output parses back to the
    printed tree, precedence and associativity, and the error cases. */
module ParsingFacts {
  import opened Outcomes
  import opened Numerals
  import opened Tokens
  import opened Ast
  import opened Expectations
  import opened Parsing

  /** A token whose position does not matter. */
  function Tok(kind: Kind, text: string): Token {
    Token(0, 0, kind, text)
  }

  /** Trees the printer can write: literal counts, faces and values are
      non-negative, since the only negative literal the parser builds takes
      its magnitude from another token. */
  predicate Printable(t: Term) {
    match t
    case IntTerm(v) => 0 <= v
    case DiceTerm(c, f) => 0 <= c && 0 <= f
    case AddTerm(l, r) => Printable(l) && Printable(r)
    case SubtractTerm(l, r) => Printable(l) && Printable(r)
    case MultiplyTerm(l, r) => Printable(l) && Printable(r)
    case DivideTerm(l, r) => Printable(l) && Printable(r)
    case ExponentiateTerm(l, r) => Printable(l) && Printable(r)
  }

  /** No token of `s` is end of input. */
  predicate NoEof(s: seq<Token>) {
    forall i | 0 <= i < |s| :: s[i].kind != EOF
  }

  /** `( left op right )`. */
  function Group(left: seq<Token>, op: Token, right: seq<Token>): (r: seq<Token>)
    ensures |r| == |left| + |right| + 3 && r[0].kind == LeftParentheses
    ensures NoEof(left) && op.kind != EOF && NoEof(right) ==> NoEof(r)
  {
    [Tok(LeftParentheses, "(")] + left + [op] + right + [Tok(RightParentheses, ")")]
  }

  /** The tokens of a fully parenthesised rendering of `t`, with dice
      written as count, `d`, faces. */
  function Print(t: Term): (r: seq<Token>)
    requires Printable(t)
    ensures 1 <= |r| && (r[0].kind == Int || r[0].kind == LeftParentheses)
    ensures NoEof(r)
  {
    match t
    case IntTerm(v) => [Tok(Int, FormatNat(v))]
    case DiceTerm(c, f) => [Tok(Int, FormatNat(c)), Tok(D, "d"), Tok(Int, FormatNat(f))]
    case AddTerm(l, r) => Group(Print(l), Tok(Add, Symbol(Add)), Print(r))
    case SubtractTerm(l, r) => Group(Print(l), Tok(Subtract, Symbol(Subtract)), Print(r))
    case MultiplyTerm(l, r) => Group(Print(l), Tok(Multiply, Symbol(Multiply)), Print(r))
    case DivideTerm(l, r) => Group(Print(l), Tok(Divide, Symbol(Divide)), Print(r))
    case ExponentiateTerm(l, r) => Group(Print(l), Tok(Exponentiate, Symbol(Exponentiate)), Print(r))
  }

  /** `p` occurs in `toks` starting at `pos`. */
  predicate At(toks: seq<Token>, pos: nat, p: seq<Token>) {
    pos + |p| <= |toks| && forall i | 0 <= i < |p| :: toks[pos + i] == p[i]
  }

  lemma {:induction false} AtSplit(toks: seq<Token>, pos: nat, a: seq<Token>, b: seq<Token>)
    requires At(toks, pos, a + b)
    ensures At(toks, pos, a) && At(toks, pos + |a|, b)
  {
    forall i | 0 <= i < |a|
      ensures toks[pos + i] == a[i]
    {
      assert a[i] == (a + b)[i];
    }
    forall i | 0 <= i < |b|
      ensures toks[pos + |a| + i] == b[i]
    {
      assert b[i] == (a + b)[|a| + i];
    }
  }

  /** A kind that can follow a complete term without extending it. */
  predicate Closes(k: Kind) {
    k != D && k != Add && k != Subtract && k != Multiply && k != Divide && k != Exponentiate
  }

  /** A bottom term followed by a token that does not continue it is a
      whole expression. */
  lemma {:induction false} LiftBottom(toks: seq<Token>, pos: nat, t: Term, p: nat)
    requires Stream(toks) && pos < |toks|
    requires ParseBottomTerm(toks, pos) == Next(t, p) && Closes(toks[p].kind)
    ensures ParseASTerm(toks, pos) == Next(t, p)
    ensures ParseMDTerm(toks, pos) == Next(t, p)
    ensures ParseETerm(toks, pos) == Next(t, p)
  {
  }

  /** `t` printed at `pos`, with its last token just before `end`. */
  ghost predicate Laid(t: Term, toks: seq<Token>, pos: nat, end: nat) {
    Printable(t) && Stream(toks) && At(toks, pos, Print(t)) && end == pos + |Print(t)| && end < |toks|
  }

  /** Parsing the printed form of `t` gives back `t`, whatever follows
      except a dice operator. */
  lemma {:induction false} BottomRoundTrip(t: Term, toks: seq<Token>, pos: nat, end: nat)
    requires Laid(t, toks, pos, end) && toks[end].kind != D
    ensures ParseBottomTerm(toks, pos) == Next(t, end)
    decreases t, 3
  {
    match t
    case IntTerm(v) => LiteralRoundTrip(v, toks, pos);
    case DiceTerm(c, f) => DiceRoundTrip(c, f, toks, pos);
    case _ => GroupRoundTrip(t, toks, pos, end);
  }

  lemma {:induction false} LiteralRoundTrip(v: nat, toks: seq<Token>, pos: nat)
    requires Stream(toks) && At(toks, pos, [Tok(Int, FormatNat(v))])
    requires pos + 1 < |toks| && toks[pos + 1].kind != D
    ensures ParseBottomTerm(toks, pos) == Next(IntTerm(v), pos + 1)
  {
    var p := [Tok(Int, FormatNat(v))];
    assert toks[pos] == p[0];
    FormatNatRoundTrip(v);
  }

  lemma {:induction false} DiceRoundTrip(c: nat, f: nat, toks: seq<Token>, pos: nat)
    requires Stream(toks) && At(toks, pos, [Tok(Int, FormatNat(c)), Tok(D, "d"), Tok(Int, FormatNat(f))])
    requires pos + 3 < |toks|
    ensures ParseBottomTerm(toks, pos) == Next(DiceTerm(c, f), pos + 3)
  {
    var p := [Tok(Int, FormatNat(c)), Tok(D, "d"), Tok(Int, FormatNat(f))];
    assert toks[pos] == p[0] && toks[pos + 1] == p[1] && toks[pos + 2] == p[2];
    FormatNatRoundTrip(c);
    FormatNatRoundTrip(f);
  }

  /** The text of a binary operator token. */
  function Symbol(op: Kind): string {
    match op
    case Add => "+"
    case Subtract => "-"
    case Multiply => "*"
    case Divide => "/"
    case _ => "^"
  }

  /** The tree a binary operator token builds from its operands. */
  function Combine(op: Kind, l: Term, r: Term): (t: Term)
    ensures l < t && r < t
  {
    match op
    case Add => AddTerm(l, r)
    case Subtract => SubtractTerm(l, r)
    case Multiply => MultiplyTerm(l, r)
    case Divide => DivideTerm(l, r)
    case _ => ExponentiateTerm(l, r)
  }

  /** Where the parts of a printed group sit in the stream: `(` at `pos`,
      the operator at `p1` and `)` at `p2`. */
  lemma {:induction false} GroupShape(toks: seq<Token>, pos: nat, pl: seq<Token>, op: Token, pr: seq<Token>, p1: nat, p2: nat)
    requires At(toks, pos, Group(pl, op, pr))
    requires p1 == pos + 1 + |pl| && p2 == p1 + 1 + |pr|
    ensures p2 < |toks| && toks[pos].kind == LeftParentheses && toks[p1] == op && toks[p2].kind == RightParentheses
    ensures At(toks, pos + 1, pl) && At(toks, p1 + 1, pr)
  {
    var close := [Tok(RightParentheses, ")")];
    assert Group(pl, op, pr) == [Tok(LeftParentheses, "(")] + (pl + ([op] + (pr + close)));
    AtSplit(toks, pos, [Tok(LeftParentheses, "(")], pl + ([op] + (pr + close)));
    AtSplit(toks, pos + 1, pl, [op] + (pr + close));
    AtSplit(toks, pos + 1 + |pl|, [op], pr + close);
    AtSplit(toks, pos + 2 + |pl|, pr, close);
    FirstOf(toks, pos, [Tok(LeftParentheses, "(")]);
    FirstOf(toks, pos + 1 + |pl|, [op]);
    FirstOf(toks, pos + 2 + |pl| + |pr|, close);
  }

  /** `( l + r )` and `( l - r )`: the sum loop takes the right operand,
      and the closing parenthesis ends every level. */
  lemma {:induction false} ParenthesisedSum(toks: seq<Token>, pos: nat, l: Term, op: Kind, r: Term, p1: nat, p2: nat)
    requires Stream(toks) && pos < p1 < p2 < |toks|
    requires toks[pos].kind == LeftParentheses && toks[p2].kind == RightParentheses
    requires ParseBottomTerm(toks, pos + 1) == Next(l, p1)
    requires (op == Add || op == Subtract) && toks[p1].kind == op
    requires ParseBottomTerm(toks, p1 + 1) == Next(r, p2)
    ensures ParseBottomTerm(toks, pos) == Next(Combine(op, l, r), p2 + 1)
  {
    var t := Combine(op, l, r);
    assert ParseASRest(toks, t, p2) == Next(t, p2);
    assert ParseASRest(toks, l, p1) == Next(t, p2);
    assert ParseASTerm(toks, pos + 1) == Next(t, p2);
    assert ParseMDRest(toks, t, p2) == Next(t, p2);
    assert ParseMDTerm(toks, pos + 1) == Next(t, p2);
    assert ParseETerm(toks, pos + 1) == Next(t, p2);
  }

  /** `( l * r )` and `( l / r )`: the sum loop stops at the operator and
      the product loop takes the right operand. */
  lemma {:induction false} ParenthesisedProduct(toks: seq<Token>, pos: nat, l: Term, op: Kind, r: Term, p1: nat, p2: nat)
    requires Stream(toks) && pos < p1 < p2 < |toks|
    requires toks[pos].kind == LeftParentheses && toks[p2].kind == RightParentheses
    requires ParseBottomTerm(toks, pos + 1) == Next(l, p1)
    requires (op == Multiply || op == Divide) && toks[p1].kind == op
    requires ParseBottomTerm(toks, p1 + 1) == Next(r, p2)
    ensures ParseBottomTerm(toks, pos) == Next(Combine(op, l, r), p2 + 1)
  {
    LiftBottom(toks, p1 + 1, r, p2);
    LeftOfProduct(toks, pos + 1, l, p1);
    ProductStep(toks, pos + 1, l, op, p1, r, p2);
    ParenthesesStep(toks, pos, Combine(op, l, r), p2);
  }

  lemma {:induction false} LeftOfProduct(toks: seq<Token>, pos: nat, l: Term, p: nat)
    requires Stream(toks) && pos < p < |toks|
    requires ParseBottomTerm(toks, pos) == Next(l, p) && (toks[p].kind == Multiply || toks[p].kind == Divide)
    ensures ParseASTerm(toks, pos) == Next(l, p)
  {
  }

  lemma {:induction false} ProductStep(toks: seq<Token>, pos: nat, l: Term, op: Kind, p: nat, r: Term, q: nat)
    requires Stream(toks) && pos < p < q < |toks|
    requires ParseASTerm(toks, pos) == Next(l, p) && (op == Multiply || op == Divide) && toks[p].kind == op
    requires ParseASTerm(toks, p + 1) == Next(r, q) && toks[q].kind == RightParentheses
    ensures ParseETerm(toks, pos) == Next(Combine(op, l, r), q)
  {
    var t := Combine(op, l, r);
    assert ParseMDRest(toks, t, q) == Next(t, q);
    assert ParseMDRest(toks, l, p) == Next(t, q);
  }

  /** `( l ^ r )`: both loops stop at the operator and the exponent chain
      takes the right operand. */
  lemma {:induction false} ParenthesisedPower(toks: seq<Token>, pos: nat, l: Term, r: Term, p1: nat, p2: nat)
    requires Stream(toks) && pos < p1 < p2 < |toks|
    requires toks[pos].kind == LeftParentheses && toks[p2].kind == RightParentheses
    requires ParseBottomTerm(toks, pos + 1) == Next(l, p1)
    requires toks[p1].kind == Exponentiate
    requires ParseBottomTerm(toks, p1 + 1) == Next(r, p2)
    ensures ParseBottomTerm(toks, pos) == Next(ExponentiateTerm(l, r), p2 + 1)
  {
    PowerInside(toks, pos + 1, l, p1, r, p2);
    ParenthesesStep(toks, pos, ExponentiateTerm(l, r), p2);
  }

  lemma {:induction false} PowerInside(toks: seq<Token>, pos: nat, l: Term, p: nat, r: Term, q: nat)
    requires Stream(toks) && pos < p < q < |toks| && toks[q].kind == RightParentheses
    requires ParseBottomTerm(toks, pos) == Next(l, p) && toks[p].kind == Exponentiate
    requires ParseBottomTerm(toks, p + 1) == Next(r, q)
    ensures ParseETerm(toks, pos) == Next(ExponentiateTerm(l, r), q)
  {
    LiftBottom(toks, p + 1, r, q);
    LeftOfPower(toks, pos, l, p);
    PowerStep(toks, pos, l, p, r, q);
  }

  lemma {:induction false} PowerStep(toks: seq<Token>, pos: nat, l: Term, p: nat, r: Term, q: nat)
    requires Stream(toks) && pos < p < q < |toks|
    requires ParseMDTerm(toks, pos) == Next(l, p) && toks[p].kind == Exponentiate
    requires ParseETerm(toks, p + 1) == Next(r, q)
    ensures ParseETerm(toks, pos) == Next(ExponentiateTerm(l, r), q)
  {
  }

  lemma {:induction false} ParenthesesStep(toks: seq<Token>, pos: nat, t: Term, p: nat)
    requires Stream(toks) && pos < p < |toks|
    requires toks[pos].kind == LeftParentheses && toks[p].kind == RightParentheses
    requires ParseETerm(toks, pos + 1) == Next(t, p)
    ensures ParseBottomTerm(toks, pos) == Next(t, p + 1)
  {
  }

  lemma {:induction false} LeftOfPower(toks: seq<Token>, pos: nat, l: Term, p: nat)
    requires Stream(toks) && pos < p < |toks|
    requires ParseBottomTerm(toks, pos) == Next(l, p) && toks[p].kind == Exponentiate
    ensures ParseMDTerm(toks, pos) == Next(l, p)
  {
    assert ParseASTerm(toks, pos) == Next(l, p);
  }

  /** The parenthesised application of any binary operator. */
  lemma {:induction false} Parenthesised(toks: seq<Token>, pos: nat, l: Term, op: Kind, r: Term, p1: nat, p2: nat)
    requires Around(toks, pos, op, p1, p2)
    requires ParseBottomTerm(toks, pos + 1) == Next(l, p1)
    requires ParseBottomTerm(toks, p1 + 1) == Next(r, p2)
    ensures ParseBottomTerm(toks, pos) == Next(Combine(op, l, r), p2 + 1)
  {
    if op == Add || op == Subtract {
      ParenthesisedSum(toks, pos, l, op, r, p1, p2);
    } else if op == Multiply || op == Divide {
      ParenthesisedProduct(toks, pos, l, op, r, p1, p2);
    } else {
      ParenthesisedPower(toks, pos, l, r, p1, p2);
    }
  }

  /** The terms printed as a parenthesised group. */
  predicate Binary(t: Term) {
    !t.IntTerm? && !t.DiceTerm?
  }

  /** The operator token kind of a binary term. */
  function Operator(t: Term): (op: Kind)
    requires Binary(t)
    ensures op == Add || op == Subtract || op == Multiply || op == Divide || op == Exponentiate
  {
    match t
    case AddTerm(_, _) => Add
    case SubtractTerm(_, _) => Subtract
    case MultiplyTerm(_, _) => Multiply
    case DivideTerm(_, _) => Divide
    case ExponentiateTerm(_, _) => Exponentiate
  }

  /** A binary term is its operator applied to its operands. */
  lemma GroupParts(t: Term)
    requires Binary(t) && Printable(t)
    ensures Printable(t.left) && Printable(t.right) && t == Combine(Operator(t), t.left, t.right)
  {
  }

  /** A binary term prints as the group of its operands. */
  lemma GroupPrint(t: Term)
    requires Binary(t) && Printable(t) && Printable(t.left) && Printable(t.right)
    ensures Print(t) == Group(Print(t.left), Tok(Operator(t), Symbol(Operator(t))), Print(t.right))
  {
  }

  /** A printed group parses back to the operator applied to its
      operands. */
  lemma {:induction false} GroupRoundTrip(t: Term, toks: seq<Token>, pos: nat, end: nat)
    requires Binary(t) && Laid(t, toks, pos, end)
    ensures ParseBottomTerm(toks, pos) == Next(t, end)
    decreases t, 2
  {
    var p1, p2 := GroupLayout(t, toks, pos, end);
    OperandsRoundTrip(t, t.left, Operator(t), t.right, toks, pos, p1, p2);
  }

  /** The operands of a printed group are themselves printed terms, between
      the parentheses and around the operator. */
  lemma {:induction false} GroupLayout(t: Term, toks: seq<Token>, pos: nat, end: nat) returns (p1: nat, p2: nat)
    requires Binary(t) && Laid(t, toks, pos, end)
    ensures t == Combine(Operator(t), t.left, t.right) && end == p2 + 1
    ensures Laid(t.left, toks, pos + 1, p1) && Laid(t.right, toks, p1 + 1, p2)
    ensures Around(toks, pos, Operator(t), p1, p2)
  {
    GroupParts(t);
    GroupPrint(t);
    var l, op, r := t.left, Operator(t), t.right;
    p1 := pos + 1 + |Print(l)|;
    p2 := p1 + 1 + |Print(r)|;
    GroupShape(toks, pos, Print(l), Tok(op, Symbol(op)), Print(r), p1, p2);
  }

  /** `(` at `pos`, the binary operator `op` at `p1` and `)` at `p2`. */
  ghost predicate Around(toks: seq<Token>, pos: nat, op: Kind, p1: nat, p2: nat) {
    && Stream(toks) && pos < p1 < p2 < |toks|
    && (op == Add || op == Subtract || op == Multiply || op == Divide || op == Exponentiate)
    && toks[pos].kind == LeftParentheses && toks[p1].kind == op && toks[p2].kind == RightParentheses
  }

  lemma {:induction false} OperandsRoundTrip(t: Term, l: Term, op: Kind, r: Term, toks: seq<Token>, pos: nat, p1: nat, p2: nat)
    requires t == Combine(op, l, r) && Around(toks, pos, op, p1, p2)
    requires Laid(l, toks, pos + 1, p1) && Laid(r, toks, p1 + 1, p2)
    ensures ParseBottomTerm(toks, pos) == Next(t, p2 + 1)
    decreases t, 1
  {
    BottomRoundTrip(l, toks, pos + 1, p1);
    RightOperandRoundTrip(t, l, op, r, toks, pos, p1, p2);
  }

  lemma {:induction false} RightOperandRoundTrip(t: Term, l: Term, op: Kind, r: Term, toks: seq<Token>, pos: nat, p1: nat, p2: nat)
    requires t == Combine(op, l, r) && Around(toks, pos, op, p1, p2) && Laid(r, toks, p1 + 1, p2)
    requires ParseBottomTerm(toks, pos + 1) == Next(l, p1)
    ensures ParseBottomTerm(toks, pos) == Next(t, p2 + 1)
    decreases t, 0
  {
    BottomRoundTrip(r, toks, p1 + 1, p2);
    Parenthesised(toks, pos, l, op, r, p1, p2);
  }

  /** A printed term followed by anything that cannot continue it is
      parsed whole by the expression rule. */
  lemma {:induction false} TermRoundTrip(t: Term, toks: seq<Token>, pos: nat)
    requires Printable(t) && Stream(toks) && At(toks, pos, Print(t))
    requires pos + |Print(t)| < |toks| && Closes(toks[pos + |Print(t)|].kind)
    ensures ParseETerm(toks, pos) == Next(t, pos + |Print(t)|)
  {
    BottomRoundTrip(t, toks, pos, pos + |Print(t)|);
    LiftBottom(toks, pos, t, pos + |Print(t)|);
  }

  /** The kinds an equation can start with. */
  predicate Starts(k: Kind) {
    k == ID || k == Int || k == LeftParentheses
  }

  /** An equation's tokens: `name =` when it has a name, then its term. */
  function PrintEquation(e: Equation): (r: seq<Token>)
    requires Printable(e.term)
    ensures 1 <= |r| && Starts(r[0].kind) && NoEof(r)
  {
    (if e.name == "" then [] else [Tok(ID, e.name), Tok(Equal, "=")]) + Print(e.term)
  }

  /** All equations' tokens, one after the other with no separator. */
  function PrintFormula(es: seq<Equation>): (r: seq<Token>)
    requires forall i | 0 <= i < |es| :: Printable(es[i].term)
    ensures es == [] <==> r == []
    ensures r != [] ==> Starts(r[0].kind)
    ensures NoEof(r)
  {
    if es == [] then [] else PrintEquation(es[0]) + PrintFormula(es[1..])
  }

  lemma {:induction false} EquationRoundTrip(e: Equation, toks: seq<Token>, pos: nat)
    requires Printable(e.term) && Stream(toks) && At(toks, pos, PrintEquation(e))
    requires pos + |PrintEquation(e)| < |toks| && Closes(toks[pos + |PrintEquation(e)|].kind)
    ensures ParseEquation(toks, pos) == Next(e, pos + |PrintEquation(e)|)
  {
    var p := EquationHead(e, toks, pos);
    TermRoundTrip(e.term, toks, p);
    EquationStep(toks, pos, e.name, p, e.term, pos + |PrintEquation(e)|);
  }

  /** The name rule reads a printed equation's name, or nothing when it
      has none, and stops where the printed term begins. */
  lemma {:induction false} EquationHead(e: Equation, toks: seq<Token>, pos: nat) returns (p: nat)
    requires Printable(e.term) && Stream(toks) && At(toks, pos, PrintEquation(e))
    ensures pos <= p && p + |Print(e.term)| == pos + |PrintEquation(e)|
    ensures At(toks, p, Print(e.term))
    ensures ParseOptionalEquationName(toks, pos) == Next(e.name, p)
  {
    var head: seq<Token> := if e.name == "" then [] else [Tok(ID, e.name), Tok(Equal, "=")];
    var body := Print(e.term);
    assert PrintEquation(e) == head + body;
    AtSplit(toks, pos, head, body);
    p := pos + |head|;
    if e.name != "" {
      assert toks[pos] == head[0] && toks[pos + 1] == head[1];
    } else {
      assert toks[pos] == body[0];
    }
  }

  /** A word followed by `=`, wherever it stands, names the equation. */
  lemma {:induction false} NameRoundTrip(toks: seq<Token>, pos: nat)
    requires Stream(toks) && pos + 1 < |toks| && toks[pos].kind == ID && toks[pos + 1].kind == Equal
    ensures ParseOptionalEquationName(toks, pos) == Next(toks[pos].text, pos + 2)
  {
  }

  lemma {:induction false} EquationStep(toks: seq<Token>, pos: nat, name: string, p: nat, t: Term, q: nat)
    requires Stream(toks) && pos <= p < |toks|
    requires ParseOptionalEquationName(toks, pos) == Next(name, p)
    requires ParseETerm(toks, p) == Next(t, q)
    ensures ParseEquation(toks, pos) == Next(Equation(name, t), q)
  {
  }

  lemma {:induction false} FormulaStep(toks: seq<Token>, pos: nat, done: seq<Equation>, e: Equation, p: nat)
    requires Stream(toks) && pos < p < |toks| && toks[pos].kind != EOF
    requires ParseEquation(toks, pos) == Next(e, p)
    ensures ParseFormula(toks, pos, done) == ParseFormula(toks, p, done + [e])
  {
  }

  /** `toks` holds, from `pos`, the printed equations `es` and then end
      of input. */
  ghost predicate Printed(es: seq<Equation>, toks: seq<Token>, pos: nat) {
    && (forall i | 0 <= i < |es| :: Printable(es[i].term))
    && Stream(toks) && At(toks, pos, PrintFormula(es))
    && pos + |PrintFormula(es)| < |toks| && toks[pos + |PrintFormula(es)|].kind == EOF
  }

  lemma {:induction false} FormulaFrom(es: seq<Equation>, toks: seq<Token>, pos: nat, done: seq<Equation>)
    requires Printed(es, toks, pos)
    ensures ParseFormula(toks, pos, done) == Ok(Formula(done + es))
    decreases |es|
  {
    if es == [] {
      AppendEmpty(done, es);
      assert toks[pos].kind == EOF;
    } else {
      var next := FirstEquation(es, toks, pos);
      FormulaFrom(es[1..], toks, next, done + [es[0]]);
      FormulaStep(toks, pos, done, es[0], next);
      MoveFirst(done, es);
    }
  }

  lemma AppendEmpty<T>(done: seq<T>, es: seq<T>)
    requires es == []
    ensures done + es == done
  {
  }

  lemma MoveFirst<T>(done: seq<T>, es: seq<T>)
    requires es != []
    ensures (done + [es[0]]) + es[1..] == done + es
  {
  }

  /** The first printed equation parses back, and the rest of the
      printed formula follows it. */
  lemma {:induction false} FirstEquation(es: seq<Equation>, toks: seq<Token>, pos: nat) returns (next: nat)
    requires es != [] && Printed(es, toks, pos)
    ensures pos < next < |toks| && toks[pos].kind != EOF && Printed(es[1..], toks, next)
    ensures ParseEquation(toks, pos) == Next(es[0], next)
  {
    next := SplitFirst(es, toks, pos);
    EquationRoundTrip(es[0], toks, pos);
  }

  lemma {:induction false} SplitFirst(es: seq<Equation>, toks: seq<Token>, pos: nat) returns (next: nat)
    requires es != [] && Printed(es, toks, pos)
    ensures Printable(es[0].term) && next == pos + |PrintEquation(es[0])|
    ensures At(toks, pos, PrintEquation(es[0])) && next < |toks| && Closes(toks[next].kind)
    ensures toks[pos].kind != EOF && Printed(es[1..], toks, next)
  {
    next := FormulaCons(es, toks, pos);
    TailPrinted(es, toks, pos, next);
    FirstOf(toks, pos, PrintEquation(es[0]));
    if es[1..] != [] {
      FirstOf(toks, next, PrintFormula(es[1..]));
    }
  }

  /** A printed formula is its first equation followed by the rest. */
  lemma {:induction false} FormulaCons(es: seq<Equation>, toks: seq<Token>, pos: nat) returns (next: nat)
    requires es != [] && (forall i | 0 <= i < |es| :: Printable(es[i].term)) && At(toks, pos, PrintFormula(es))
    ensures next == pos + |PrintEquation(es[0])|
    ensures At(toks, pos, PrintEquation(es[0])) && At(toks, next, PrintFormula(es[1..]))
    ensures next + |PrintFormula(es[1..])| == pos + |PrintFormula(es)|
  {
    var first, rest := PrintEquation(es[0]), PrintFormula(es[1..]);
    next := pos + |first|;
    PrintFormulaCons(es);
    AtSplit(toks, pos, first, rest);
  }

  lemma PrintFormulaCons(es: seq<Equation>)
    requires es != [] && forall i | 0 <= i < |es| :: Printable(es[i].term)
    ensures PrintFormula(es) == PrintEquation(es[0]) + PrintFormula(es[1..])
  {
  }

  lemma {:induction false} TailPrinted(es: seq<Equation>, toks: seq<Token>, pos: nat, next: nat)
    requires es != [] && Printed(es, toks, pos)
    requires At(toks, next, PrintFormula(es[1..])) && next + |PrintFormula(es[1..])| == pos + |PrintFormula(es)|
    ensures Printed(es[1..], toks, next)
  {
    assert forall i | 0 <= i < |es[1..]| :: es[1..][i] == es[i + 1];
  }

  lemma {:induction false} FirstOf(toks: seq<Token>, pos: nat, p: seq<Token>)
    requires At(toks, pos, p) && p != []
    ensures toks[pos] == p[0]
  {
  }

  /** Printing a formula and parsing the tokens, closed by end of input,
      gives back the formula. */
  lemma {:induction false} FormulaRoundTrip(f: Formula)
    requires forall i | 0 <= i < |f.equations| :: Printable(f.equations[i].term)
    ensures Stream(PrintFormula(f.equations) + [Tok(EOF, "")])
    ensures ParseTokens(PrintFormula(f.equations) + [Tok(EOF, "")]) == Ok(f)
  {
    var p := PrintFormula(f.equations);
    var toks := p + [Tok(EOF, "")];
    assert toks[0..|p|] == p;
    FormulaFrom(f.equations, toks, 0, []);
    assert [] + f.equations == f.equations;
  }
}
