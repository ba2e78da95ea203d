/** The syntax tree and its evaluator (internal/ast/ast.go).  Go's
    `math/rand` is replaced by an explicit sequence of draws: the i-th
    element is what the i-th call of `rand.Intn(faces)` returned. */
module Ast {
  import opened Outcomes

  /** The term variants.  `ExponentiateTerm` is built by the parser
      (internal/parser/parser.go:100) but ast.go gives it no `Solve`. */
  datatype Term =
    | IntTerm(value: int)
    | DiceTerm(count: int, faces: int)
    | AddTerm(left: Term, right: Term)
    | SubtractTerm(left: Term, right: Term)
    | MultiplyTerm(left: Term, right: Term)
    | DivideTerm(left: Term, right: Term)
    | ExponentiateTerm(left: Term, right: Term)

  datatype Equation = Equation(name: string, term: Term)

  datatype Formula = Formula(equations: seq<Equation>)

  /** Why evaluation stops without a value: Go panics on division by zero
      and on `rand.Intn` of a non-positive bound; the exponent has no
      evaluator; and a finite draw sequence can run out. */
  datatype Panic = DivideByZero | NonPositiveFaces | NotSolvable | OutOfDraws

  /** A value and the draws left for whatever is evaluated next. */
  datatype Solution = Solution(value: int, rest: seq<int>)

  function Abs(x: int): nat {
    if x < 0 then -x else x
  }

  /** Go's `/` on ints: the quotient truncated toward zero. */
  function TruncDiv(a: int, b: int): (q: int)
    requires b != 0
    ensures Abs(a - q * b) < Abs(b)
    ensures a - q * b == 0 || (a - q * b < 0 <==> a < 0)
  {
    var m := Abs(a) / Abs(b);
    var q := if (a < 0) == (b < 0) then m else -m;
    TruncDivRemainder(a, b, m, q);
    q
  }

  lemma TruncDivRemainder(a: int, b: int, m: int, q: int)
    requires b != 0 && m == Abs(a) / Abs(b)
    requires q == if (a < 0) == (b < 0) then m else -m
    ensures Abs(a - q * b) == Abs(a) % Abs(b)
    ensures a - q * b == 0 || (a - q * b < 0 <==> a < 0)
  {
    var x, y := Abs(a), Abs(b);
    var k: int := x % y;
    assert x == m * y + k;
    SignFlip(m, y);
    if a >= 0 {
      assert q * b == m * y;
      assert a - q * b == k;
    } else {
      assert q * b == -(m * y);
      assert a - q * b == -k;
    }
  }

  lemma SignFlip(x: int, y: int)
    ensures (-x) * (-y) == x * y && (-x) * y == -(x * y) && x * (-y) == -(x * y)
  {
  }

  /** `DiceTerm.Solve` (ast.go:52-61): `count` draws, each shifted from
      [0, faces) to [1, faces], summed.  No draw is taken when
      `count <= 0`. */
  function Roll(count: int, faces: int, draws: seq<int>): (r: Result<Solution, Panic>)
    ensures r.Ok? && count <= 0 ==> r.value == Solution(0, draws)
    ensures r.Ok? && count > 0 ==> count <= |draws| && r.value.rest == draws[count..]
    ensures r.Err? <==> count > 0 && (faces <= 0 || |draws| < count)
    ensures r.Err? ==> r.error == if faces <= 0 then NonPositiveFaces else OutOfDraws
    decreases count
  {
    if count <= 0 then Ok(Solution(0, draws))
    else if faces <= 0 then Err(NonPositiveFaces)
    else if |draws| == 0 then Err(OutOfDraws)
    else
      match Roll(count - 1, faces, draws[1..])
      case Err(e) => Err(e)
      case Ok(s) => Ok(Solution(draws[0] + 1 + s.value, s.rest))
  }

  /** The loop of ast.go:53-60. */
  method RollDice(count: int, faces: int, draws: seq<int>) returns (r: Result<Solution, Panic>)
    ensures r == Roll(count, faces, draws)
  {
    var total := 0;
    var index := 0;
    while index < count
      invariant 0 <= index && (count > 0 ==> index <= count) && index <= |draws|
      invariant index > 0 ==> faces > 0
      invariant Roll(count, faces, draws) ==
        match Roll(count - index, faces, draws[index..])
        case Err(e) => Err(e)
        case Ok(s) => Ok(Solution(total + s.value, s.rest))
    {
      if faces <= 0 {
        return Err(NonPositiveFaces);
      }
      if index == |draws| {
        return Err(OutOfDraws);
      }
      assert draws[index..][1..] == draws[index + 1..];
      total := total + (draws[index] + 1);
      index := index + 1;
    }
    r := Ok(Solution(total, draws[index..]));
  }

  /** The arithmetic of the binary nodes (ast.go:28-48). */
  function Apply(t: Term, a: int, b: int): Result<int, Panic>
    requires t.AddTerm? || t.SubtractTerm? || t.MultiplyTerm? || t.DivideTerm?
  {
    match t
    case AddTerm(_, _) => Ok(a + b)
    case SubtractTerm(_, _) => Ok(a - b)
    case MultiplyTerm(_, _) => Ok(a * b)
    case DivideTerm(_, _) => if b == 0 then Err(DivideByZero) else Ok(TruncDiv(a, b))
  }

  /** `rest` is what remains of `draws` after a prefix was taken. */
  predicate IsSuffix(rest: seq<int>, draws: seq<int>) {
    |rest| <= |draws| && rest == draws[|draws| - |rest|..]
  }

  lemma SuffixTransitive(a: seq<int>, b: seq<int>, c: seq<int>)
    requires IsSuffix(a, b) && IsSuffix(b, c)
    ensures IsSuffix(a, c)
  {
    assert c[|c| - |b|..][|b| - |a|..] == c[|c| - |a|..];
  }

  /** `Term.Solve`: the left operand is solved first and the right one
      continues with the draws the left one left over. */
  function Solve(t: Term, draws: seq<int>): (r: Result<Solution, Panic>)
    ensures r.Ok? ==> IsSuffix(r.value.rest, draws)
  {
    match t
    case IntTerm(v) => Ok(Solution(v, draws))
    case DiceTerm(count, faces) => Roll(count, faces, draws)
    case ExponentiateTerm(_, _) => Err(NotSolvable)
    case _ =>
      match Solve(t.left, draws)
      case Err(e) => Err(e)
      case Ok(l) =>
        match Solve(t.right, l.rest)
        case Err(e) => Err(e)
        case Ok(r) =>
          SuffixTransitive(r.rest, l.rest, draws);
          match Apply(t, l.value, r.value)
          case Err(e) => Err(e)
          case Ok(v) => Ok(Solution(v, r.rest))
  }
}
