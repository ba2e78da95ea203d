/** Properties of the evaluator (internal/ast/ast.go) and the checks of
    internal/ast/ast_test.go, restated over explicit draw sequences. */
module AstFacts {
  import opened Outcomes
  import opened Ast

  /** How many draws a term takes: `count` per dice node with a positive
      count, none elsewhere. */
  function DrawCount(t: Term): nat {
    match t
    case IntTerm(_) => 0
    case DiceTerm(count, _) => if count <= 0 then 0 else count
    case ExponentiateTerm(_, _) => 0
    case _ => DrawCount(t.left) + DrawCount(t.right)
  }

  predicate DiceFree(t: Term) {
    match t
    case IntTerm(_) => true
    case DiceTerm(_, _) => false
    case _ => DiceFree(t.left) && DiceFree(t.right)
  }

  /** A successful evaluation takes exactly `DrawCount(t)` draws from the
      front of the sequence. */
  lemma {:induction false} SolveConsumesDrawCount(t: Term, draws: seq<int>)
    requires Solve(t, draws).Ok?
    ensures DrawCount(t) <= |draws| && Solve(t, draws).value.rest == draws[DrawCount(t)..]
  {
    match t
    case IntTerm(_) =>
    case DiceTerm(_, _) =>
    case ExponentiateTerm(_, _) =>
    case _ =>
      var l := Solve(t.left, draws).value;
      SolveConsumesDrawCount(t.left, draws);
      SolveConsumesDrawCount(t.right, l.rest);
      DropDrop(draws, DrawCount(t.left), DrawCount(t.right));
  }

  lemma DropDrop(s: seq<int>, a: nat, b: nat)
    requires a <= |s| && b <= |s| - a
    ensures s[a..][b..] == s[a + b..]
  {
  }

  lemma {:induction false} RollFrame(count: int, faces: int, draws: seq<int>, extra: seq<int>)
    requires Roll(count, faces, draws).Ok?
    ensures Roll(count, faces, draws + extra)
         == Ok(Solution(Roll(count, faces, draws).value.value, Roll(count, faces, draws).value.rest + extra))
    decreases count
  {
    if count > 0 {
      assert (draws + extra)[1..] == draws[1..] + extra;
      RollFrame(count - 1, faces, draws[1..], extra);
    }
  }

  /** Draws beyond those a term needs are left untouched for what follows. */
  lemma {:induction false} SolveFrame(t: Term, draws: seq<int>, extra: seq<int>)
    requires Solve(t, draws).Ok?
    ensures Solve(t, draws + extra)
         == Ok(Solution(Solve(t, draws).value.value, Solve(t, draws).value.rest + extra))
  {
    match t
    case IntTerm(_) =>
    case DiceTerm(count, faces) =>
      RollFrame(count, faces, draws, extra);
    case ExponentiateTerm(_, _) =>
    case _ =>
      var l := Solve(t.left, draws).value;
      SolveFrame(t.left, draws, extra);
      SolveFrame(t.right, l.rest, extra);
  }

  /** Binary nodes solve the left operand on the first draws and the right
      operand on the ones after them. */
  lemma {:induction false} LeftBeforeRight(t: Term, dl: seq<int>, dr: seq<int>, a: int, b: int)
    requires t.AddTerm? || t.SubtractTerm? || t.MultiplyTerm? || t.DivideTerm?
    requires Solve(t.left, dl) == Ok(Solution(a, []))
    requires Solve(t.right, dr) == Ok(Solution(b, []))
    ensures Solve(t, dl + dr) == match Apply(t, a, b)
                                 case Ok(v) => Ok(Solution(v, []))
                                 case Err(e) => Err(e)
  {
    SolveFrame(t.left, dl, dr);
    assert [] + dr == dr;
  }

  function WithRest(r: Result<Solution, Panic>, draws: seq<int>): Result<Solution, Panic> {
    match r
    case Ok(s) => Ok(Solution(s.value, draws))
    case Err(e) => Err(e)
  }

  /** A term without dice evaluates as it would with no draws at all, and
      hands every draw on untouched. */
  lemma {:induction false} DiceFreeIgnoresDraws(t: Term, draws: seq<int>)
    requires DiceFree(t)
    ensures Solve(t, draws) == WithRest(Solve(t, []), draws)
  {
    match t
    case IntTerm(_) =>
    case ExponentiateTerm(_, _) =>
    case DiceTerm(_, _) =>
    case _ =>
      DiceFreeIgnoresDraws(t.left, draws);
      DiceFreeIgnoresDraws(t.left, []);
      DiceFreeIgnoresDraws(t.right, draws);
      DiceFreeIgnoresDraws(t.right, []);
  }

  /** Hence two draw sequences give a dice-free term the same outcome. */
  lemma DiceFreeSameValue(t: Term, d1: seq<int>, d2: seq<int>)
    requires DiceFree(t)
    ensures Solve(t, d1).Ok? <==> Solve(t, d2).Ok?
    ensures Solve(t, d1).Ok? ==> Solve(t, d1).value.value == Solve(t, d2).value.value
    ensures Solve(t, d1).Err? ==> Solve(t, d1).error == Solve(t, d2).error
  {
    DiceFreeIgnoresDraws(t, d1);
    DiceFreeIgnoresDraws(t, d2);
  }

  /** `count` dice with `faces` faces, each draw in [0, faces), take
      `count` draws and total between `count` and `count * faces`. */
  lemma {:induction false} DiceBounds(count: int, faces: int, draws: seq<int>)
    requires 1 <= count && 1 <= faces && count <= |draws|
    requires forall i | 0 <= i < count :: 0 <= draws[i] < faces
    ensures Solve(DiceTerm(count, faces), draws).Ok?
    ensures Solve(DiceTerm(count, faces), draws).value.rest == draws[count..]
    ensures count <= Solve(DiceTerm(count, faces), draws).value.value <= count * faces
    decreases count
  {
    if count > 1 {
      DiceBounds(count - 1, faces, draws[1..]);
      assert (count - 1) * faces + faces == count * faces;
    }
  }

  /** A dice term with no positive count is 0 and takes no draw, whatever
      its faces. */
  lemma NoDiceRolled(count: int, faces: int, draws: seq<int>)
    requires count <= 0
    ensures Solve(DiceTerm(count, faces), draws) == Ok(Solution(0, draws))
  {
  }

  /** Go's truncating division differs from Euclidean division on
      negative operands, and a zero divisor stops evaluation. */
  lemma DivideTruncates()
    ensures TruncDiv(-7, 2) == -3 && TruncDiv(7, -2) == -3 && TruncDiv(-7, -2) == 3 && TruncDiv(7, 2) == 3
    ensures Solve(DivideTerm(IntTerm(1), IntTerm(0)), []) == Err(DivideByZero)
  {
  }

  /** The assertions of ast_test.go. */
  lemma SolveExamples(draws: seq<int>)
    ensures Solve(MultiplyTerm(IntTerm(4), IntTerm(2)), draws) == Ok(Solution(8, draws))
    ensures Solve(DivideTerm(IntTerm(42), IntTerm(21)), draws) == Ok(Solution(2, draws))
    ensures Solve(AddTerm(IntTerm(40), IntTerm(2)), draws) == Ok(Solution(42, draws))
    ensures Solve(SubtractTerm(IntTerm(2), IntTerm(4)), draws) == Ok(Solution(-2, draws))
    ensures Solve(IntTerm(42), draws) == Ok(Solution(42, draws))
  {
  }
}
