/** The evaluator of compute.py: structural recursion over the parsed tree, combining the two
    operands of each operator node with the operation its kind selects. Values are exact reals. */
module Evaluator {
  import opened Wrappers
  import opened Lexer
  import opened Parser

  /** The only way evaluation fails: a true division by zero. */
  datatype EvalError = ZeroDivisionError

  predicate IsOperator(kind: TokenType) {
    kind == Plus || kind == Minus || kind == Mult || kind == Div
  }

  /** The `operations` table: add, sub, mul and true division. Division does not truncate: its
      quotient times the divisor gives back the dividend. */
  function Operation(kind: TokenType, a: real, b: real): (r: Result<real, EvalError>)
    requires IsOperator(kind)
    ensures r.Failure? <==> kind == Div && b == 0.0
    ensures r.Success? && kind == Div ==> r.value * b == a
  {
    match kind
    case Plus => Success(a + b)
    case Minus => Success(a - b)
    case Mult => Success(a * b)
    case Div => if b == 0.0 then Failure(ZeroDivisionError) else Success(a / b)
  }

  /** Some node of the tree is a division. */
  predicate HasDiv(n: Node) {
    n.kind == Div || exists i :: 0 <= i < |n.children| && HasDiv(n.children[i])
  }

  /** `compute`: a number leaf evaluates to its value; an operator node evaluates its left child,
      then its right child, then applies its operation. Only a division can make it fail. */
  function Compute(n: Node): (r: Result<real, EvalError>)
    requires WellFormed(n)
    ensures r.Failure? ==> HasDiv(n)
  {
    if n.kind == Num then
      Success(n.value.n as real)
    else
      var left :- Compute(n.children[0]);
      var right :- Compute(n.children[1]);
      Operation(n.kind, left, right)
  }

  /** Integer arithmetic over a tree without divisions: an independent reading of what such a tree means. */
  function IntValue(n: Node): int
    requires WellFormed(n) && !HasDiv(n)
  {
    if n.kind == Num then n.value.n
    else
      assert HasDiv(n.children[0]) ==> HasDiv(n);
      assert HasDiv(n.children[1]) ==> HasDiv(n);
      IntOperation(n.kind, IntValue(n.children[0]), IntValue(n.children[1]))
  }

  function IntOperation(kind: TokenType, a: int, b: int): int
    requires kind == Plus || kind == Minus || kind == Mult
  {
    match kind
    case Plus => a + b
    case Minus => a - b
    case Mult => a * b
  }

  lemma OperationOnIntegers(kind: TokenType, a: int, b: int)
    requires kind == Plus || kind == Minus || kind == Mult
    ensures Operation(kind, a as real, b as real) == Success(IntOperation(kind, a, b) as real)
  {
    if kind == Mult {
      assert (a * b) as real == a as real * b as real;
    }
  }

  /** An operator node whose operands both evaluate applies its operation to their values. */
  lemma ComputeOperator(n: Node)
    requires WellFormed(n) && n.kind != Num
    requires Compute(n.children[0]).Success? && Compute(n.children[1]).Success?
    ensures Compute(n) == Operation(n.kind, Compute(n.children[0]).value, Compute(n.children[1]).value)
  {
  }

  /** A tree with no division evaluates, without failing, to an integer: the one integer
      arithmetic gives. */
  lemma {:induction false} DivisionFreeIsInteger(n: Node)
    requires WellFormed(n) && !HasDiv(n)
    ensures Compute(n) == Success(IntValue(n) as real)
  {
    if n.kind != Num {
      assert HasDiv(n.children[0]) ==> HasDiv(n);
      assert HasDiv(n.children[1]) ==> HasDiv(n);
      DivisionFreeIsInteger(n.children[0]);
      DivisionFreeIsInteger(n.children[1]);
      ComputeOperator(n);
      OperationOnIntegers(n.kind, IntValue(n.children[0]), IntValue(n.children[1]));
    }
  }

  /** Some division in the tree, whose operands both evaluate, has a right operand equal to zero. */
  predicate DividesByZero(n: Node)
    requires WellFormed(n)
  {
    n.kind != Num &&
    (DividesByZero(n.children[0]) || DividesByZero(n.children[1]) ||
     (n.kind == Div && Compute(n.children[0]).Success? && Compute(n.children[1]) == Success(0.0)))
  }

  /** Evaluation fails exactly when some division meets a right operand that evaluates to zero. */
  lemma {:induction false} FailsIffDividesByZero(n: Node)
    requires WellFormed(n)
    ensures Compute(n).Failure? <==> DividesByZero(n)
  {
    if n.kind != Num {
      FailsIffDividesByZero(n.children[0]);
      FailsIffDividesByZero(n.children[1]);
    }
  }
}
