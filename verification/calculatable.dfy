/**
 * The operator dispatcher shared by every measure: a symbolic operator is
 * looked up in a fixed table of six binary operations; any other operator
 * leaves the first operand as it is.
 */
module Calculatable {
  import opened Wrappers

  /** `b` raised to a natural power. */
  function Pow(b: real, n: nat): real
  {
    if n == 0 then 1.0 else b * Pow(b, n - 1)
  }

  lemma {:induction false} PowPositive(b: real, n: nat)
    requires b > 0.0
    ensures Pow(b, n) > 0.0
  {
    if n > 0 {
      PowPositive(b, n - 1);
    }
  }

  lemma {:induction false} PowAdd(b: real, m: nat, n: nat)
    ensures Pow(b, m + n) == Pow(b, m) * Pow(b, n)
  {
    if m > 0 {
      PowAdd(b, m - 1, n);
      assert Pow(b, m + n) == b * Pow(b, (m - 1) + n);
    }
  }

  /** For a radix above one the powers grow strictly with the exponent. */
  lemma {:induction false} PowStrictlyIncreasing(b: real, m: nat, n: nat)
    requires b > 1.0 && m < n
    ensures Pow(b, m) < Pow(b, n)
  {
    var k: nat := n - 1;
    PowPositive(b, k);
    ScaleUp(b, Pow(b, k));
    assert Pow(b, n) == b * Pow(b, k);
    if k > m {
      PowStrictlyIncreasing(b, m, k);
    } else {
      assert k == m;
    }
  }

  lemma ScaleUp(b: real, p: real)
    requires b > 1.0 && p > 0.0
    ensures b * p > p
  {
    assert b * p - p == (b - 1.0) * p;
  }

  /** The errors PHP raises, or that have no exact real value. */
  datatype CalcError =
    | DivisionByZero
      /** `pow` with a fractional exponent, or zero to a negative power:
          PHP answers with an irrational, infinite or NaN float. */
    | NotRepresentable

  /** The six keys of the operation table. */
  predicate IsOperator(op: string)
  {
    op in ["+", "-", "x", "*", "/", "^"]
  }

  /** True when `b` is an integer-valued real. */
  predicate Integral(b: real)
  {
    b.Floor as real == b
  }

  /** PHP `pow(a, b)` for an integral exponent. */
  function Power(a: real, b: real): (r: Result<real, CalcError>)
    ensures Integral(b) && b >= 0.0 ==> r == Success(Pow(a, b.Floor))
    ensures Integral(b) && b < 0.0 && a != 0.0 ==> r.Success? && r.value * Pow(a, (-b).Floor) == 1.0
    ensures r.Failure? <==> !Integral(b) || (b < 0.0 && a == 0.0)
  {
    if !Integral(b) then Failure(NotRepresentable)
    else if b >= 0.0 then Success(Pow(a, b.Floor))
    else if a == 0.0 then Failure(NotRepresentable)
    else
      PowNonZero(a, (-b).Floor);
      Success(1.0 / Pow(a, (-b).Floor))
  }

  lemma {:induction false} PowNonZero(a: real, n: nat)
    requires a != 0.0
    ensures Pow(a, n) != 0.0
  {
    if n > 0 {
      PowNonZero(a, n - 1);
    }
  }

  /** `calculate($a, $operator, $b)`. */
  function Calculate(a: real, op: string, b: real): (r: Result<real, CalcError>)
    ensures op == "+" ==> r == Success(a + b)
    ensures op == "-" ==> r == Success(a - b)
    ensures op == "x" || op == "*" ==> r == Success(a * b)
    ensures op == "/" && b != 0.0 ==> r == Success(a / b)
    ensures op == "/" && b == 0.0 ==> r == Failure(DivisionByZero)
    ensures op == "^" ==> r == Power(a, b)
    ensures !IsOperator(op) ==> r == Success(a)
  {
    if op == "+" then Success(a + b)
    else if op == "-" then Success(a - b)
    else if op == "x" || op == "*" then Success(a * b)
    else if op == "/" then (if b == 0.0 then Failure(DivisionByZero) else Success(a / b))
    else if op == "^" then Power(a, b)
    else Success(a)
  }

  /** Every failure of the dispatcher comes from `/` or `^`; the other
      operators and the unknown ones always yield a number. */
  lemma CalculateFailsOnlyForDivideOrPower(a: real, op: string, b: real)
    ensures Calculate(a, op, b).Failure? ==> (op == "/" && b == 0.0) || op == "^"
  {
  }

  /** The examples the dispatcher's own tests use. */
  lemma CalculateExamples()
    ensures Calculate(1.0, "+", 2.0) == Success(3.0)
    ensures Calculate(3.0, "-", 2.0) == Success(1.0)
    ensures Calculate(3.0, "x", 2.0) == Success(6.0)
    ensures Calculate(8.0, "/", 2.0) == Success(4.0)
    ensures Calculate(10.0, "^", 2.0) == Success(100.0)
    ensures Calculate(5.0, "", 100000.0) == Success(5.0)
  {
    assert Pow(10.0, 2) == 100.0;
  }
}
