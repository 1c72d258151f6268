/** The arithmetic tools of `tools/math.py`, over Python's unbounded integers. */
module MathTools {
  import opened Wrappers

  datatype MathError =
    | ValueError(message: string)  // raised by `divide` itself
    | ZeroDivisionError            // raised by Python's `%` operator

  const DivideByZero: string := "Cannot divide by zero."

  function Abs(x: int): nat {
    if x < 0 then -x else x
  }

  /** `add`: undone by `substract`. */
  function Add(a: int, b: int): (r: int)
    ensures Substract(r, b) == a
  {
    a + b
  }

  /** `substract`: undone by `add`. */
  function Substract(a: int, b: int): (r: int)
    ensures r + b == a
  {
    a - b
  }

  /** `multiply`. */
  function Multiply(a: int, b: int): (r: int)
    ensures r == 0 <==> a == 0 || b == 0
    ensures r > 0 <==> (a > 0 && b > 0) || (a < 0 && b < 0)
    ensures b == 1 ==> r == a
  {
    a * b
  }

  /** The product is divisible by either nonzero factor, and floor division gives back the other. */
  lemma MultiplyUndone(a: int, b: int)
    ensures b != 0 ==> Modulus(Multiply(a, b), b) == Ok(0) && FloorDiv(Multiply(a, b), b) == a
    ensures a != 0 ==> Modulus(Multiply(a, b), a) == Ok(0) && FloorDiv(Multiply(a, b), a) == b
  {
    if b != 0 { FloorUnique(a * b, b, a, 0); }
    if a != 0 { FloorUnique(a * b, a, b, 0); }
  }

  /** `divide`: a `ValueError` for a zero divisor, otherwise the exact quotient (a float in Python). */
  function Divide(a: int, b: int): (r: Result<real, MathError>)
    ensures r.Err? <==> b == 0
    ensures r.Err? ==> r.error == ValueError(DivideByZero)
    ensures r.Ok? ==> r.value * (b as real) == a as real
  {
    if b == 0 then Err(ValueError(DivideByZero)) else Ok((a as real) / (b as real))
  }

  /** Python's `a // b`: the quotient rounded toward minus infinity. */
  function FloorDiv(a: int, b: int): int
    requires b != 0
  {
    if b > 0 then a / b else (-a) / (-b)
  }

  /** Python's `a % b`: the remainder takes the sign of the divisor (Dafny's `%` never goes negative). */
  function FloorMod(a: int, b: int): (r: int)
    requires b != 0
    ensures b > 0 ==> 0 <= r < b
    ensures b < 0 ==> b < r <= 0
    ensures Abs(r) < Abs(b)
    ensures a == b * FloorDiv(a, b) + r
  {
    if b > 0 then a % b else -((-a) % (-b))
  }

  /** `modulus`: no guard of its own, so a zero divisor is Python's `ZeroDivisionError`. */
  function Modulus(a: int, b: int): (r: Result<int, MathError>)
    ensures r.Err? <==> b == 0
    ensures r.Err? ==> r.error == ZeroDivisionError
    ensures r.Ok? ==> r.value == FloorMod(a, b)
  {
    if b == 0 then Err(ZeroDivisionError) else Ok(FloorMod(a, b))
  }

  lemma {:induction false} NatMulAtLeast(x: nat, n: nat)
    requires n >= 1
    ensures x * n >= x
  {
    if n > 1 {
      NatMulAtLeast(x, n - 1);
      assert x * n == x * (n - 1) + x;
    }
  }

  /** A nonzero multiple of `b` is at least as large as `b`. */
  lemma MultipleAtLeast(b: int, d: int)
    ensures d != 0 ==> Abs(b * d) >= Abs(b)
  {
    if d != 0 {
      NatMulAtLeast(Abs(b), Abs(d));
      if b < 0 && d < 0 {
        assert b * d == Abs(b) * Abs(d);
      } else if b < 0 {
        assert b * d == -(Abs(b) * Abs(d));
      } else if d < 0 {
        assert b * d == -(Abs(b) * Abs(d));
      } else {
        assert b * d == Abs(b) * Abs(d);
      }
    }
  }

  /** Floor division and modulus are the only quotient and remainder with the remainder in the divisor's sign range. */
  lemma FloorUnique(a: int, b: int, q: int, r: int)
    requires b != 0 && a == b * q + r
    requires b > 0 ==> 0 <= r < b
    requires b < 0 ==> b < r <= 0
    ensures q == FloorDiv(a, b) && r == FloorMod(a, b)
  {
    var q', r' := FloorDiv(a, b), FloorMod(a, b);
    var d := q - q';
    assert b * d == r' - r by {
      assert b * d == b * q - b * q';
    }
    MultipleAtLeast(b, d);
  }

  /** The cases the tests exercise; note that Dafny's own `5 % -4` is `1`. */
  lemma Examples()
    ensures Modulus(5, 4) == Ok(1) && Modulus(10, 2) == Ok(0)
    ensures Modulus(5, -4) == Ok(-3) && Modulus(-5, 4) == Ok(3)
    ensures 5 % -4 == 1
    ensures Divide(7, 2) == Ok(3.5) && Divide(-15, -5) == Ok(3.0)
    ensures Divide(5, 0) == Err(ValueError("Cannot divide by zero."))
  {
  }
}
