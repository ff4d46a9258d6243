/** Small shared vocabulary: optional values, results with an error, and
    the `Math.min` / `Math.max` of two numbers. */
module Common {

  datatype Option<T> = None | Some(value: T)

  datatype Result<T, E> = Ok(value: T) | Err(error: E)

  function Min(a: real, b: real): real
  {
    if a <= b then a else b
  }

  function Max(a: real, b: real): real
  {
    if a >= b then a else b
  }

  /** a * c <= b * d for non-negative factors that grow: the step Z3 does
      not take on its own when several products meet. */
  lemma {:induction false} MulMono(a: real, b: real, c: real, d: real)
    requires 0.0 <= a <= b && 0.0 <= c <= d
    ensures a * c <= b * d
  {
    assert a * c <= b * c;
    assert b * c <= b * d;
  }

  /** a * c < b * c for a < b and a positive factor c. */
  lemma {:induction false} MulStrict(a: real, b: real, c: real)
    requires a < b && 0.0 < c
    ensures a * c < b * c
  {
    PositiveProduct(b - a, c);
    assert (b - a) * c == b * c - a * c;
  }

  /** x / y lies in [0, 1] when 0 <= x <= y and y is positive. */
  lemma {:induction false} QuotientInUnit(x: real, y: real)
    requires 0.0 <= x <= y && 0.0 < y
    ensures 0.0 <= x / y <= 1.0
  {
    var q := x / y;
    assert q * y == x;
    if q < 0.0 {
      MulStrict(q, 0.0, y);
      assert false;
    }
    if q > 1.0 {
      MulStrict(1.0, q, y);
      assert false;
    }
  }

  lemma {:induction false} PositiveProduct(a: real, b: real)
    requires a > 0.0 && b > 0.0
    ensures a * b > 0.0
  {
  }

  /** A positive number has a positive square, reached through the
      quotient because Z3 gives up on the product itself. */
  lemma {:induction false} SquarePositive(x: real, s: real)
    requires 0.0 < x && s == x * x
    ensures 0.0 < s
  {
    assert s / x == x;
  }

  /** A product of two opacities is again an opacity. */
  lemma {:induction false} ProductInUnit(a: real, b: real)
    requires 0.0 <= a <= 1.0 && 0.0 <= b <= 1.0
    ensures 0.0 <= a * b <= 1.0
    ensures a * b <= a && a * b <= b
  {
    MulMono(a, a, b, 1.0);
    MulMono(b, b, a, 1.0);
    MulMono(0.0, a, 0.0, b);
  }

  /** A product of two opacities is positive exactly when both are. */
  lemma {:induction false} ProductPositiveIff(a: real, b: real)
    requires 0.0 <= a && 0.0 <= b
    ensures a * b > 0.0 <==> a > 0.0 && b > 0.0
  {
    if a > 0.0 && b > 0.0 {
      PositiveProduct(a, b);
    } else if a == 0.0 {
      assert a * b == 0.0;
    } else {
      assert b == 0.0;
      assert a * b == 0.0;
    }
  }
}
