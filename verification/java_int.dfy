/** The two pieces of Java integer arithmetic the statement relies on:
    `Math.max` and the `/` operator, which truncates toward zero (Dafny's
    own `/` is Euclidean, so the two differ on negative operands). */
module JavaInt {

  /** A divisor Java accepts without an `ArithmeticException`. */
  type NonZero = d: int | d != 0 witness 1

  function Abs(x: int): (r: int)
    ensures 0 <= r && (r == x || r == -x)
  {
    if x < 0 then -x else x
  }

  /** `Math.max(a, b)`. */
  function Max(a: int, b: int): (m: int)
    ensures a <= m && b <= m
    ensures m == a || m == b
  {
    if a >= b then a else b
  }

  /** Java's `a / d`: the quotient truncated toward zero, so the remainder
      `a - d * q` has the sign of the dividend and is smaller than `|d|`. */
  function Div(a: int, d: NonZero): (q: int)
    ensures 0 <= a ==> 0 <= a - d * q < Abs(d)
    ensures a <= 0 ==> -Abs(d) < a - d * q <= 0
  {
    var n := Abs(a) / Abs(d);
    var q := if (a < 0) == (d < 0) then n else -n;
    DivRemainder(a, d, n, q);
    q
  }

  lemma DivRemainder(a: int, d: NonZero, n: int, q: int)
    requires n == Abs(a) / Abs(d)
    requires q == if (a < 0) == (d < 0) then n else -n
    ensures 0 <= a ==> 0 <= a - d * q < Abs(d)
    ensures a <= 0 ==> -Abs(d) < a - d * q <= 0
  {
    var bigA, bigD := Abs(a), Abs(d);
    var r := bigA % bigD;
    assert bigA == bigD * n + r && 0 <= r < bigD;
    var dq := bigD * n;
    MulSigns(bigD, n);
    if 0 < d {
      assert d == bigD;
      if 0 <= a {
        assert d * q == dq;
      } else {
        assert d * q == d * -n == -dq;
      }
    } else {
      assert d == -bigD;
      if 0 <= a {
        assert d * q == (-bigD) * (-n) == dq;
      } else {
        assert d * q == (-bigD) * n == -dq;
      }
    }
  }

  lemma MulSigns(x: int, y: int)
    ensures (-x) * y == -(x * y) && x * (-y) == -(x * y) && (-x) * (-y) == x * y
  {
  }

  /** On a non-negative dividend and a positive divisor, Java's division and
      Dafny's agree. */
  lemma DivAgreesOnNaturals(a: int, d: NonZero)
    requires 0 <= a && 0 < d
    ensures Div(a, d) == a / d
  {
    var q := Div(a, d);
    DivUnique(a, d, q, a / d);
  }

  lemma MulAtLeast(d: nat, k: int)
    requires 1 <= k
    ensures d * k >= d
  {
  }

  /** Two quotients leaving a remainder in `[0, d)` are equal. */
  lemma DivUnique(a: int, d: int, q1: int, q2: int)
    requires 0 < d
    requires 0 <= a - d * q1 < d
    requires 0 <= a - d * q2 < d
    ensures q1 == q2
  {
    if q1 != q2 {
      var lo, hi := if q1 < q2 then q1 else q2, if q1 < q2 then q2 else q1;
      assert d * hi - d * lo == d * (hi - lo);
      MulAtLeast(d, hi - lo);
    }
  }
}
