/**
 * The few pieces of Java semantics the widget's arithmetic depends on:
 * the exceptions it can raise, the `(int)` cast of a float, `Math.round`,
 * and integer `/` and `%`, which truncate toward zero (Dafny's are Euclidean).
 * Floats are modelled as reals and ints as unbounded integers.
 */
module JavaLang {

  /** The exceptions the modelled code raises or lets escape. */
  datatype Exception =
    | NullPointer               // a method called on a null view or bundle
    | Arithmetic                // integer remainder by zero
    | ArrayIndexOutOfBounds     // a negative array index
    | ClassCast                 // layout parameters of the wrong class
    | IllegalArgument(id: int)  // an unknown interpolator id
    | IllegalState              // a tab provider returned no view
    | UnsupportedOperation      // conflicting configuration

  /** Java's `(int) x` for a float `x`: truncation toward zero. */
  function Trunc(x: real): (r: int)
    ensures 0.0 <= x ==> r as real <= x < r as real + 1.0
    ensures x < 0.0 ==> r as real - 1.0 < x <= r as real
  {
    if x >= 0.0 then x.Floor else -((-x).Floor)
  }

  /** `(int)` is monotone. */
  lemma TruncMonotone(x: real, y: real)
    requires x <= y
    ensures Trunc(x) <= Trunc(y)
  {
    if x < 0.0 && 0.0 <= y {
      assert Trunc(x) <= 0 <= Trunc(y);
    }
  }

  /** Truncation keeps a value within integer bounds. */
  lemma TruncWithin(x: real, lo: int, hi: int)
    requires lo as real <= x <= hi as real
    ensures lo <= Trunc(x) <= hi
  {
    TruncMonotone(lo as real, x);
    TruncMonotone(x, hi as real);
    TruncOfInt(lo);
    TruncOfInt(hi);
  }

  /** An integer is its own truncation. */
  lemma TruncOfInt(n: int)
    ensures Trunc(n as real) == n
  {
  }

  /** `Math.round(x)`, which Java defines as `floor(x + 1/2)`. */
  function Round(x: real): (r: int)
    ensures r as real - 0.5 <= x < r as real + 0.5
  {
    (x + 0.5).Floor
  }

  /** Java's `a / 2` on ints: the quotient truncated toward zero. */
  function Half(a: int): (h: int)
    ensures 0 <= a ==> a == 2 * h || a == 2 * h + 1
    ensures a < 0 ==> a == 2 * h || a == 2 * h - 1
  {
    if a >= 0 then a / 2 else -((-a) / 2)
  }

  /** Java's `a % n` for `n > 0`: the remainder takes the sign of `a`. */
  function Rem(a: int, n: int): (r: int)
    requires n > 0
    ensures 0 <= a ==> r == a % n
    ensures a < 0 ==> -n < r <= 0 && (r == 0 <==> a % n == 0)
  {
    if a >= 0 then a % n
    else
      NegatedDivisible(a, n);
      -((-a) % n)
  }

  /** `n` divides `a` exactly when it divides `-a`. */
  lemma NegatedDivisible(a: int, n: int)
    requires n > 0
    ensures a % n == 0 <==> (-a) % n == 0
  {
    if a % n == 0 {
      var q := a / n;
      assert -a == n * (-q) + 0;
      assert (-a) % n == 0 by { DivisibleByWitness(-a, n, -q); }
    }
    if (-a) % n == 0 {
      var q := (-a) / n;
      assert a == n * (-q) + 0;
      assert a % n == 0 by { DivisibleByWitness(a, n, -q); }
    }
  }

  lemma DivisibleByWitness(a: int, n: int, q: int)
    requires n > 0 && a == n * q
    ensures a % n == 0
  {
    ModUnique(a, n, q, 0);
  }

  /** Division with remainder is unique: `a == n * q + r` with `0 <= r < n` fixes `a % n`. */
  lemma ModUnique(a: int, n: int, q: int, r: int)
    requires n > 0 && 0 <= r < n && a == n * q + r
    ensures a % n == r
  {
    var d := q - a / n;
    assert a % n - r == n * d by {
      assert a == n * (a / n) + a % n;
      assert n * q - n * (a / n) == n * (q - a / n);
    }
    if d >= 1 {
      assert false;
    } else if d <= -1 {
      assert false;
    }
  }
}
