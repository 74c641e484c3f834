/** Numeric helpers with Python/NumPy meaning: `round`, `max` and
  * `np.linspace`, over exact reals. */
module Numeric {

  function Max(a: int, b: int): (m: int)
    ensures m >= a && m >= b && (m == a || m == b)
  {
    if a >= b then a else b
  }

  function MaxReal(a: real, b: real): (m: real)
    ensures m >= a && m >= b && (m == a || m == b)
  {
    if a >= b then a else b
  }

  function Abs(x: real): (y: real)
    ensures y >= 0.0 && (y == x || y == -x)
  {
    if x < 0.0 then -x else x
  }

  /** Python's `round(x)`: the nearest integer, ties going to the even one. */
  function Round(x: real): (n: int)
    ensures x - 0.5 <= n as real <= x + 0.5
    ensures (n as real == x + 0.5 || n as real == x - 0.5) ==> n % 2 == 0
  {
    var f := x.Floor;
    var d := x - f as real;
    if d < 0.5 then f
    else if d > 0.5 then f + 1
    else if f % 2 == 0 then f
    else f + 1
  }

  /** The two clauses above pin `Round` down: any integer within a half of
    * `x` that is even on a tie is `Round(x)`. */
  lemma RoundUnique(x: real, m: int)
    requires x - 0.5 <= m as real <= x + 0.5
    requires (m as real == x + 0.5 || m as real == x - 0.5) ==> m % 2 == 0
    ensures Round(x) == m
  {
  }

  lemma RoundOfInt(k: int)
    ensures Round(k as real) == k
  {
    RoundUnique(k as real, k);
  }

  /** Rounding never goes past an integer bound. */
  lemma RoundBelow(x: real, m: int)
    requires x <= m as real
    ensures Round(x) <= m
  {
  }

  /** `np.linspace(a, b, n)`: `n` evenly spaced samples from `a` to `b`
    * inclusive; `[a]` for one sample and `[]` for none. */
  function Linspace(a: real, b: real, n: nat): (s: seq<real>)
    ensures |s| == n
    ensures n >= 1 ==> s[0] == a
    ensures n >= 2 ==> s[n - 1] == b
  {
    if n == 0 then []
    else if n == 1 then [a]
    else
      var step := (b - a) / ((n - 1) as real);
      var s := seq(n, i requires 0 <= i < n => a + (i as real) * step);
      DivCancel(b - a, (n - 1) as real);
      assert s[n - 1] == a + ((n - 1) as real) * step;
      s
  }

  /** Consecutive samples are one step `(b - a)/(n - 1)` apart. */
  lemma LinspaceStep(a: real, b: real, n: nat, i: nat)
    requires i + 1 < n
    ensures Linspace(a, b, n)[i + 1] - Linspace(a, b, n)[i] == (b - a) / ((n - 1) as real)
  {
    var s := Linspace(a, b, n);
    var step := (b - a) / ((n - 1) as real);
    assert s[i] == a + (i as real) * step;
    assert s[i + 1] == a + ((i + 1) as real) * step;
  }

  /** From a lower to a higher end point the samples never decrease. */
  lemma LinspaceMonotone(a: real, b: real, n: nat, i: nat, j: nat)
    requires a <= b && i <= j < n
    ensures Linspace(a, b, n)[i] <= Linspace(a, b, n)[j]
  {
    if n > 1 {
      var step := (b - a) / ((n - 1) as real);
      assert step >= 0.0;
      LinspaceAt(a, b, n, i);
      LinspaceAt(a, b, n, j);
      MulMonotone(i as real, j as real, step);
    } else {
      assert i == j;
    }
  }

  /** Sample `i` lies `i` steps above the lower end point. */
  lemma LinspaceAt(a: real, b: real, n: nat, i: nat)
    requires 1 < n && i < n
    ensures Linspace(a, b, n)[i] == a + (i as real) * ((b - a) / ((n - 1) as real))
  {
  }

  lemma MulMonotone(x: real, y: real, c: real)
    requires x <= y && c >= 0.0
    ensures x * c <= y * c
  {
    assert y * c - x * c == (y - x) * c;
  }

  lemma Distribute(x: real, y: real, c: real)
    ensures x * c + y * c == (x + y) * c
  {
  }

  lemma DivCancel(x: real, d: real)
    requires d != 0.0
    ensures d * (x / d) == x
  {
  }

  /** A sweep of two or more samples from `-r` to `r` is symmetric about 0:
    * the `i`-th sample from the front is the negative of the `i`-th from the
    * back. (A single sample is just `[-r]`.) */
  lemma LinspaceSymmetric(r: real, n: nat, i: nat)
    requires i < n && n != 1
    ensures Linspace(-r, r, n)[i] == -Linspace(-r, r, n)[n - 1 - i]
  {
    if n > 1 {
      var d := (n - 1) as real;
      var step := (r - -r) / d;
      var x, y := i as real, (n - 1 - i) as real;
      assert Linspace(-r, r, n)[i] == -r + x * step;
      assert Linspace(-r, r, n)[n - 1 - i] == -r + y * step;
      Distribute(x, y, step);
      assert x + y == d;
      DivCancel(r - -r, d);
    }
  }
}
