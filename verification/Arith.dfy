/** The few facts about products, quotients and remainders that the ring and the layout need. */
module Arith {
  lemma MulAtLeast(a: int, d: int)
    requires a >= 1 && d >= 0
    ensures a * d >= d
  {
  }

  lemma MulNonNegative(a: int, d: int)
    requires a >= 0 && d >= 0
    ensures a * d >= 0
  {
  }

  lemma Distribute(a: int, b: int, d: int)
    ensures (a + b) * d == a * d + b * d
    ensures (a - b) * d == a * d - b * d
  {
  }

  lemma Associate(a: int, b: int, c: int)
    ensures a * (b * c) == (a * b) * c
  {
  }

  /** Quotient and remainder are unique. */
  lemma DivModUnique(x: nat, d: nat, q: int, r: nat)
    requires 0 < d && x == q * d + r && r < d
    ensures x / d == q && x % d == r
  {
    var q' := x / d;
    assert x == q' * d + x % d;
    Distribute(q, q', d);
    if q > q' {
      MulAtLeast(q - q', d);
    } else if q < q' {
      MulAtLeast(q' - q, d);
      Distribute(q', q, d);
    }
  }

  /** A number below the divisor is its own remainder. */
  lemma ModSmall(x: nat, d: nat)
    requires x < d
    ensures x % d == x
  {
    DivModUnique(x, d, 0, x);
  }

  /** Counting on after a reduction and before it come to the same. */
  lemma ModStep(i: nat, m: nat, q: nat, r: nat)
    requires i == q * m + r && r < m
    ensures (r + 1) % m == (i + 1) % m
  {
    if r + 1 < m {
      ModSmall(r + 1, m);
      DivModUnique(i + 1, m, q, r + 1);
    } else {
      DivModUnique(m, m, 1, 0);
      Distribute(q, 1, m);
      DivModUnique(i + 1, m, q + 1, 0);
    }
  }

  /** Reducing by a multiple of `n` first does not change the remainder by `n`. */
  lemma ModOfMultiple(i: nat, n: nat, m: nat, k: nat, q: nat, j: nat)
    requires 0 < n && m == k * n && i == q * m + j
    ensures i % n == j % n
  {
    Associate(q, k, n);
    Distribute(q * k, j / n, n);
    DivModUnique(i, n, q * k + j / n, j % n);
  }

  /** Going on to the next multiple of `d` reaches a multiple of `d`. */
  lemma GapCloses(x: nat, d: nat)
    requires 0 < d
    ensures x % d != 0 ==> (x + (d - x % d)) % d == 0
  {
    Distribute(x / d, 1, d);
    DivModUnique((x / d + 1) * d, d, x / d + 1, 0);
  }

  lemma MultipleOf(x: nat, k: nat, d: nat)
    requires 0 < d && x % d == 0
    ensures x * k % d == 0
  {
    Associate(k, x / d, d);
    MulNonNegative(k, x / d);
    DivModUnique(x * k, d, k * (x / d), 0);
  }

  lemma SumOfMultiples(x: nat, y: nat, d: nat)
    requires 0 < d && x % d == 0 && y % d == 0
    ensures (x + y) % d == 0
  {
    Distribute(x / d, y / d, d);
    DivModUnique(x + y, d, x / d + y / d, 0);
  }
}
