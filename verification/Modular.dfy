/** Facts about division with remainder. */
module Modular {
  lemma NoMultiple(m: nat, k: int)
    ensures k >= 1 ==> m * k >= m
    ensures k <= -1 ==> m * k <= -1 * m
    ensures k == 0 ==> m * k == 0
  {
    if k >= 1 {
      assert m * (k - 1) >= 0;
    } else if k <= -1 {
      assert m * (-k - 1) >= 0;
    }
  }

  lemma MinusTimes(m: nat, a: int, b: int)
    ensures m * (a - b) == m * a - m * b
  {
  }

  lemma Divided(x: int, m: nat)
    requires m > 0
    ensures x == m * (x / m) + x % m && 0 <= x % m < m
  {
  }

  /** Two ways of writing a number as a multiple of `m` and a remainder are one. */
  lemma DivUnique(m: nat, q: int, r: nat, q1: int, r1: nat)
    requires m > 0 && r < m && r1 < m && m * q + r == m * q1 + r1
    ensures q == q1 && r == r1
  {
    MinusTimes(m, q, q1);
    NoMultiple(m, q - q1);
  }

  lemma ModUnique(x: int, m: nat, q: int, r: nat)
    requires m > 0 && r < m && x == m * q + r
    ensures x % m == r && x / m == q
  {
    Divided(x, m);
    DivUnique(m, q, r, x / m, x % m);
  }

  lemma ModTurn(x: int, m: nat)
    requires m > 0
    ensures (x + m) % m == x % m
  {
    Divided(x, m);
    assert m * (x / m + 1) == m * (x / m) + m;
    ModUnique(x + m, m, x / m + 1, x % m);
  }

  lemma ModAtMost(x: nat, m: nat)
    requires m > 0
    ensures x % m <= x
  {
    Divided(x, m);
    assert m * (x / m) >= 0;
  }

  /** Numbers less than `m` apart with the same remainder are equal. */
  lemma SameResidue(x: int, y: int, m: nat)
    requires m > 0 && x % m == y % m && x < y + m && y < x + m
    ensures x == y
  {
    Divided(x, m);
    Divided(y, m);
    MinusTimes(m, x / m, y / m);
    NoMultiple(m, x / m - y / m);
  }
}
