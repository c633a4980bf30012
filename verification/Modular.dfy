/** Quotients and remainders, for rings indexed by a running count and for shifts of machine words. */
module Modular {
  /** A product with a non-zero factor is at least as large as the other. */
  lemma Product(n: int, e: int)
    requires n >= 0
    ensures e >= 1 ==> n * e >= n
    ensures e <= -1 ==> n * e <= -n
  {
  }

  /** Quotient and remainder are the only ones there are. */
  lemma QuotientIs(x: int, n: nat, q: int, r: int)
    requires n > 0 && 0 <= r < n && x == n * q + r
    ensures x / n == q && x % n == r
  {
    var e := x / n - q;
    assert n * e == r - x % n by {
      assert x == n * (x / n) + x % n;
      assert n * e == n * (x / n) - n * q;
    }
    Product(n, e);
    assert e == 0;
  }

  /** Machine division, toward zero, and its remainder, of the dividend's sign. */
  function Quot(a: int, n: nat): int
    requires n > 0
  {
    if a >= 0 then a / n else -(-a / n)
  }

  function Rem(a: int, n: nat): int
    requires n > 0
  {
    if a >= 0 then a % n else -(-a % n)
  }

  lemma ModPlus(a: int, k: int, n: nat)
    requires n > 0
    ensures (a + k * n) % n == a % n
  {
    assert a + k * n == n * (a / n + k) + a % n by {
      assert n * (a / n + k) == n * (a / n) + k * n;
    }
    QuotientIs(a + k * n, n, a / n + k, a % n);
  }

  /** Two counts less than a ring apart share no slot. */
  lemma SlotsApart(a: nat, b: nat, n: nat)
    requires n > 0 && a < b < a + n
    ensures a % n != b % n
  {
    var k := b / n - a / n;
    assert b - a == n * k + (b % n - a % n) by {
      assert b == n * (b / n) + b % n && a == n * (a / n) + a % n;
      assert n * k == n * (b / n) - n * (a / n);
    }
    Product(n, k);
  }
}
