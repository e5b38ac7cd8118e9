/** Bit masks on unsigned integers, and powers of two. */
module Masks {
  // a & b
  function And(a: nat, b: nat): nat {
    if a == 0 || b == 0 then 0
    else 2 * And(a / 2, b / 2) + (if a % 2 == 1 && b % 2 == 1 then 1 else 0)
  }

  predicate PowerOfTwo(n: nat) {
    n == 1 || (n > 1 && n % 2 == 0 && PowerOfTwo(n / 2))
  }

  lemma {:induction false} MaskIsMod(a: nat, n: nat)
    requires PowerOfTwo(n)
    ensures And(a, n - 1) == a % n
    decreases n
  {
    if n == 1 || a == 0 {
      Remainder(a, n, if n == 1 then a else 0, 0);
    } else {
      var h := n / 2;
      MaskIsMod(a / 2, h);
      HalvedMod(a, h);
      AndOdd(a, h - 1);
    }
  }

  lemma {:induction false} NoPowerBetween(n: nat, m: nat)
    requires PowerOfTwo(n) && PowerOfTwo(m) && n < 2 * m
    ensures n <= m
  {
    if n > 1 && m > 1 {
      NoPowerBetween(n / 2, m / 2);
    }
  }

  function Pow2(k: nat): nat {
    if k == 0 then 1 else 2 * Pow2(k - 1)
  }

  lemma {:induction false} Pow2IsPower(k: nat)
    ensures PowerOfTwo(Pow2(k))
  {
    if k > 0 {
      Pow2IsPower(k - 1);
      assert 2 * Pow2(k - 1) / 2 == Pow2(k - 1);
    }
  }

  lemma {:induction false} TenMore(k: nat)
    ensures Pow2(k + 10) == 1024 * Pow2(k)
  {
    assert Pow2(k + 2) == 4 * Pow2(k);
    assert Pow2(k + 4) == 4 * Pow2(k + 2);
    assert Pow2(k + 6) == 4 * Pow2(k + 4);
    assert Pow2(k + 8) == 4 * Pow2(k + 6);
  }

  // Doubling a capacity below 2^31 gives at most 2^31.
  lemma {:induction false} FitsTwice(n: nat)
    requires PowerOfTwo(n) && n < 0x8000_0000
    ensures 2 * n <= 0x8000_0000
  {
    TenMore(0);
    TenMore(10);
    TenMore(20);
    Pow2IsPower(30);
    NoPowerBetween(n, Pow2(30));
  }

  lemma {:induction false} AndOdd(a: nat, m: nat)
    ensures And(a, 2 * m + 1) == 2 * And(a / 2, m) + a % 2
  {
    assert (2 * m + 1) / 2 == m && (2 * m + 1) % 2 == 1;
  }

  lemma {:induction false} HalvedMod(a: nat, h: nat)
    requires h > 0
    ensures a % (2 * h) == 2 * (a / 2 % h) + a % 2
  {
    var q, r := a / 2 / h, a / 2 % h;
    assert a / 2 == q * h + r;
    assert 2 * (q * h) == q * (2 * h);
    Remainder(a, 2 * h, q, 2 * r + a % 2);
  }

  lemma {:induction false} Remainder(a: nat, n: nat, q: nat, r: nat)
    requires n > 0 && a == q * n + r && r < n
    ensures a % n == r
  {
    var p := a / n;
    assert a == p * n + a % n;
    assert (p + 1) * n == p * n + n && (q + 1) * n == q * n + n;
    Smaller(p, q + 1, n);
    Smaller(q, p + 1, n);
  }

  lemma {:induction false} Smaller(x: nat, y: nat, n: nat)
    requires x * n < y * n
    ensures x < y
  {
    if y <= x {
      Grows(y, x, n);
    }
  }

  lemma {:induction false} Grows(x: nat, y: nat, n: nat)
    requires x <= y
    ensures x * n <= y * n
  {
    assert y * n == x * n + (y - x) * n;
  }
}
