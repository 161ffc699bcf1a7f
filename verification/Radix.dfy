/** Quotients and remainders of mixed-radix numbers. */
module Radix {

  lemma QuotientUnique(d: nat, q: int, r: nat, g: int, m: nat)
    requires r < d && m < d && d * q + r == d * g + m
    ensures q == g && r == m
  {
    assert d * (q - g) == m - r;
    assert q - g >= 1 ==> d * (q - g) >= d;
    assert g - q >= 1 ==> d * (g - q) >= d;
  }

  lemma DigitOf(d: nat, q: int, r: nat)
    requires r < d
    ensures (d * q + r) / d == q && (d * q + r) % d == r
  {
    QuotientUnique(d, (d * q + r) / d, (d * q + r) % d, q, r);
  }

  lemma FactorBelow(d: nat, q: int, n: int)
    requires d * q < d * n
    ensures q < n
  {
  }
}
