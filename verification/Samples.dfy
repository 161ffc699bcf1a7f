/** Two-pass reference definitions over a list of samples, with exact reals. */
module Samples {
  import opened Sequences

  function Pow(x: real, p: nat): real {
    if p == 0 then 1.0 else x * Pow(x, p - 1)
  }

  /** Sum of (x - a)^p over the samples. */
  function CentralSum(xs: seq<real>, a: real, p: nat): real {
    if xs == [] then 0.0
    else CentralSum(xs[..|xs| - 1], a, p) + Pow(xs[|xs| - 1] - a, p)
  }

  /** Sum of (x - a) * (y - b) over paired samples. */
  function CoSum(xs: seq<real>, ys: seq<real>, a: real, b: real): real
    requires |xs| == |ys|
  {
    if xs == [] then 0.0
    else CoSum(xs[..|xs| - 1], ys[..|ys| - 1], a, b) + (xs[|xs| - 1] - a) * (ys[|ys| - 1] - b)
  }

  function RawMoment(xs: seq<real>, p: nat): real
    requires xs != []
  {
    CentralSum(xs, 0.0, p) / |xs| as real
  }

  function Mean(xs: seq<real>): real
    requires xs != []
  {
    RawMoment(xs, 1)
  }

  function CentralMoment(xs: seq<real>, p: nat): real
    requires xs != []
  {
    CentralSum(xs, Mean(xs), p) / |xs| as real
  }

  /** Sum of squared deviations from the mean. */
  function SquaredDeviations(xs: seq<real>): real
    requires xs != []
  {
    CentralSum(xs, Mean(xs), 2)
  }

  function UnbiasedVariance(xs: seq<real>): real
    requires |xs| >= 2
  {
    SquaredDeviations(xs) / (|xs| - 1) as real
  }

  function UnbiasedCovariance(xs: seq<real>, ys: seq<real>): real
    requires |xs| == |ys| >= 2
  {
    CoSum(xs, ys, Mean(xs), Mean(ys)) / (|xs| - 1) as real
  }

  /** A raw moment times the sample count is the sum of powers. */
  lemma RawMomentTimes(xs: seq<real>, p: nat)
    requires xs != []
    ensures RawMoment(xs, p) * |xs| as real == CentralSum(xs, 0.0, p)
  {
  }

  lemma Quotient(x: real, n: real, y: real)
    requires n != 0.0 && x == n * y
    ensures x / n == y
  {
  }

  lemma Powers(x: real)
    ensures Pow(x, 1) == x && Pow(x, 2) == x * x && Pow(x, 3) == x * x * x && Pow(x, 4) == x * x * x * x
  {
    assert Pow(x, 1) == x * Pow(x, 0);
    assert Pow(x, 2) == x * Pow(x, 1);
    assert Pow(x, 3) == x * Pow(x, 2);
    assert Pow(x, 4) == x * Pow(x, 3);
  }

  lemma {:induction false} CentralSumConcat(xs: seq<real>, ys: seq<real>, a: real, p: nat)
    ensures CentralSum(xs + ys, a, p) == CentralSum(xs, a, p) + CentralSum(ys, a, p)
  {
    if ys == [] {
      assert xs + ys == xs;
    } else {
      assert (xs + ys)[..|xs + ys| - 1] == xs + ys[..|ys| - 1];
      CentralSumConcat(xs, ys[..|ys| - 1], a, p);
    }
  }

  lemma {:induction false} CentralSumMiddle(xs: seq<real>, k: nat, a: real, p: nat)
    requires k < |xs|
    ensures CentralSum(xs, a, p) == CentralSum(xs[..k] + xs[k + 1..], a, p) + Pow(xs[k] - a, p)
  {
    assert [xs[k]][..0] == [];
    assert xs == xs[..k] + [xs[k]] + xs[k + 1..];
    CentralSumConcat(xs[..k], xs[k + 1..], a, p);
    CentralSumConcat(xs[..k], [xs[k]], a, p);
    CentralSumConcat(xs[..k] + [xs[k]], xs[k + 1..], a, p);
  }

  /** A central sum is fixed by the multiset of samples, not by their order. */
  lemma {:induction false} CentralSumPermutation(xs: seq<real>, ys: seq<real>, a: real, p: nat)
    requires multiset(xs) == multiset(ys)
    ensures CentralSum(xs, a, p) == CentralSum(ys, a, p)
  {
    SameLength(xs, ys);
    if xs != [] {
      var j := MatchLast(xs, ys);
      CentralSumPermutation(xs[..|xs| - 1], ys[..j] + ys[j + 1..], a, p);
      CentralSumMiddle(ys, j, a, p);
    }
  }

  lemma Distribute(a: real, s: real, x: real)
    ensures a * (s + x) == a * s + a * x
  {
  }

  lemma Binomial3(x: real, a: real)
    ensures (x - a) * (x - a) * (x - a) == x * x * x - 3.0 * a * (x * x) + 3.0 * (a * a) * x - a * a * a
  {
  }

  lemma Binomial4(x: real, a: real)
    ensures (x - a) * (x - a) * (x - a) * (x - a)
         == x * x * x * x - 4.0 * a * (x * x * x) + 6.0 * (a * a) * (x * x) - 4.0 * (a * a * a) * x + a * a * a * a
  {
    Binomial3(x, a);
    var c := (x - a) * (x - a) * (x - a);
    assert c * (x - a) == c * x - c * a;
  }

  /** The central sums of orders two to four about a, written with raw power sums. */
  function Quadratic(s1: real, s2: real, n: real, a: real): real {
    s2 - 2.0 * a * s1 + a * a * n
  }

  function Cubic(s1: real, s2: real, s3: real, n: real, a: real): real {
    s3 - 3.0 * a * s2 + 3.0 * (a * a) * s1 - a * a * a * n
  }

  function Quartic(s1: real, s2: real, s3: real, s4: real, n: real, a: real): real {
    s4 - 4.0 * a * s3 + 6.0 * (a * a) * s2 - 4.0 * (a * a * a) * s1 + a * a * a * a * n
  }

  lemma QuadraticStep(s1: real, s2: real, n: real, x: real, a: real)
    ensures Quadratic(s1, s2, n, a) + Pow(x - a, 2) == Quadratic(s1 + Pow(x, 1), s2 + Pow(x, 2), n + 1.0, a)
  {
    Powers(x);
    Powers(x - a);
    Distribute(2.0 * a, s1, x);
    Distribute(a * a, n, 1.0);
  }

  lemma CubicStep(s1: real, s2: real, s3: real, n: real, x: real, a: real)
    ensures Cubic(s1, s2, s3, n, a) + Pow(x - a, 3)
         == Cubic(s1 + Pow(x, 1), s2 + Pow(x, 2), s3 + Pow(x, 3), n + 1.0, a)
  {
    Powers(x);
    Powers(x - a);
    Binomial3(x, a);
    Distribute(3.0 * a, s2, x * x);
    Distribute(3.0 * (a * a), s1, x);
    Distribute(a * a * a, n, 1.0);
  }

  lemma QuarticStep(s1: real, s2: real, s3: real, s4: real, n: real, x: real, a: real)
    ensures Quartic(s1, s2, s3, s4, n, a) + Pow(x - a, 4)
         == Quartic(s1 + Pow(x, 1), s2 + Pow(x, 2), s3 + Pow(x, 3), s4 + Pow(x, 4), n + 1.0, a)
  {
    Powers(x);
    Powers(x - a);
    Binomial4(x, a);
    Distribute(4.0 * a, s3, x * x * x);
    Distribute(6.0 * (a * a), s2, x * x);
    Distribute(4.0 * (a * a * a), s1, x);
    Distribute(a * a * a * a, n, 1.0);
  }

  lemma {:induction false} Expand2(xs: seq<real>, a: real)
    ensures CentralSum(xs, a, 2) == Quadratic(CentralSum(xs, 0.0, 1), CentralSum(xs, 0.0, 2), |xs| as real, a)
  {
    if xs != [] {
      var ys, x := xs[..|xs| - 1], xs[|xs| - 1];
      Expand2(ys, a);
      QuadraticStep(CentralSum(ys, 0.0, 1), CentralSum(ys, 0.0, 2), |ys| as real, x, a);
      assert x - 0.0 == x;
    }
  }

  lemma {:induction false} Expand3(xs: seq<real>, a: real)
    ensures CentralSum(xs, a, 3)
         == Cubic(CentralSum(xs, 0.0, 1), CentralSum(xs, 0.0, 2), CentralSum(xs, 0.0, 3), |xs| as real, a)
  {
    if xs != [] {
      var ys, x := xs[..|xs| - 1], xs[|xs| - 1];
      Expand3(ys, a);
      CubicStep(CentralSum(ys, 0.0, 1), CentralSum(ys, 0.0, 2), CentralSum(ys, 0.0, 3), |ys| as real, x, a);
      assert x - 0.0 == x;
    }
  }

  lemma {:induction false} Expand4(xs: seq<real>, a: real)
    ensures CentralSum(xs, a, 4)
         == Quartic(CentralSum(xs, 0.0, 1), CentralSum(xs, 0.0, 2), CentralSum(xs, 0.0, 3), CentralSum(xs, 0.0, 4),
                    |xs| as real, a)
  {
    if xs != [] {
      var ys, x := xs[..|xs| - 1], xs[|xs| - 1];
      Expand4(ys, a);
      QuarticStep(CentralSum(ys, 0.0, 1), CentralSum(ys, 0.0, 2), CentralSum(ys, 0.0, 3), CentralSum(ys, 0.0, 4),
                  |ys| as real, x, a);
      assert x - 0.0 == x;
    }
  }

  lemma SumOfPowers(xs: seq<real>, p: nat, m: real)
    requires xs != [] && m == RawMoment(xs, p)
    ensures CentralSum(xs, 0.0, p) == m * |xs| as real
  {
    RawMomentTimes(xs, p);
  }

  lemma MomentIsQuotient(xs: seq<real>, p: nat, m: real)
    requires xs != [] && m == RawMoment(xs, 1)
    ensures CentralMoment(xs, p) == CentralSum(xs, m, p) / |xs| as real
  {
  }

  /** Central moments of orders two to four written with raw moments. */
  lemma CentralMoment2(xs: seq<real>, m1: real, m2: real)
    requires xs != [] && m1 == RawMoment(xs, 1) && m2 == RawMoment(xs, 2)
    ensures CentralMoment(xs, 2) == m2 - m1 * m1
  {
    hide *;
    SumOfPowers(xs, 1, m1);
    SumOfPowers(xs, 2, m2);
    Expand2(xs, m1);
    MomentIsQuotient(xs, 2, m1);
    CollectQuadratic(m1, m2, CentralSum(xs, 0.0, 1), CentralSum(xs, 0.0, 2), |xs| as real, CentralSum(xs, m1, 2));
  }

  lemma CentralMoment3(xs: seq<real>, m1: real, m2: real, m3: real)
    requires xs != [] && m1 == RawMoment(xs, 1) && m2 == RawMoment(xs, 2) && m3 == RawMoment(xs, 3)
    ensures CentralMoment(xs, 3) == m3 - 3.0 * m1 * m2 + 2.0 * (m1 * m1 * m1)
  {
    hide *;
    SumOfPowers(xs, 1, m1);
    SumOfPowers(xs, 2, m2);
    SumOfPowers(xs, 3, m3);
    Expand3(xs, m1);
    MomentIsQuotient(xs, 3, m1);
    CollectCubic(m1, m2, m3, CentralSum(xs, 0.0, 1), CentralSum(xs, 0.0, 2), CentralSum(xs, 0.0, 3), |xs| as real,
                 CentralSum(xs, m1, 3));
  }

  lemma CentralMoment4(xs: seq<real>, m1: real, m2: real, m3: real, m4: real)
    requires xs != [] && m1 == RawMoment(xs, 1) && m2 == RawMoment(xs, 2)
    requires m3 == RawMoment(xs, 3) && m4 == RawMoment(xs, 4)
    ensures CentralMoment(xs, 4) == m4 - 4.0 * m1 * m3 + 6.0 * (m1 * m1) * m2 - 3.0 * (m1 * m1 * m1 * m1)
  {
    hide *;
    SumOfPowers(xs, 1, m1);
    SumOfPowers(xs, 2, m2);
    SumOfPowers(xs, 3, m3);
    SumOfPowers(xs, 4, m4);
    Expand4(xs, m1);
    MomentIsQuotient(xs, 4, m1);
    CollectQuartic(m1, m2, m3, m4, CentralSum(xs, 0.0, 1), CentralSum(xs, 0.0, 2), CentralSum(xs, 0.0, 3),
                   CentralSum(xs, 0.0, 4), |xs| as real, CentralSum(xs, m1, 4));
  }

  lemma CollectQuadratic(m1: real, m2: real, s1: real, s2: real, n: real, sum: real)
    requires n != 0.0 && s1 == m1 * n && s2 == m2 * n && sum == Quadratic(s1, s2, n, m1)
    ensures sum / n == m2 - m1 * m1
  {
    assert 2.0 * m1 * (m1 * n) == n * (2.0 * (m1 * m1));
    assert m1 * m1 * n == n * (m1 * m1);
    Quotient(sum, n, m2 - m1 * m1);
  }

  lemma CollectCubic(m1: real, m2: real, m3: real, s1: real, s2: real, s3: real, n: real, sum: real)
    requires n != 0.0 && s1 == m1 * n && s2 == m2 * n && s3 == m3 * n && sum == Cubic(s1, s2, s3, n, m1)
    ensures sum / n == m3 - 3.0 * m1 * m2 + 2.0 * (m1 * m1 * m1)
  {
    assert 3.0 * m1 * (m2 * n) == n * (3.0 * m1 * m2);
    assert 3.0 * (m1 * m1) * (m1 * n) == n * (3.0 * (m1 * m1 * m1));
    assert m1 * m1 * m1 * n == n * (m1 * m1 * m1);
    Quotient(sum, n, m3 - 3.0 * m1 * m2 + 2.0 * (m1 * m1 * m1));
  }

  lemma CollectQuartic(m1: real, m2: real, m3: real, m4: real, s1: real, s2: real, s3: real, s4: real, n: real,
                       sum: real)
    requires n != 0.0 && s1 == m1 * n && s2 == m2 * n && s3 == m3 * n && s4 == m4 * n
    requires sum == Quartic(s1, s2, s3, s4, n, m1)
    ensures sum / n == m4 - 4.0 * m1 * m3 + 6.0 * (m1 * m1) * m2 - 3.0 * (m1 * m1 * m1 * m1)
  {
    assert 4.0 * m1 * (m3 * n) == n * (4.0 * m1 * m3);
    assert 6.0 * (m1 * m1) * (m2 * n) == n * (6.0 * (m1 * m1) * m2);
    assert 4.0 * (m1 * m1 * m1) * (m1 * n) == n * (4.0 * (m1 * m1 * m1 * m1));
    assert m1 * m1 * m1 * m1 * n == n * (m1 * m1 * m1 * m1);
    Quotient(sum, n, m4 - 4.0 * m1 * m3 + 6.0 * (m1 * m1) * m2 - 3.0 * (m1 * m1 * m1 * m1));
  }

  // ---- when deviations vanish ----

  ghost predicate Constant(xs: seq<real>) {
    forall i, j :: 0 <= i < |xs| && 0 <= j < |xs| ==> xs[i] == xs[j]
  }

  lemma {:induction false} SquaresVanish(xs: seq<real>, a: real)
    ensures CentralSum(xs, a, 2) >= 0.0
    ensures CentralSum(xs, a, 2) == 0.0 <==> forall i :: 0 <= i < |xs| ==> xs[i] == a
  {
    if xs != [] {
      var ys, d := xs[..|xs| - 1], xs[|xs| - 1] - a;
      SquaresVanish(ys, a);
      Powers(d);
      assert d * d >= 0.0 && (d * d == 0.0 <==> d == 0.0);
      assert forall i :: 0 <= i < |ys| ==> ys[i] == xs[i];
    }
  }

  lemma {:induction false} ConstantSum(xs: seq<real>, a: real, b: real, p: nat)
    requires forall i :: 0 <= i < |xs| ==> xs[i] == b
    ensures CentralSum(xs, a, p) == |xs| as real * Pow(b - a, p)
  {
    if xs != [] {
      ConstantSum(xs[..|xs| - 1], a, b, p);
    }
  }

  lemma ConstantIsCentred(xs: seq<real>, p: nat)
    requires xs != [] && Constant(xs) && p > 0
    ensures CentralMoment(xs, p) == 0.0
  {
    ConstantSum(xs, 0.0, xs[0], 1);
    assert Pow(xs[0] - 0.0, 1) == (xs[0] - 0.0) * Pow(xs[0] - 0.0, 0);
    Quotient(CentralSum(xs, 0.0, 1), |xs| as real, xs[0]);
    assert Mean(xs) == xs[0];
    ConstantSum(xs, xs[0], xs[0], p);
    assert Pow(0.0, p) == 0.0 * Pow(0.0, p - 1);
  }

  lemma QuotientsAgree(s: real, n: real)
    requires n >= 2.0
    ensures s / n == s / (n - 1.0) <==> s == 0.0
  {
    var q, r := s / n, s / (n - 1.0);
    assert q * n == s && r * (n - 1.0) == s;
    if q == r {
      assert q * n - q * (n - 1.0) == q;
    }
  }

  /** The second central moment is the unbiased variance exactly on equal samples, where both are zero. */
  lemma MomentIsUnbiased(xs: seq<real>)
    requires |xs| >= 2
    ensures CentralMoment(xs, 2) == UnbiasedVariance(xs) <==> Constant(xs)
  {
    var s, n := CentralSum(xs, Mean(xs), 2), |xs| as real;
    SquaresVanish(xs, Mean(xs));
    QuotientsAgree(s, n);
    assert (|xs| - 1) as real == n - 1.0;
    if Constant(xs) {
      ConstantIsCentred(xs, 2);
      assert CentralMoment(xs, 2) * n == s;
    }
  }

  lemma MomentIsNotUnbiased(xs: seq<real>)
    requires xs == [0.0, 2.0]
    ensures CentralMoment(xs, 2) != UnbiasedVariance(xs)
  {
    MomentIsUnbiased(xs);
    assert xs[0] != xs[1];
  }
}
