/** Sums of squared deviations and of products of deviations: how they grow with one more sample and how
    those of two sample lists combine. */
module Dispersion {
  import opened Samples
  import opened GeneralMoments

  /** An empty list has the mean that freshly allocated memory holds. */
  function MeanOrZero(xs: seq<real>): real {
    if xs == [] then 0.0 else Mean(xs)
  }

  /** Sum of products of deviations from the two means. */
  function Codeviations(xs: seq<real>, ys: seq<real>): real
    requires |xs| == |ys|
  {
    CoSum(xs, ys, MeanOrZero(xs), MeanOrZero(ys))
  }

  /** The one-pass mean. */
  function MeanStep(mean: real, x: real, n: nat): real
    requires n > 0
  {
    mean + (x - mean) / n as real
  }

  lemma SumIsMeanTimesCount(xs: seq<real>)
    ensures CentralSum(xs, 0.0, 1) == |xs| as real * MeanOrZero(xs)
  {
    if xs != [] {
      RawMomentTimes(xs, 1);
    }
  }

  lemma SumAppend(xs: seq<real>, x: real)
    ensures CentralSum(xs + [x], 0.0, 1) == CentralSum(xs, 0.0, 1) + x
  {
    assert (xs + [x])[..|xs|] == xs;
    Powers(x);
    assert x - 0.0 == x;
  }

  lemma MeanIsQuotient(xs: seq<real>, sum: real)
    requires xs != [] && CentralSum(xs, 0.0, 1) == sum
    ensures Mean(xs) == sum / |xs| as real
  {
  }

  lemma MeanStepIsMean(xs: seq<real>, x: real)
    ensures MeanStep(MeanOrZero(xs), x, |xs| + 1) == MeanOrZero(xs + [x])
  {
    SumIsMeanTimesCount(xs);
    SumAppend(xs, x);
    MeanIsQuotient(xs + [x], CentralSum(xs, 0.0, 1) + x);
    Recentred(MeanOrZero(xs), x, (|xs| + 1) as real);
  }

  lemma MergedMeanIsMean(xs: seq<real>, ys: seq<real>)
    requires xs + ys != []
    ensures UpdateMean(MeanOrZero(xs), MeanOrZero(ys), |ys|, |xs| + |ys|) == MeanOrZero(xs + ys)
  {
    UpdateMeanIsRawMoment(MeanOrZero(xs), MeanOrZero(ys), xs, ys, 1);
  }

  lemma CoSumAppend(xs: seq<real>, ys: seq<real>, x: real, y: real, a: real, b: real)
    requires |xs| == |ys|
    ensures CoSum(xs + [x], ys + [y], a, b) == CoSum(xs, ys, a, b) + (x - a) * (y - b)
  {
    assert (xs + [x])[..|xs|] == xs && (ys + [y])[..|ys|] == ys;
  }

  lemma CoSumEmpty(a: real, b: real)
    ensures CoSum([], [], a, b) == 0.0
  {
  }

  /** A sum of products of deviations, written with the plain sums. */
  function Expanded(p: real, sx: real, sy: real, n: real, a: real, b: real): real {
    p - b * sx - a * sy + n * (a * b)
  }

  lemma ExpandedStep(c: real, p: real, sx: real, sy: real, n: real, x: real, y: real, a: real, b: real)
    requires c == Expanded(p, sx, sy, n, a, b)
    ensures c + (x - a) * (y - b) == Expanded(p + (x - 0.0) * (y - 0.0), sx + x, sy + y, n + 1.0, a, b)
  {
    Distribute(b, sx, x);
    Distribute(a, sy, y);
    assert (n + 1.0) * (a * b) == n * (a * b) + a * b;
    assert (x - a) * (y - b) == x * y - b * x - a * y + a * b;
  }

  lemma {:induction false} CoExpand(xs: seq<real>, ys: seq<real>, a: real, b: real)
    requires |xs| == |ys|
    ensures CoSum(xs, ys, a, b)
         == Expanded(CoSum(xs, ys, 0.0, 0.0), CentralSum(xs, 0.0, 1), CentralSum(ys, 0.0, 1), |xs| as real, a, b)
  {
    if xs == [] {
      CoSumEmpty(a, b);
      CoSumEmpty(0.0, 0.0);
    } else {
      hide *;
      var n := |xs| - 1;
      var us, vs, x, y := xs[..n], ys[..n], xs[n], ys[n];
      assert us + [x] == xs && vs + [y] == ys;
      CoExpand(us, vs, a, b);
      CoSumAppend(us, vs, x, y, a, b);
      CoSumAppend(us, vs, x, y, 0.0, 0.0);
      SumAppend(us, x);
      SumAppend(vs, y);
      ExpandedStep(CoSum(us, vs, a, b), CoSum(us, vs, 0.0, 0.0), CentralSum(us, 0.0, 1), CentralSum(vs, 0.0, 1),
                   |us| as real, x, y, a, b);
      assert |xs| as real == |us| as real + 1.0;
    }
  }

  lemma CollectCentred(c: real, p: real, sx: real, sy: real, n: real, a: real, b: real)
    requires c == Expanded(p, sx, sy, n, a, b) && sx == n * a && sy == n * b
    ensures c == p - n * (a * b)
  {
    assert b * (n * a) == n * (a * b) && a * (n * b) == n * (a * b);
  }

  /** Products of deviations as products of samples. */
  lemma CentredProducts(xs: seq<real>, ys: seq<real>)
    requires |xs| == |ys|
    ensures Codeviations(xs, ys) == CoSum(xs, ys, 0.0, 0.0) - |xs| as real * (MeanOrZero(xs) * MeanOrZero(ys))
  {
    hide MeanOrZero;
    hide CoSum;
    hide CentralSum;
    hide Expanded;
    CoExpand(xs, ys, MeanOrZero(xs), MeanOrZero(ys));
    SumIsMeanTimesCount(xs);
    SumIsMeanTimesCount(ys);
    CollectCentred(Codeviations(xs, ys), CoSum(xs, ys, 0.0, 0.0), CentralSum(xs, 0.0, 1), CentralSum(ys, 0.0, 1),
                   |xs| as real, MeanOrZero(xs), MeanOrZero(ys));
  }

  /** The update with a new and an old mean: n m1 = (n - 1) o1 + x and n m2 = (n - 1) o2 + y. */
  lemma MixedProduct(n: real, o1: real, o2: real, m1: real, m2: real, x: real, y: real)
    requires n * m1 == (n - 1.0) * o1 + x && n * m2 == (n - 1.0) * o2 + y
    ensures x * y - n * (m1 * m2) + (n - 1.0) * (o1 * o2) == (x - m1) * (y - o2)
  {
    assert n * (m1 * m2) == m1 * ((n - 1.0) * o2 + y) == (n - 1.0) * (m1 * o2) + m1 * y;
    assert n * (m1 * o2) == o2 * ((n - 1.0) * o1 + x) == (n - 1.0) * (o1 * o2) + x * o2;
    assert (x - m1) * (y - o2) == x * y - x * o2 - m1 * y + m1 * o2;
  }

  /** The two forms of the update agree: n (y - m2) = (n - 1) (y - o2). */
  lemma TwoNewMeans(n: real, o2: real, m2: real, y: real)
    requires n > 1.0 && n * m2 == (n - 1.0) * o2 + y
    ensures (y - m2) * (n / (n - 1.0)) == y - o2
  {
    assert n * (y - m2) == (n - 1.0) * (y - o2);
    assert (y - m2) * (n / (n - 1.0)) == (n * (y - m2)) / (n - 1.0) == ((n - 1.0) * (y - o2)) / (n - 1.0);
    Cancel(n - 1.0, y - o2);
  }

  lemma Cancel(d: real, x: real)
    requires d != 0.0
    ensures (d * x) / d == x
  {
  }

  lemma SameQuotient(a: real, b: real, d: real)
    requires a == b && d != 0.0
    ensures a / d == b / d
  {
  }

  lemma StepAlgebra(c: real, d: real, p: real, q: real, k: real, n: real, o1: real, o2: real, m1: real, m2: real,
                    x: real, y: real)
    requires n == k + 1.0 && n * m1 == k * o1 + x && n * m2 == k * o2 + y
    requires c == p - k * (o1 * o2) && d == q - n * (m1 * m2) && q == p + (x - 0.0) * (y - 0.0)
    ensures d == c + (x - m1) * (y - o2)
  {
    assert k == n - 1.0;
    assert (x - 0.0) * (y - 0.0) == x * y;
    MixedProduct(n, o1, o2, m1, m2, x, y);
  }

  /** One more pair of samples adds (x - new mean of xs) * (y - old mean of ys). */
  lemma CodeviationsStep(xs: seq<real>, ys: seq<real>, x: real, y: real)
    requires |xs| == |ys|
    ensures Codeviations(xs + [x], ys + [y])
         == Codeviations(xs, ys) + (x - MeanOrZero(xs + [x])) * (y - MeanOrZero(ys))
  {
    hide *;
    CentredProducts(xs, ys);
    CentredProducts(xs + [x], ys + [y]);
    CoSumAppend(xs, ys, x, y, 0.0, 0.0);
    NewMean(xs, x);
    NewMean(ys, y);
    StepAlgebra(Codeviations(xs, ys), Codeviations(xs + [x], ys + [y]),
                CoSum(xs, ys, 0.0, 0.0), CoSum(xs + [x], ys + [y], 0.0, 0.0), |xs| as real, |xs + [x]| as real,
                MeanOrZero(xs), MeanOrZero(ys), MeanOrZero(xs + [x]), MeanOrZero(ys + [y]), x, y);
  }

  lemma NewMean(xs: seq<real>, x: real)
    ensures |xs + [x]| as real * MeanOrZero(xs + [x]) == |xs| as real * MeanOrZero(xs) + x
  {
    SumIsMeanTimesCount(xs);
    SumIsMeanTimesCount(xs + [x]);
    SumAppend(xs, x);
  }

  /** What the new mean leaves of the last deviation, scaled by n / (n - 1), is the deviation from the old mean. */
  lemma OldDeviation(ys: seq<real>, y: real)
    requires ys != []
    ensures (y - MeanOrZero(ys + [y])) * (|ys + [y]| as real / (|ys + [y]| as real - 1.0)) == y - MeanOrZero(ys)
  {
    NewMean(ys, y);
    var n := |ys + [y]| as real;
    assert |ys| as real == n - 1.0;
    hide *;
    TwoNewMeans(n, MeanOrZero(ys), MeanOrZero(ys + [y]), y);
  }

  lemma {:induction false} CoSumSymmetric(xs: seq<real>, ys: seq<real>, a: real, b: real)
    requires |xs| == |ys|
    ensures CoSum(xs, ys, a, b) == CoSum(ys, xs, b, a)
  {
    if xs != [] {
      CoSumSymmetric(xs[..|xs| - 1], ys[..|ys| - 1], a, b);
    }
  }

  lemma {:induction false} CoSumOfSame(xs: seq<real>, a: real)
    ensures CoSum(xs, xs, a, a) == CentralSum(xs, a, 2)
  {
    if xs != [] {
      CoSumOfSame(xs[..|xs| - 1], a);
      Powers(xs[|xs| - 1] - a);
    }
  }

  lemma {:induction false} CoSumConcat(xs: seq<real>, ys: seq<real>, us: seq<real>, vs: seq<real>, a: real, b: real)
    requires |xs| == |ys| && |us| == |vs|
    ensures CoSum(xs + us, ys + vs, a, b) == CoSum(xs, ys, a, b) + CoSum(us, vs, a, b)
  {
    hide CoSum;
    if us == [] {
      assert xs + us == xs && ys + vs == ys;
      assert us == vs == [];
      CoSumEmpty(a, b);
    } else {
      var n := |us| - 1;
      assert us[..n] + [us[n]] == us && vs[..n] + [vs[n]] == vs;
      assert xs + us[..n] + [us[n]] == xs + us && ys + vs[..n] + [vs[n]] == ys + vs;
      CoSumConcat(xs, ys, us[..n], vs[..n], a, b);
      CoSumAppend(xs + us[..n], ys + vs[..n], us[n], vs[n], a, b);
      CoSumAppend(us[..n], vs[..n], us[n], vs[n], a, b);
    }
  }

  /** Cross term of a merge: sample counts and mean differences. */
  function CrossOf(k: real, l: real, d1: real, d2: real): real
    requires k + l > 0.0
  {
    k * l * (d1 * d2) / (k + l)
  }

  /** The cross term of a merge: n m = k a1 + l a2 and n w = k b1 + l b2 with n = k + l. */
  lemma CrossTerm(k: real, l: real, a1: real, a2: real, b1: real, b2: real, m: real, w: real)
    requires k + l > 0.0 && (k + l) * m == k * a1 + l * a2 && (k + l) * w == k * b1 + l * b2
    ensures k * (a1 * b1) + l * (a2 * b2) - (k + l) * (m * w) == CrossOf(k, l, a2 - a1, b2 - b1)
  {
    var n := k + l;
    var t := k * (a1 * b1) + l * (a2 * b2) - n * (m * w);
    assert n * (n * (m * w)) == (n * m) * (n * w);
    CrossProduct(k, l, a1, a2, b1, b2);
    assert n * t == n * (k * (a1 * b1)) + n * (l * (a2 * b2)) - n * (n * (m * w));
    Cancel(n, t);
  }

  lemma CrossProduct(k: real, l: real, a1: real, a2: real, b1: real, b2: real)
    ensures (k + l) * (k * (a1 * b1)) + (k + l) * (l * (a2 * b2)) - (k * a1 + l * a2) * (k * b1 + l * b2)
         == k * l * ((a2 - a1) * (b2 - b1))
  {
    var p, q, r, s := a1 * b1, a2 * b2, a1 * b2, a2 * b1;
    assert (k * a1 + l * a2) * (k * b1 + l * b2) == k * k * p + k * l * r + k * l * s + l * l * q;
    assert (k + l) * (k * p) == k * k * p + k * l * p;
    assert (k + l) * (l * q) == k * l * q + l * l * q;
    assert (a2 - a1) * (b2 - b1) == q - s - r + p;
    assert k * l * (q - s - r + p) == k * l * q - k * l * s - k * l * r + k * l * p;
  }

  lemma MergeAlgebra(c: real, c1: real, c2: real, p: real, p1: real, p2: real, n: real, k: real, l: real,
                     a1: real, a2: real, b1: real, b2: real, m: real, w: real)
    requires n == k + l && k + l > 0.0 && n * m == k * a1 + l * a2 && n * w == k * b1 + l * b2
    requires c1 == p1 - k * (a1 * b1) && c2 == p2 - l * (a2 * b2) && c == p - n * (m * w) && p == p1 + p2
    ensures c == c1 + c2 + CrossOf(k, l, a2 - a1, b2 - b1)
  {
    CrossTerm(k, l, a1, a2, b1, b2, m, w);
  }

  /** Merging two paired lists: the cross term is n1 n2 / (n1 + n2) times the products of mean differences. */
  lemma CodeviationsMerge(xs: seq<real>, ys: seq<real>, us: seq<real>, vs: seq<real>)
    requires |xs| == |ys| && |us| == |vs| && xs + us != []
    ensures Codeviations(xs + us, ys + vs)
         == Codeviations(xs, ys) + Codeviations(us, vs)
            + CrossOf(|xs| as real, |us| as real, MeanOrZero(us) - MeanOrZero(xs), MeanOrZero(vs) - MeanOrZero(ys))
  {
    hide *;
    CentredProducts(xs, ys);
    CentredProducts(us, vs);
    CentredProducts(xs + us, ys + vs);
    CoSumConcat(xs, ys, us, vs, 0.0, 0.0);
    MergedSums(xs, us);
    MergedSums(ys, vs);
    MergeAlgebra(Codeviations(xs + us, ys + vs), Codeviations(xs, ys), Codeviations(us, vs),
                 CoSum(xs + us, ys + vs, 0.0, 0.0), CoSum(xs, ys, 0.0, 0.0), CoSum(us, vs, 0.0, 0.0),
                 |xs + us| as real, |xs| as real, |us| as real, MeanOrZero(xs), MeanOrZero(us),
                 MeanOrZero(ys), MeanOrZero(vs), MeanOrZero(xs + us), MeanOrZero(ys + vs));
  }

  lemma MergedSums(xs: seq<real>, us: seq<real>)
    ensures |xs + us| as real * MeanOrZero(xs + us) == |xs| as real * MeanOrZero(xs) + |us| as real * MeanOrZero(us)
  {
    SumIsMeanTimesCount(xs);
    SumIsMeanTimesCount(us);
    SumIsMeanTimesCount(xs + us);
    CentralSumConcat(xs, us, 0.0, 1);
  }
}
