/** Online covariance, its pairwise merge, and the covariance of the Sobol indices
    (server/stats/covariance.c, server/stats/sobol.c). */
module Covariance {
  import opened Samples
  import opened GeneralMoments
  import opened Dispersion
  import opened Variance

  /** One mesh point of a covariance_t. */
  datatype Joint = Joint(increment: nat, mean1: real, mean2: real, covariance: real)

  /** The update mixes the new mean of the first input with the old mean of the second. */
  function CovarianceStep(covariance: real, newMean1: real, oldMean2: real, x: real, y: real, n: nat): real
    requires n > 1
  {
    (covariance * (n as real - 2.0) + (x - newMean1) * (y - oldMean2)) / (n as real - 1.0)
  }

  function IncrementJoint(c: Joint, x: real, y: real): Joint {
    var n, mean1 := c.increment + 1, MeanStep(c.mean1, x, c.increment + 1);
    Joint(n, mean1, MeanStep(c.mean2, y, n),
          if n > 1 then CovarianceStep(c.covariance, mean1, c.mean2, x, y, n) else c.covariance)
  }

  function FoldJoint(xs: seq<real>, ys: seq<real>): Joint
    requires |xs| == |ys|
  {
    if xs == [] then Joint(0, 0.0, 0.0, 0.0)
    else IncrementJoint(FoldJoint(xs[..|xs| - 1], ys[..|ys| - 1]), xs[|xs| - 1], ys[|ys| - 1])
  }

  /** A product of deviations with weight k / (k - 1). */
  function Weighted(a: real, b: real, k: real): real
    requires k != 1.0
  {
    a * b * (k / (k - 1.0))
  }

  /** increment_sobol_covariance: both means are the new ones; increment is what the caller passes. */
  function SobolStep(covariance: real, mean1: real, mean2: real, x: real, y: real, increment: nat): real {
    if increment > 1 then
      var incr := increment as real;
      (covariance * (incr - 2.0) + Weighted(x - mean1, y - mean2, incr)) / (incr - 1.0)
    else covariance
  }

  /** update_covariance; the weight of the cross term is an integer quotient. */
  function UpdateJoint(a: Joint, b: Joint): Joint
    requires a.increment + b.increment > 1
  {
    var n := a.increment + b.increment;
    Joint(n, UpdateMean(a.mean1, b.mean1, b.increment, n), UpdateMean(a.mean2, b.mean2, b.increment, n),
          MergedCovarianceField(Scaled(a.increment, a.covariance) + Scaled(b.increment, b.covariance),
                                IntegerWeight(a.increment, b.increment), b.mean1 - a.mean1, b.mean2 - a.mean2, n))
  }

  function IntegerWeight(k: nat, l: nat): nat
    requires k + l > 0
  {
    k * l / (k + l)
  }

  function Scaled(n: nat, covariance: real): real {
    (n as real - 1.0) * covariance
  }

  function MergedCovarianceField(scaled: real, q: nat, d1: real, d2: real, n: nat): real
    requires n > 1
  {
    (scaled + q as real * (d1 * d2)) / (n as real - 1.0)
  }

  // ---- two-pass reference ----

  ghost function UnbiasedJoint(xs: seq<real>, ys: seq<real>): (c: Joint)
    requires |xs| == |ys|
    ensures c.increment == |xs|
  {
    Joint(|xs|, MeanOrZero(xs), MeanOrZero(ys), if |xs| >= 2 then UnbiasedCovariance(xs, ys) else 0.0)
  }

  lemma ScaledCovariance(xs: seq<real>, ys: seq<real>)
    requires |xs| == |ys|
    ensures Scaled(|xs|, UnbiasedJoint(xs, ys).covariance) == Codeviations(xs, ys)
    ensures |xs| >= 2 ==> UnbiasedJoint(xs, ys).covariance == Codeviations(xs, ys) / (|xs| - 1) as real
  {
    if |xs| == 1 {
      OnePair(xs[0], ys[0]);
      assert xs == [xs[0]] && ys == [ys[0]];
    } else if |xs| == 0 {
      CoSumEmpty(0.0, 0.0);
    }
  }

  lemma OnePair(x: real, y: real)
    ensures Codeviations([x], [y]) == 0.0
  {
    CodeviationsStep([], [], x, y);
    MeanStepIsMean([], x);
    CoSumEmpty(0.0, 0.0);
    assert [] + [x] == [x] && [] + [y] == [y];
  }

  lemma StepForm(c: real, m: real, o: real, x: real, y: real, k: nat, s: real, t: real)
    requires k > 0 && Scaled(k, c) == s && t == s + (x - m) * (y - o)
    ensures CovarianceStep(c, m, o, x, y, k + 1) == t / k as real
  {
    var n := (k + 1) as real;
    assert n == k as real + 1.0;
    assert c * (n - 2.0) == s;
  }

  lemma CovarianceStepIsUnbiased(us: seq<real>, vs: seq<real>, x: real, y: real)
    requires |us| == |vs| > 0
    ensures CovarianceStep(UnbiasedJoint(us, vs).covariance, MeanOrZero(us + [x]), MeanOrZero(vs), x, y, |us| + 1)
         == UnbiasedJoint(us + [x], vs + [y]).covariance
  {
    hide *;
    assert |us + [x]| - 1 == |us|;
    ScaledCovariance(us, vs);
    ScaledCovariance(us + [x], vs + [y]);
    CodeviationsStep(us, vs, x, y);
    StepForm(UnbiasedJoint(us, vs).covariance, MeanOrZero(us + [x]), MeanOrZero(vs), x, y, |us|, Codeviations(us, vs),
             Codeviations(us + [x], vs + [y]));
  }

  /** Main result: the one-pass covariance is the two-pass unbiased one, although it mixes a new and an old mean. */
  lemma {:induction false} FoldJointIsUnbiased(xs: seq<real>, ys: seq<real>)
    requires |xs| == |ys|
    ensures FoldJoint(xs, ys) == UnbiasedJoint(xs, ys)
  {
    if xs != [] {
      var n := |xs| - 1;
      var us, vs, x, y := xs[..n], ys[..n], xs[n], ys[n];
      assert xs == us + [x] && ys == vs + [y];
      FoldJointIsUnbiased(us, vs);
      MeanStepIsMean(us, x);
      MeanStepIsMean(vs, y);
      if n > 0 {
        CovarianceStepIsUnbiased(us, vs, x, y);
      }
    }
  }

  /** Swapping the inputs, which swaps the roles of new and old mean, gives the same covariance. */
  lemma CovarianceIsSymmetric(xs: seq<real>, ys: seq<real>)
    requires |xs| == |ys|
    ensures FoldJoint(xs, ys).covariance == FoldJoint(ys, xs).covariance
  {
    FoldJointIsUnbiased(xs, ys);
    FoldJointIsUnbiased(ys, xs);
    if xs != [] {
      CoSumSymmetric(xs, ys, Mean(xs), Mean(ys));
    }
  }

  /** On (x, x) it is the variance. */
  lemma CovarianceWithItself(xs: seq<real>)
    ensures FoldJoint(xs, xs).covariance == FoldSpread(xs).variance
  {
    FoldJointIsUnbiased(xs, xs);
    FoldIsUnbiased(xs);
    if xs != [] {
      CoSumOfSame(xs, Mean(xs));
    }
  }

  lemma SobolForm(c: real, m1: real, m2: real, o2: real, x: real, y: real, n: nat)
    requires n > 1 && (y - m2) * (n as real / (n as real - 1.0)) == y - o2
    ensures SobolStep(c, m1, m2, x, y, n) == CovarianceStep(c, m1, o2, x, y, n)
  {
    var r := n as real / (n as real - 1.0);
    assert (x - m1) * (y - m2) * r == (x - m1) * ((y - m2) * r);
  }

  lemma FoldStep(xs: seq<real>, ys: seq<real>, x: real, y: real)
    requires |xs| == |ys| > 0
    ensures FoldJoint(xs + [x], ys + [y]).covariance
         == CovarianceStep(FoldJoint(xs, ys).covariance, MeanOrZero(xs + [x]), MeanOrZero(ys), x, y, |xs| + 1)
  {
    FoldJointIsUnbiased(xs, ys);
    FoldJointIsUnbiased(xs + [x], ys + [y]);
    CovarianceStepIsUnbiased(xs, ys, x, y);
  }

  /** Called with the true sample count, increment_sobol_covariance does what increment_covariance does. */
  lemma SobolStepAgrees(xs: seq<real>, ys: seq<real>, x: real, y: real)
    requires |xs| == |ys| > 0
    ensures SobolStep(FoldJoint(xs, ys).covariance, MeanOrZero(xs + [x]), MeanOrZero(ys + [y]), x, y, |xs| + 1)
         == FoldJoint(xs + [x], ys + [y]).covariance
  {
    hide *;
    FoldStep(xs, ys, x, y);
    OldDeviation(ys, y);
    assert |ys + [y]| == |xs| + 1;
    SobolForm(FoldJoint(xs, ys).covariance, MeanOrZero(xs + [x]), MeanOrZero(ys + [y]), MeanOrZero(ys), x, y, |xs| + 1);
  }

  // ---- the Martinez covariances, with the count that is passed ----

  /** The covariance field of increment_sobol_martinez: iteration is advanced only at the end of the call,
      so sample n is added with increment n - 1. */
  function MartinezField(xs: seq<real>, ys: seq<real>): real
    requires |xs| == |ys|
  {
    if xs == [] then 0.0
    else
      var n := |xs| - 1;
      SobolStep(MartinezField(xs[..n], ys[..n]), MeanOrZero(xs), MeanOrZero(ys), xs[n], ys[n], n)
  }

  /** Products of deviations from the running means, from sample first on, with weight (k - shift) / (k - shift - 1)
      for the k-th sample. */
  ghost function RunningProducts(xs: seq<real>, ys: seq<real>, shift: nat): real
    requires |xs| == |ys|
  {
    if |xs| < 2 + shift then 0.0
    else
      var n := |xs| - 1;
      var k := (|xs| - shift) as real;
      RunningProducts(xs[..n], ys[..n], shift) + Weighted(xs[n] - MeanOrZero(xs), ys[n] - MeanOrZero(ys), k)
  }

  lemma RunningStep(us: seq<real>, vs: seq<real>, x: real, y: real, shift: nat)
    requires |us| == |vs| > shift
    ensures var k := (|us| + 1 - shift) as real;
            (RunningProducts(us + [x], vs + [y], shift)
             == RunningProducts(us, vs, shift) + Weighted(x - MeanOrZero(us + [x]), y - MeanOrZero(vs + [y]), k))
  {
    hide Weighted;
    hide MeanOrZero;
    assert (us + [x])[..|us|] == us && (vs + [y])[..|us|] == vs;
  }

  lemma RunningMatches(us: seq<real>, vs: seq<real>, x: real, y: real)
    requires |us| == |vs| > 0 && Codeviations(us, vs) == RunningProducts(us, vs, 0)
    ensures Codeviations(us + [x], vs + [y]) == RunningProducts(us + [x], vs + [y], 0)
  {
    hide *;
    CodeviationsStep(us, vs, x, y);
    RunningStep(us, vs, x, y, 0);
    OldDeviation(vs, y);
    assert |vs + [y]| == |us| + 1 - 0;
    Regroup(x - MeanOrZero(us + [x]), y - MeanOrZero(vs + [y]), (|us| + 1 - 0) as real, y - MeanOrZero(vs),
            Codeviations(us, vs), Codeviations(us + [x], vs + [y]), RunningProducts(us + [x], vs + [y], 0));
  }

  /** The true sum of products of deviations is the running one without a shift. */
  lemma {:induction false} CodeviationsAsRunning(xs: seq<real>, ys: seq<real>)
    requires |xs| == |ys|
    ensures Codeviations(xs, ys) == RunningProducts(xs, ys, 0)
  {
    if |xs| < 2 {
      ScaledCovariance(xs, ys);
    } else {
      hide *;
      var n := |xs| - 1;
      CodeviationsAsRunning(xs[..n], ys[..n]);
      RunningMatches(xs[..n], ys[..n], xs[n], ys[n]);
      assert xs[..n] + [xs[n]] == xs && ys[..n] + [ys[n]] == ys;
    }
  }

  lemma Regroup(a: real, b: real, k: real, c: real, s: real, t: real, r: real)
    requires k != 1.0 && b * (k / (k - 1.0)) == c && t == s + a * c && r == s + Weighted(a, b, k)
    ensures t == r
  {
    assert a * b * (k / (k - 1.0)) == a * (b * (k / (k - 1.0)));
  }

  lemma MartinezStep(us: seq<real>, vs: seq<real>, x: real, y: real)
    requires |us| == |vs|
    ensures MartinezField(us + [x], vs + [y])
         == SobolStep(MartinezField(us, vs), MeanOrZero(us + [x]), MeanOrZero(vs + [y]), x, y, |us|)
  {
    hide SobolStep;
    hide MeanOrZero;
    assert (us + [x])[..|us|] == us && (vs + [y])[..|us|] == vs;
  }

  /** The sum a field with divisor n - 2 stands for. */
  ghost function FieldSum(n: nat, c: real): real {
    c * (n as real - 2.0)
  }

  lemma FieldSumOfQuotient(n: nat, c: real, p: real)
    requires n >= 2 && (if n == 2 then c == 0.0 && p == 0.0 else c == p / (n as real - 2.0))
    ensures FieldSum(n, c) == p
  {
    if n > 2 {
      Uncancel(p, n as real - 2.0);
    }
  }

  lemma ShiftedForm(c: real, m1: real, m2: real, x: real, y: real, n: nat, p: real, q: real)
    requires n >= 2 && FieldSum(n, c) == p
    requires q == p + Weighted(x - m1, y - m2, n as real)
    ensures SobolStep(c, m1, m2, x, y, n) == q / (n as real - 1.0)
  {
  }

  lemma ShiftedStep(us: seq<real>, vs: seq<real>, x: real, y: real)
    requires |us| == |vs| >= 2 && FieldSum(|us|, MartinezField(us, vs)) == RunningProducts(us, vs, 1)
    ensures MartinezField(us + [x], vs + [y]) == RunningProducts(us + [x], vs + [y], 1) / (|us| as real - 1.0)
  {
    hide *;
    MartinezStep(us, vs, x, y);
    RunningStep(us, vs, x, y, 1);
    assert |us| + 1 - 1 == |us|;
    ShiftedForm(MartinezField(us, vs), MeanOrZero(us + [x]), MeanOrZero(vs + [y]), x, y, |us|,
                RunningProducts(us, vs, 1), RunningProducts(us + [x], vs + [y], 1));
  }

  /** What the Martinez field holds after n samples: the second sample is dropped, every later one is weighted
      as if it were one place earlier, and the divisor is n - 2. */
  lemma {:induction false} MartinezIsShifted(xs: seq<real>, ys: seq<real>)
    requires |xs| == |ys|
    ensures |xs| < 3 ==> MartinezField(xs, ys) == 0.0
    ensures |xs| >= 3 ==> MartinezField(xs, ys) == RunningProducts(xs, ys, 1) / (|xs| as real - 2.0)
  {
    if |xs| >= 3 {
      hide *;
      var n := |xs| - 1;
      var us, vs := xs[..n], ys[..n];
      assert xs == us + [xs[n]] && ys == vs + [ys[n]];
      MartinezIsShifted(us, vs);
      if n == 2 {
        NoProducts(us, vs);
      }
      FieldSumOfQuotient(n, MartinezField(us, vs), RunningProducts(us, vs, 1));
      ShiftedStep(us, vs, xs[n], ys[n]);
      assert n as real - 1.0 == |xs| as real - 2.0;
    } else if |xs| > 0 {
      MartinezIsShifted(xs[..|xs| - 1], ys[..|xs| - 1]);
    }
  }

  lemma NoProducts(xs: seq<real>, ys: seq<real>)
    requires |xs| == |ys| == 2
    ensures RunningProducts(xs, ys, 1) == 0.0
  {
  }

  /** Two samples are enough to see it: the field is the unbiased covariance only if that is zero. */
  lemma MartinezOnTwoSamples(xs: seq<real>, ys: seq<real>)
    requires |xs| == |ys| == 2
    ensures MartinezField(xs, ys) == UnbiasedCovariance(xs, ys) <==> xs[0] == xs[1] || ys[0] == ys[1]
  {
    MartinezIsShifted(xs, ys);
    var us, vs := xs[..1], ys[..1];
    assert xs == us + [xs[1]] && ys == vs + [ys[1]] && us == [xs[0]] && vs == [ys[0]];
    CodeviationsStep(us, vs, xs[1], ys[1]);
    ScaledCovariance(us, vs);
    ScaledCovariance(xs, ys);
    SingleMean(xs[0]);
    SingleMean(ys[0]);
    NewMean(us, xs[1]);
    var m := MeanOrZero(xs);
    assert UnbiasedJoint(xs, ys).covariance == (xs[1] - m) * (ys[1] - ys[0]);
    ProductVanishes(xs[1] - m, ys[1] - ys[0], (xs[1] - m) * (ys[1] - ys[0]));
  }

  /** The product of sample i's deviations from the means of the samples up to it. */
  ghost function ProductAt(xs: seq<real>, ys: seq<real>, i: nat): real
    requires i < |xs| == |ys|
  {
    (xs[i] - MeanOrZero(xs[..i + 1])) * (ys[i] - MeanOrZero(ys[..i + 1]))
  }

  /** How much less the k-th of n samples weighs in the covariance than in the Martinez field, both multiplied by
      (n - 1)(n - 2). */
  function ExcessWeight(n: nat, k: nat): real
    requires k >= 3
  {
    (k as real * (k as real - 2.0) + n as real - 1.0) / ((k as real - 1.0) * (k as real - 2.0))
  }

  function Excess(n: nat, k: nat, product: real): real
    requires k >= 3
  {
    ExcessWeight(n, k) * product
  }

  /** The excess of samples 3 to m, out of n. */
  ghost function LaterExcess(xs: seq<real>, ys: seq<real>, n: nat, m: nat): real
    requires m <= |xs| == |ys|
  {
    if m < 3 then 0.0 else LaterExcess(xs, ys, n, m - 1) + Excess(n, m, ProductAt(xs, ys, m - 1))
  }

  lemma WeightsDiffer(n: nat, k: nat)
    requires k >= 3
    ensures var i, l := n as real, k as real;
            (i - 2.0) * (l / (l - 1.0)) - (i - 1.0) * ((l - 1.0) / (l - 2.0)) == -ExcessWeight(n, k)
  {
    var i, l := n as real, k as real;
    var u, v, w := l / (l - 1.0), (l - 1.0) / (l - 2.0), ExcessWeight(n, k);
    var d := (l - 1.0) * (l - 2.0);
    Uncancel(l, l - 1.0);
    Uncancel(l - 1.0, l - 2.0);
    NotZero(l - 1.0, l - 2.0);
    Uncancel(l * (l - 2.0) + i - 1.0, d);
    hide ExcessWeight;
    assert d * u == (l - 2.0) * l;
    assert d * v == (l - 1.0) * (l - 1.0);
    assert d * ((i - 2.0) * u) == (i - 2.0) * (d * u);
    assert d * ((i - 1.0) * v) == (i - 1.0) * (d * v);
    assert (i - 2.0) * ((l - 2.0) * l) - (i - 1.0) * ((l - 1.0) * (l - 1.0)) == -(l * (l - 2.0) + i - 1.0);
    Cancel(d, (i - 2.0) * u - (i - 1.0) * v);
    Cancel(d, -w);
  }

  lemma NotZero(a: real, b: real)
    requires a > 0.0 && b > 0.0
    ensures a * b > 0.0
  {
  }

  /** Two sums, weighted with each other's divisor. */
  function Balance(n: real, r0: real, r1: real): real {
    (n - 2.0) * r0 - (n - 1.0) * r1
  }

  /** A product with weight k / l. */
  function Part(p: real, k: real, l: real): real
    requires l != 0.0
  {
    p * (k / l)
  }

  lemma OneMoreProduct(n: nat, m: nat, r0: real, r1: real, s0: real, s1: real, p: real, l: real)
    requires m >= 3 && l == m as real
    requires s0 == r0 + Part(p, l, l - 1.0) && s1 == r1 + Part(p, l - 1.0, l - 2.0)
    ensures Balance(n as real, s0, s1) == Balance(n as real, r0, r1) - Excess(n, m, p)
  {
    WeightsDiffer(n, m);
    hide ExcessWeight;
    var i, u, v := n as real, l / (l - 1.0), (l - 1.0) / (l - 2.0);
    assert p * ((i - 2.0) * u - (i - 1.0) * v) == (i - 2.0) * (p * u) - (i - 1.0) * (p * v);
  }

  lemma RunningAt(xs: seq<real>, ys: seq<real>, m: nat, shift: nat, k: real, l: real)
    requires shift + 2 <= m <= |xs| == |ys| && k == (m - shift) as real && l == k - 1.0
    ensures l != 0.0
    ensures RunningProducts(xs[..m], ys[..m], shift)
         == RunningProducts(xs[..m - 1], ys[..m - 1], shift) + Part(ProductAt(xs, ys, m - 1), k, l)
  {
    hide MeanOrZero;
    assert xs[..m][..m - 1] == xs[..m - 1] && ys[..m][..m - 1] == ys[..m - 1];
  }

  lemma LaterExcessStep(xs: seq<real>, ys: seq<real>, n: nat, m: nat)
    requires 3 <= m <= |xs| == |ys|
    ensures LaterExcess(xs, ys, n, m) == LaterExcess(xs, ys, n, m - 1) + Excess(n, m, ProductAt(xs, ys, m - 1))
    ensures LaterExcess(xs, ys, n, 2) == 0.0
  {
  }

  lemma TwoSamples(xs: seq<real>, ys: seq<real>)
    requires |xs| == |ys| >= 2
    ensures RunningProducts(xs[..2], ys[..2], 0) == 2.0 * ProductAt(xs, ys, 1)
    ensures RunningProducts(xs[..2], ys[..2], 1) == 0.0
  {
    RunningAt(xs, ys, 2, 0, 2.0, 1.0);
    hide ProductAt;
    assert Part(ProductAt(xs, ys, 1), 2.0, 1.0) == 2.0 * ProductAt(xs, ys, 1);
  }

  lemma SumsStep(xs: seq<real>, ys: seq<real>, n: nat, m: nat)
    requires 3 <= m <= |xs| == |ys|
    ensures Balance(n as real, RunningProducts(xs[..m], ys[..m], 0), RunningProducts(xs[..m], ys[..m], 1))
         == Balance(n as real, RunningProducts(xs[..m - 1], ys[..m - 1], 0),
                    RunningProducts(xs[..m - 1], ys[..m - 1], 1))
            - Excess(n, m, ProductAt(xs, ys, m - 1))
  {
    hide *;
    var l := m as real;
    RunningAt(xs, ys, m, 0, l, l - 1.0);
    RunningAt(xs, ys, m, 1, l - 1.0, l - 2.0);
    OneMoreProduct(n, m, RunningProducts(xs[..m - 1], ys[..m - 1], 0),
                   RunningProducts(xs[..m - 1], ys[..m - 1], 1), RunningProducts(xs[..m], ys[..m], 0),
                   RunningProducts(xs[..m], ys[..m], 1), ProductAt(xs, ys, m - 1), l);
  }

  lemma {:induction false} SumsDiffer(xs: seq<real>, ys: seq<real>, n: nat, m: nat)
    requires 2 <= m <= |xs| == |ys|
    ensures Balance(n as real, RunningProducts(xs[..m], ys[..m], 0), RunningProducts(xs[..m], ys[..m], 1))
         == Balance(n as real, 2.0 * ProductAt(xs, ys, 1), 0.0) - LaterExcess(xs, ys, n, m)
  {
    if m == 2 {
      TwoSamples(xs, ys);
    } else {
      hide *;
      SumsDiffer(xs, ys, n, m - 1);
      SumsStep(xs, ys, n, m);
      LaterExcessStep(xs, ys, n, m);
    }
  }

  lemma QuotientsEqual(a: real, b: real, c: real, d: real)
    requires c > 0.0 && d > 0.0
    ensures a / c == b / d <==> d * a == c * b
  {
    var q, r := a / c, b / d;
    Uncancel(a, c);
    Uncancel(b, d);
    assert d * a == d * (c * q) == (c * d) * q;
    assert c * b == c * (d * r) == (c * d) * r;
    NotZero(c, d);
    Cancel(c * d, q);
    Cancel(c * d, r);
  }

  /** Main result: from three samples on, the Martinez field is the unbiased covariance if and only if the second
      sample's product, with weight 2 (n - 2), outweighs exactly the excess of the later ones, all of which have a
      positive weight. */
  lemma MartinezExact(xs: seq<real>, ys: seq<real>)
    requires |xs| == |ys| >= 3
    ensures MartinezField(xs, ys) == UnbiasedCovariance(xs, ys)
       <==> (|xs| as real - 2.0) * (2.0 * ProductAt(xs, ys, 1)) == LaterExcess(xs, ys, |xs|, |xs|)
  {
    hide *;
    var n := |xs|;
    MartinezIsShifted(xs, ys);
    CodeviationsAsRunning(xs, ys);
    CovarianceIsQuotient(xs, ys);
    SumsDiffer(xs, ys, n, n);
    assert xs[..n] == xs && ys[..n] == ys && (n - 1) as real == n as real - 1.0;
    QuotientsEqual(RunningProducts(xs, ys, 1), RunningProducts(xs, ys, 0), n as real - 2.0, n as real - 1.0);
    BalanceZero(n as real, RunningProducts(xs, ys, 0), RunningProducts(xs, ys, 1), 2.0 * ProductAt(xs, ys, 1),
                LaterExcess(xs, ys, n, n));
  }

  lemma BalanceZero(n: real, r0: real, r1: real, p: real, e: real)
    requires Balance(n, r0, r1) == Balance(n, p, 0.0) - e
    ensures (n - 1.0) * r1 == (n - 2.0) * r0 <==> (n - 2.0) * p == e
  {
  }

  lemma CovarianceIsQuotient(xs: seq<real>, ys: seq<real>)
    requires |xs| == |ys| >= 2
    ensures UnbiasedCovariance(xs, ys) == Codeviations(xs, ys) / (|xs| - 1) as real
  {
  }

  /** The later samples weigh too much, all of them. */
  lemma ExcessIsPositive(n: nat, k: nat)
    requires 3 <= k <= n
    ensures ExcessWeight(n, k) > 0.0
  {
    var l := k as real;
    NotZero(l - 1.0, l - 2.0);
    NotZero(l, l - 2.0);
    PositiveQuotient(l * (l - 2.0) + n as real - 1.0, (l - 1.0) * (l - 2.0));
  }

  lemma PositiveQuotient(a: real, b: real)
    requires a > 0.0 && b > 0.0
    ensures a / b > 0.0
  {
  }

  /** Three groups on which the field is wrong: the third lies on the mean of the first two. */
  lemma MartinezFailsOnThree(xs: seq<real>)
    requires xs == [0.0, 2.0, 1.0]
    ensures MartinezField(xs, xs) != UnbiasedCovariance(xs, xs)
  {
    MartinezExact(xs, xs);
    SingleMean(0.0);
    NewMean([0.0], 2.0);
    NewMean([0.0, 2.0], 1.0);
    assert [0.0] + [2.0] == [0.0, 2.0] == xs[..2] && [0.0, 2.0] + [1.0] == xs == xs[..3];
    assert MeanOrZero(xs[..2]) == 1.0 && MeanOrZero(xs[..3]) == 1.0;
    assert ProductAt(xs, xs, 1) == 1.0 && ProductAt(xs, xs, 2) == 0.0;
    assert LaterExcess(xs, xs, 3, 2) == 0.0;
    assert LaterExcess(xs, xs, 3, 3) == ExcessWeight(3, 3) * 0.0;
  }

  lemma SingleMean(x: real)
    ensures MeanOrZero([x]) == x
  {
    SumIsMeanTimesCount([x]);
    SumAppend([], x);
    assert [] + [x] == [x];
  }

  lemma ProductVanishes(a: real, b: real, p: real)
    requires p == a * b
    ensures p == 0.0 <==> a == 0.0 || b == 0.0
  {
  }

  // ---- merging ----

  lemma QuotientIsExact(a: nat, n: nat)
    requires n > 0
    ensures n as real * (a / n) as real == a as real - (a % n) as real
    ensures a % n == 0 <==> (a / n) as real == a as real / n as real
  {
    ProductAsReal(n, a / n);
    assert n * (a / n) + a % n == a;
    assert (n * (a / n) + a % n) as real == a as real;
    Cancel(n as real, (a / n) as real);
  }

  lemma UpdateGap(k: nat, l: nat, s: real, d1: real, d2: real, c: real, u: real)
    requires k + l > 1 && Scaled(k + l, u) == s + CrossOf(k as real, l as real, d1, d2)
    requires c == MergedCovarianceField(s, IntegerWeight(k, l), d1, d2, k + l)
    ensures c == u <==> (k * l) % (k + l) == 0 || d1 == 0.0 || d2 == 0.0
  {
    QuotientIsExact(k * l, k + l);
    CrossWeight(k, l, d1, d2);
    FieldTimes(s, IntegerWeight(k, l), d1, d2, k + l);
    hide CrossOf;
    hide MergedCovarianceField;
    GapForm((k + l) as real, u, s, (k * l) as real / (k + l) as real, d1, d2, c, IntegerWeight(k, l) as real);
  }

  lemma FieldTimes(s: real, q: nat, d1: real, d2: real, n: nat)
    requires n > 1
    ensures (n as real - 1.0) * MergedCovarianceField(s, q, d1, d2, n) == s + q as real * (d1 * d2)
  {
    Uncancel(s + q as real * (d1 * d2), n as real - 1.0);
  }

  lemma Uncancel(x: real, d: real)
    requires d != 0.0
    ensures d * (x / d) == x
  {
  }

  lemma GapForm(n: real, u: real, s: real, w: real, d1: real, d2: real, c: real, q: real)
    requires n > 1.0 && (n - 1.0) * u == s + w * (d1 * d2) && (n - 1.0) * c == s + q * (d1 * d2)
    ensures c == u <==> q == w || d1 == 0.0 || d2 == 0.0
  {
    var p := d1 * d2;
    ProductVanishes(d1, d2, p);
    ProductVanishes(q - w, p, (q - w) * p);
    ProductVanishes(n - 1.0, c - u, (n - 1.0) * (c - u));
    assert (n - 1.0) * (c - u) == (n - 1.0) * c - (n - 1.0) * u;
    assert (q - w) * p == q * p - w * p;
  }

  lemma CrossWeight(k: nat, l: nat, d1: real, d2: real)
    requires k + l > 0
    ensures CrossOf(k as real, l as real, d1, d2) == (k * l) as real / (k + l) as real * (d1 * d2)
  {
    ProductAsReal(k, l);
    var a, n, p := k as real * l as real, (k + l) as real, d1 * d2;
    assert n == k as real + l as real;
    assert a * p / n == a / n * p;
  }

  /** Main result: update_covariance gives the unbiased covariance of all samples exactly when the product of the
      two counts is a multiple of their sum, or the means of one of the two variables agree. */
  lemma UpdateCovarianceExact(xs: seq<real>, ys: seq<real>, us: seq<real>, vs: seq<real>)
    requires |xs| == |ys| && |us| == |vs| && |xs| + |us| > 1
    ensures UpdateJoint(UnbiasedJoint(xs, ys), UnbiasedJoint(us, vs)) == UnbiasedJoint(xs + us, ys + vs)
       <==> || (|xs| * |us|) % (|xs| + |us|) == 0
            || MeanOrZero(us) == MeanOrZero(xs) || MeanOrZero(vs) == MeanOrZero(ys)
  {
    hide UpdateMean;
    MergedMeanIsMean(xs, us);
    MergedMeanIsMean(ys, vs);
    MergedCovariance(xs, ys, us, vs);
  }

  /** Two ranks with one pair of samples each. */
  lemma UpdateCovarianceFails(xs: seq<real>, us: seq<real>)
    requires xs == [0.0] && us == [2.0]
    ensures UpdateJoint(UnbiasedJoint(xs, xs), UnbiasedJoint(us, us)) != UnbiasedJoint(xs + us, xs + us)
  {
    UpdateCovarianceExact(xs, xs, us, us);
    SingleMean(0.0);
    SingleMean(2.0);
  }

  lemma MergedCovariance(xs: seq<real>, ys: seq<real>, us: seq<real>, vs: seq<real>)
    requires |xs| == |ys| && |us| == |vs| && |xs| + |us| > 1
    ensures UpdateJoint(UnbiasedJoint(xs, ys), UnbiasedJoint(us, vs)).covariance
         == UnbiasedJoint(xs + us, ys + vs).covariance
       <==> || (|xs| * |us|) % (|xs| + |us|) == 0
            || MeanOrZero(us) == MeanOrZero(xs) || MeanOrZero(vs) == MeanOrZero(ys)
  {
    hide *;
    UpdateField(xs, ys, us, vs);
    ScaledCovariance(xs + us, ys + vs);
    CodeviationsMerge(xs, ys, us, vs);
    assert |xs + us| == |xs| + |us|;
    UpdateGap(|xs|, |us|, Codeviations(xs, ys) + Codeviations(us, vs),
              MeanOrZero(us) - MeanOrZero(xs), MeanOrZero(vs) - MeanOrZero(ys),
              UpdateJoint(UnbiasedJoint(xs, ys), UnbiasedJoint(us, vs)).covariance,
              UnbiasedJoint(xs + us, ys + vs).covariance);
  }

  lemma UpdateField(xs: seq<real>, ys: seq<real>, us: seq<real>, vs: seq<real>)
    requires |xs| == |ys| && |us| == |vs| && |xs| + |us| > 1
    ensures UpdateJoint(UnbiasedJoint(xs, ys), UnbiasedJoint(us, vs)).covariance
         == MergedCovarianceField(Codeviations(xs, ys) + Codeviations(us, vs), IntegerWeight(|xs|, |us|),
                                  MeanOrZero(us) - MeanOrZero(xs), MeanOrZero(vs) - MeanOrZero(ys), |xs| + |us|)
  {
    hide Codeviations;
    hide MeanOrZero;
    hide MergedCovarianceField;
    hide UnbiasedCovariance;
    hide Scaled;
    hide IntegerWeight;
    ScaledCovariance(xs, ys);
    ScaledCovariance(us, vs);
  }

  // ---- the records ----

  /** The loop bodies of increment_covariance and increment_sobol_covariance. */
  method StepProducts(covariance: real, mean1: real, mean2: real, x: real, y: real, n: nat) returns (c: real)
    requires n > 1
    ensures c == CovarianceStep(covariance, mean1, mean2, x, y, n)
  {
    var incr := n as real;
    c := covariance * (incr - 2.0);
    c := c + (x - mean1) * (y - mean2);
    SameQuotient(c, covariance * (n as real - 2.0) + (x - mean1) * (y - mean2), n as real - 1.0);
    c := c / (incr - 1.0);
  }

  method StepSobol(covariance: real, mean1: real, mean2: real, x: real, y: real, n: nat) returns (c: real)
    requires n > 1
    ensures c == SobolStep(covariance, mean1, mean2, x, y, n)
  {
    var incr := n as real;
    c := covariance * (incr - 2.0);
    c := c + (x - mean1) * (y - mean2) * (incr / (incr - 1.0));
    c := c / (incr - 1.0);
  }

  /** covariance_t */
  class CovarianceRecord {
    const mean1: MeanRecord
    const mean2: MeanRecord
    const covariance: array<real>
    var increment: nat

    ghost predicate Valid()
      reads this, mean1, mean2
    {
      && mean1 != mean2 && mean1.mean != mean2.mean && mean1.mean != covariance && mean2.mean != covariance
      && mean1.mean.Length == mean2.mean.Length == covariance.Length
      && mean1.increment == mean2.increment == increment
    }

    ghost function Repr(): set<object> {
      {this, mean1, mean2, mean1.mean, mean2.mean, covariance}
    }

    ghost function At(i: nat): Joint
      reads this, mean1, mean2, mean1.mean, mean2.mean, covariance
      requires Valid() && i < covariance.Length
    {
      Joint(increment, mean1.mean[i], mean2.mean[i], covariance[i])
    }

    constructor (vectSize: nat)
      ensures Valid() && fresh(Repr()) && covariance.Length == vectSize
      ensures forall i :: 0 <= i < vectSize ==> At(i) == FoldJoint([], [])
    {
      covariance := new real[vectSize](_ => 0.0);
      mean1 := new MeanRecord(vectSize);
      mean2 := new MeanRecord(vectSize);
      increment := 0;
    }

    /** The first mean is advanced before the covariance, the second one after it. */
    method IncrementCovariance(inVect1: seq<real>, inVect2: seq<real>, vectSize: nat)
      requires Valid() && vectSize == covariance.Length <= |inVect1| && vectSize <= |inVect2|
      modifies Repr()
      ensures Valid()
      ensures forall i :: 0 <= i < vectSize ==> At(i) == IncrementJoint(old(At(i)), inVect1[i], inVect2[i])
    {
      increment := increment + 1;
      mean1.IncrementMean(inVect1, vectSize);
      if increment > 1 {
        UpdateProducts(inVect1, inVect2, vectSize);
      }
      mean2.IncrementMean(inVect2, vectSize);
    }

    method UpdateProducts(inVect1: seq<real>, inVect2: seq<real>, vectSize: nat)
      requires vectSize == covariance.Length == mean1.mean.Length == mean2.mean.Length && increment > 1
      requires mean1.mean != covariance && mean2.mean != covariance
      requires vectSize <= |inVect1| && vectSize <= |inVect2|
      modifies covariance
      ensures forall i :: 0 <= i < vectSize ==>
                covariance[i] == CovarianceStep(old(covariance[i]), mean1.mean[i], mean2.mean[i],
                                                inVect1[i], inVect2[i], increment)
    {
      hide CovarianceStep;
      for i := 0 to vectSize
        invariant forall k :: 0 <= k < i ==>
                    covariance[k] == CovarianceStep(old(covariance[k]), mean1.mean[k], mean2.mean[k],
                                                    inVect1[k], inVect2[k], increment)
        invariant forall k :: i <= k < vectSize ==> covariance[k] == old(covariance[k])
      {
        covariance[i] := StepProducts(covariance[i], mean1.mean[i], mean2.mean[i], inVect1[i], inVect2[i], increment);
      }
    }

    /** update_covariance, with this record as the output. */
    method UpdateCovariance(covariance1: CovarianceRecord, covariance2: CovarianceRecord, vectSize: nat)
      requires Valid() && covariance1.Valid() && covariance2.Valid()
      requires Repr() !! covariance1.Repr() && Repr() !! covariance2.Repr()
      requires vectSize == covariance.Length == covariance1.covariance.Length == covariance2.covariance.Length
      requires covariance1.increment + covariance2.increment > 1
      modifies Repr()
      ensures Valid()
      ensures forall i :: 0 <= i < vectSize ==> At(i) == UpdateJoint(covariance1.At(i), covariance2.At(i))
    {
      hide UpdateMean;
      hide MergedCovarianceField;
      hide IntegerWeight;
      hide Scaled;
      increment := covariance1.increment + covariance2.increment;
      for i := 0 to vectSize
        invariant increment == covariance1.increment + covariance2.increment
        invariant forall k :: 0 <= k < i ==>
                    covariance[k] == UpdateJoint(covariance1.At(k), covariance2.At(k)).covariance
      {
        var scaled1 := Scaled(covariance1.increment, covariance1.covariance[i]);
        var scaled2 := Scaled(covariance2.increment, covariance2.covariance[i]);
        var weight := IntegerWeight(covariance1.increment, covariance2.increment);
        covariance[i] := MergedCovarianceField(scaled1 + scaled2, weight,
                                               covariance2.mean1.mean[i] - covariance1.mean1.mean[i],
                                               covariance2.mean2.mean[i] - covariance1.mean2.mean[i], increment);
      }
      mean1.UpdateMean(covariance1.mean1, covariance2.mean1, vectSize);
      mean2.UpdateMean(covariance1.mean2, covariance2.mean2, vectSize);
    }
  }

  /** increment_sobol_covariance */
  method IncrementSobolCovariance(covariance: array<real>, inVect1: seq<real>, inVect2: seq<real>,
                                  mean1: array<real>, mean2: array<real>, vectSize: nat, increment: nat)
    requires vectSize <= covariance.Length && vectSize <= mean1.Length && vectSize <= mean2.Length
    requires covariance != mean1 && covariance != mean2 && vectSize <= |inVect1| && vectSize <= |inVect2|
    modifies covariance
    ensures forall i :: 0 <= i < vectSize ==>
              covariance[i] == SobolStep(old(covariance[i]), mean1[i], mean2[i], inVect1[i], inVect2[i], increment)
  {
    if increment > 1 {
      hide SobolStep;
      for i := 0 to vectSize
        invariant forall k :: 0 <= k < i ==>
                    covariance[k]
                    == SobolStep(old(covariance[k]), mean1[k], mean2[k], inVect1[k], inVect2[k], increment)
        invariant forall k :: i <= k < covariance.Length ==> covariance[k] == old(covariance[k])
      {
        covariance[i] := StepSobol(covariance[i], mean1[i], mean2[i], inVect1[i], inVect2[i], increment);
      }
    }
  }

  /** What increment_sobol_martinez keeps for one parameter, but for the index values. */
  class MartinezRecord {
    const varianceA: VarianceRecord
    const varianceB: VarianceRecord
    const varianceK: VarianceRecord
    const firstOrderCovariance: array<real>
    const totalOrderCovariance: array<real>
    var iteration: nat

    ghost predicate Valid() {
      && varianceA.Valid() && varianceB.Valid() && varianceK.Valid()
      && varianceA.Repr() !! varianceB.Repr() !! varianceK.Repr()
      && firstOrderCovariance !in varianceA.Repr() + varianceB.Repr() + varianceK.Repr()
      && totalOrderCovariance !in varianceA.Repr() + varianceB.Repr() + varianceK.Repr()
      && firstOrderCovariance != totalOrderCovariance
      && varianceA.variance.Length == varianceB.variance.Length == varianceK.variance.Length
      && varianceA.variance.Length == firstOrderCovariance.Length == totalOrderCovariance.Length
    }

    ghost function Repr(): set<object> {
      {this, firstOrderCovariance, totalOrderCovariance} + varianceA.Repr() + varianceB.Repr() + varianceK.Repr()
    }

    /** At mesh point i the record holds the samples xs and bs of the first two group members and ys of the parameter's
        member. */
    ghost predicate Holds(i: nat, xs: seq<real>, bs: seq<real>, ys: seq<real>)
      requires Valid() && i < firstOrderCovariance.Length && |xs| == |bs| == |ys|
      reads Repr()
    {
      && iteration == |xs|
      && varianceA.At(i) == FoldSpread(xs) && varianceB.At(i) == FoldSpread(bs) && varianceK.At(i) == FoldSpread(ys)
      && firstOrderCovariance[i] == MartinezField(bs, ys) && totalOrderCovariance[i] == MartinezField(xs, ys)
    }

    constructor (vectSize: nat)
      ensures Valid() && fresh(Repr()) && firstOrderCovariance.Length == vectSize
      ensures forall i :: 0 <= i < vectSize ==> Holds(i, [], [], [])
    {
      varianceA := new VarianceRecord(vectSize);
      varianceB := new VarianceRecord(vectSize);
      varianceK := new VarianceRecord(vectSize);
      firstOrderCovariance := new real[vectSize](_ => 0.0);
      totalOrderCovariance := new real[vectSize](_ => 0.0);
      iteration := 0;
    }

    method IncrementVariances(inVectA: seq<real>, inVectB: seq<real>, inVectK: seq<real>, vectSize: nat)
      requires Valid() && vectSize == firstOrderCovariance.Length
      requires vectSize <= |inVectA| && vectSize <= |inVectB| && vectSize <= |inVectK|
      modifies varianceA.Repr(), varianceB.Repr(), varianceK.Repr()
      ensures forall i :: 0 <= i < vectSize ==>
                && varianceA.At(i) == IncrementSpread(old(varianceA.At(i)), inVectA[i])
                && varianceB.At(i) == IncrementSpread(old(varianceB.At(i)), inVectB[i])
                && varianceK.At(i) == IncrementSpread(old(varianceK.At(i)), inVectK[i])
    {
      hide IncrementSpread;
      varianceA.IncrementMeanAndVariance(inVectA, vectSize);
      varianceB.IncrementMeanAndVariance(inVectB, vectSize);
      varianceK.IncrementMeanAndVariance(inVectK, vectSize);
    }

    method IncrementCovariances(inVectA: seq<real>, inVectB: seq<real>, inVectK: seq<real>, vectSize: nat)
      requires Valid() && vectSize == firstOrderCovariance.Length
      requires vectSize <= |inVectA| && vectSize <= |inVectB| && vectSize <= |inVectK|
      modifies firstOrderCovariance, totalOrderCovariance
      ensures forall i :: 0 <= i < vectSize ==>
                && firstOrderCovariance[i]
                   == SobolStep(old(firstOrderCovariance[i]), varianceB.At(i).mean, varianceK.At(i).mean,
                                inVectB[i], inVectK[i], iteration)
                && totalOrderCovariance[i]
                   == SobolStep(old(totalOrderCovariance[i]), varianceA.At(i).mean, varianceK.At(i).mean,
                                inVectA[i], inVectK[i], iteration)
    {
      hide SobolStep;
      IncrementSobolCovariance(firstOrderCovariance, inVectB, inVectK, varianceB.meanStructure.mean,
                               varianceK.meanStructure.mean, vectSize, iteration);
      IncrementSobolCovariance(totalOrderCovariance, inVectA, inVectK, varianceA.meanStructure.mean,
                               varianceK.meanStructure.mean, vectSize, iteration);
    }

    /** Both covariances are given the iteration before it is advanced. */
    method Increment(inVectA: seq<real>, inVectB: seq<real>, inVectK: seq<real>, vectSize: nat)
      requires Valid() && vectSize == firstOrderCovariance.Length
      requires vectSize <= |inVectA| && vectSize <= |inVectB| && vectSize <= |inVectK|
      modifies Repr()
      ensures forall i, xs, bs, ys :: 0 <= i < vectSize && |xs| == |bs| == |ys| && old(Holds(i, xs, bs, ys)) ==>
                Holds(i, xs + [inVectA[i]], bs + [inVectB[i]], ys + [inVectK[i]])
    {
      hide FoldSpread;
      hide MartinezField;
      hide IncrementSpread;
      hide SobolStep;
      IncrementVariances(inVectA, inVectB, inVectK, vectSize);
      IncrementCovariances(inVectA, inVectB, inVectK, vectSize);
      iteration := iteration + 1;
      forall i, xs: seq<real>, bs: seq<real>, ys: seq<real>
        | 0 <= i < vectSize && |xs| == |bs| == |ys| && old(Holds(i, xs, bs, ys))
        ensures Holds(i, xs + [inVectA[i]], bs + [inVectB[i]], ys + [inVectK[i]])
      {
        PairGrows(bs, ys, inVectB[i], inVectK[i]);
        PairGrows(xs, ys, inVectA[i], inVectK[i]);
      }
    }
  }

  lemma PairGrows(xs: seq<real>, ys: seq<real>, x: real, y: real)
    requires |xs| == |ys|
    ensures FoldSpread(xs + [x]) == IncrementSpread(FoldSpread(xs), x)
    ensures FoldSpread(ys + [y]) == IncrementSpread(FoldSpread(ys), y)
    ensures MartinezField(xs + [x], ys + [y])
         == SobolStep(MartinezField(xs, ys), FoldSpread(xs + [x]).mean, FoldSpread(ys + [y]).mean, x, y, |xs|)
  {
    hide *;
    SpreadStep(xs, x);
    SpreadStep(ys, y);
    MartinezStep(xs, ys, x, y);
  }

  lemma SpreadStep(xs: seq<real>, x: real)
    ensures FoldSpread(xs + [x]) == IncrementSpread(FoldSpread(xs), x)
    ensures FoldSpread(xs + [x]).mean == MeanOrZero(xs + [x])
  {
    assert (xs + [x])[..|xs|] == xs;
    FoldIsUnbiased(xs + [x]);
  }
}
