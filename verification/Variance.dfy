/** Online mean and variance, their pairwise merge and the fold on rank 0
    (server/stats/mean.c, server/stats/variance.c). */
module Variance {
  import opened Sequences
  import opened Samples
  import opened Dispersion
  import opened GeneralMoments

  /** One mesh point of a variance_t. The same field holds an unbiased variance for increment_mean_and_variance
      and a sum of squared deviations for the merges. */
  datatype Spread = Spread(increment: nat, mean: real, variance: real)

  const ZERO_SPREAD := Spread(0, 0.0, 0.0)

  function VarianceStep(variance: real, newMean: real, x: real, n: nat): real
    requires n > 1
  {
    (variance * (n as real - 2.0) + (x - newMean) * (x - newMean) * (n as real / (n as real - 1.0))) / (n as real - 1.0)
  }

  function IncrementSpread(s: Spread, x: real): Spread {
    var n, mean := s.increment + 1, MeanStep(s.mean, x, s.increment + 1);
    Spread(n, mean, if n > 1 then VarianceStep(s.variance, mean, x, n) else s.variance)
  }

  function FoldSpread(xs: seq<real>): Spread {
    if xs == [] then ZERO_SPREAD else IncrementSpread(FoldSpread(xs[..|xs| - 1]), xs[|xs| - 1])
  }

  /** What the distance of two means adds to the sum of squared deviations. */
  function MeanGap(n1: nat, n2: nat, delta: real): real
    requires n1 + n2 > 0
  {
    (n1 * n2) as real * delta * delta / (n1 + n2) as real
  }

  /** The merge formula on the variance field. */
  function MergedField(v: real, w: real, n1: nat, n2: nat, mean1: real, mean2: real): real
    requires n1 + n2 > 0
  {
    v + w + MeanGap(n1, n2, mean1 - mean2)
  }

  /** update_mean and update_variance. */
  function UpdateSpread(a: Spread, b: Spread): Spread
    requires a.increment + b.increment > 0
  {
    Spread(a.increment + b.increment, UpdateMean(a.mean, b.mean, b.increment, a.increment + b.increment),
           MergedField(a.variance, b.variance, a.increment, b.increment, a.mean, b.mean))
  }

  /** One message in the fold on rank 0; the received mean is the base here. */
  function PoolSpread(g: Spread, r: Spread): Spread
    requires g.increment + r.increment > 0
  {
    var n := g.increment + r.increment;
    Spread(n, UpdateMean(r.mean, g.mean, g.increment, n),
           g.variance + (r.variance + MeanGap(g.increment, r.increment, g.mean - r.mean)))
  }

  /** Rank 0 divides by zero unless one of the first two ranks has a sample. */
  predicate Poolable(g: Spread, rs: seq<Spread>) {
    rs == [] || g.increment + rs[0].increment > 0
  }

  function PoolAll(g: Spread, rs: seq<Spread>): (p: Spread)
    requires Poolable(g, rs)
    ensures p.increment >= g.increment && (rs != [] ==> p.increment >= g.increment + rs[0].increment)
  {
    if rs == [] then g else PoolSpread(PoolAll(g, rs[..|rs| - 1]), rs[|rs| - 1])
  }

  // ---- two-pass references ----

  ghost function UnbiasedSpread(xs: seq<real>): Spread {
    Spread(|xs|, MeanOrZero(xs), if |xs| >= 2 then UnbiasedVariance(xs) else 0.0)
  }

  ghost function SquaresOf(xs: seq<real>): real {
    if xs == [] then 0.0 else SquaredDeviations(xs)
  }

  ghost function SquaresSpread(xs: seq<real>): Spread {
    Spread(|xs|, MeanOrZero(xs), SquaresOf(xs))
  }

  lemma SquaresAreCodeviations(xs: seq<real>)
    ensures SquaresOf(xs) == Codeviations(xs, xs) >= 0.0
    ensures |xs| < 2 ==> SquaresOf(xs) == 0.0
    ensures |xs| >= 2 ==> (|xs| as real - 1.0) * UnbiasedVariance(xs) == SquaresOf(xs)
  {
    CoSumOfSame(xs, MeanOrZero(xs));
    SquaresVanish(xs, MeanOrZero(xs));
    if |xs| == 1 {
      assert xs == [xs[0]];
      SingleSampleIsCentred(xs[0], 2);
    }
  }

  lemma StepScaled(n: real, v: real, squares: real, m: real, o: real, x: real)
    requires n > 1.0 && v * (n - 2.0) == squares && (x - m) * (n / (n - 1.0)) == x - o
    ensures (v * (n - 2.0) + (x - m) * (x - m) * (n / (n - 1.0))) / (n - 1.0)
         == (squares + (x - m) * (x - o)) / (n - 1.0)
  {
    assert (x - m) * (x - m) * (n / (n - 1.0)) == (x - m) * ((x - m) * (n / (n - 1.0)));
  }

  lemma VarianceStepIsUnbiased(ys: seq<real>, x: real)
    requires ys != []
    ensures VarianceStep(UnbiasedSpread(ys).variance, MeanOrZero(ys + [x]), x, |ys| + 1) == UnbiasedVariance(ys + [x])
  {
    var xs, n := ys + [x], (|ys| + 1) as real;
    hide CoSum;
    hide CentralSum;
    hide MeanOrZero;
    SquaresAreCodeviations(ys);
    SquaresAreCodeviations(xs);
    CodeviationsStep(ys, ys, x, x);
    NewMean(ys, x);
    var v, m, o := UnbiasedSpread(ys).variance, MeanOrZero(xs), MeanOrZero(ys);
    assert v * (n - 2.0) == SquaresOf(ys);
    assert |xs| as real == n && |ys| as real == n - 1.0;
    hide *;
    TwoNewMeans(n, o, m, x);
    StepScaled(n, v, SquaresOf(ys), m, o, x);
    UnbiasedIsQuotient(xs);
  }

  lemma UnbiasedIsQuotient(xs: seq<real>)
    requires |xs| >= 2
    ensures UnbiasedVariance(xs) == SquaresOf(xs) / (|xs| as real - 1.0)
  {
  }

  /** Main result: the one-pass mean and variance are the two-pass ones after any samples. */
  lemma {:induction false} FoldIsUnbiased(xs: seq<real>)
    ensures FoldSpread(xs) == UnbiasedSpread(xs)
  {
    if xs != [] {
      var ys, x := xs[..|xs| - 1], xs[|xs| - 1];
      assert xs == ys + [x];
      FoldIsUnbiased(ys);
      MeanStepIsMean(ys, x);
      if ys != [] {
        VarianceStepIsUnbiased(ys, x);
      }
    }
  }

  /** compute_variance on accumulated moments gives the result of increment_variance on the same samples. */
  lemma ComputedVarianceAgrees(xs: seq<real>, order: nat)
    requires |xs| >= 2 && 2 <= order <= 4
    ensures VarianceOf(FoldCell(xs, order).theta2, |xs|) == FoldSpread(xs).variance
  {
    VarianceOfTheta(xs, order);
    FoldIsUnbiased(xs);
  }

  // ---- merging two states ----

  /** Its cross term. */
  function Cross(n1: nat, n2: nat, a: real, b: real): real
    requires n1 + n2 > 0
  {
    CrossOf(n1 as real, n2 as real, b - a, b - a)
  }

  lemma MergedFieldForm(v: real, w: real, n1: nat, n2: nat, a: real, b: real)
    requires n1 + n2 > 0
    ensures MergedField(v, w, n1, n2, a, b) == v + w + Cross(n1, n2, a, b)
  {
    ProductAsReal(n1, n2);
    var k, d := n1 as real * n2 as real, a - b;
    assert b - a == -d;
    assert k * d * d == k * ((-d) * (-d));
  }

  lemma {:induction false} ProductAsReal(n1: nat, n2: nat)
    ensures (n1 * n2) as real == n1 as real * n2 as real
  {
    if n1 == 0 {
    } else {
      ProductAsReal(n1 - 1, n2);
      assert n1 * n2 == (n1 - 1) * n2 + n2;
      assert n1 as real == (n1 - 1) as real + 1.0;
      assert n1 as real * n2 as real == (n1 - 1) as real * n2 as real + n2 as real;
    }
  }

  lemma SquaresMerge(xs: seq<real>, ys: seq<real>)
    requires xs + ys != []
    ensures SquaresOf(xs + ys) == SquaresOf(xs) + SquaresOf(ys) + Cross(|xs|, |ys|, MeanOrZero(xs), MeanOrZero(ys))
  {
    hide SquaresOf;
    hide Codeviations;
    hide MeanOrZero;
    hide CrossOf;
    CodeviationsMerge(xs, xs, ys, ys);
    SquaresAreCodeviations(xs);
    SquaresAreCodeviations(ys);
    SquaresAreCodeviations(xs + ys);
  }

  /** Main result: merging sums of squared deviations gives that of the concatenated samples. */
  lemma UpdateMergesSquares(xs: seq<real>, ys: seq<real>)
    requires xs + ys != []
    ensures UpdateSpread(SquaresSpread(xs), SquaresSpread(ys)) == SquaresSpread(xs + ys)
  {
    MergedMeanIsMean(xs, ys);
    SquaresMerge(xs, ys);
    hide MeanOrZero;
    hide SquaresOf;
    hide UpdateMean;
    hide Cross;
    hide MergedField;
    MergedFieldForm(SquaresOf(xs), SquaresOf(ys), |xs|, |ys|, MeanOrZero(xs), MeanOrZero(ys));
  }

  /** What is missing when unbiased variances v and w of k and l samples are merged with cross term c. */
  lemma MergeGap(k: real, l: real, v: real, w: real, c: real, u: real, s: real, r: real)
    requires k >= 1.0 && l >= 1.0 && v >= 0.0 && w >= 0.0 && c >= 0.0
    requires (k - 1.0) * v == s && (l - 1.0) * w == r && (k + l - 1.0) * u == s + r + c
    ensures v + w + c == u <==> v == 0.0 && w == 0.0 && (k + l == 2.0 || c == 0.0)
  {
    var n := k + l;
    assert (n - 1.0) * (v + w + c - u) == l * v + k * w + (n - 2.0) * c;
    assert l * v >= v && k * w >= w && (n - 2.0) * c >= 0.0;
    if v + w + c == u {
      assert v == 0.0 && w == 0.0;
      if n != 2.0 {
        ZeroFactor(n - 2.0, c);
      }
    }
    if v == 0.0 && w == 0.0 && (n == 2.0 || c == 0.0) {
      ZeroFactor(n - 1.0, v + w + c - u);
    }
  }

  lemma ZeroFactor(a: real, x: real)
    requires a != 0.0 && a * x == 0.0
    ensures x == 0.0
  {
  }

  lemma SameSigns(a: real, b: real, c: real)
    requires c == a * b && ((a > 0.0 && b > 0.0) || (a < 0.0 && b < 0.0))
    ensures c > 0.0
  {
  }

  lemma CrossVanishes(n1: nat, n2: nat, a: real, b: real)
    requires n1 > 0 && n2 > 0
    ensures a != b ==> Cross(n1, n2, a, b) > 0.0
    ensures a == b ==> Cross(n1, n2, a, b) == 0.0
  {
    var k, l, d := n1 as real, n2 as real, b - a;
    var x := d * d;
    if d != 0.0 {
      SameSigns(d, d, x);
    }
    assert k * l > 0.0;
    SignOfQuotient(k * l, x, k + l);
  }

  lemma SignOfQuotient(k: real, x: real, n: real)
    requires k > 0.0 && n > 0.0 && x >= 0.0
    ensures x > 0.0 ==> k * x / n > 0.0
    ensures x == 0.0 ==> k * x / n == 0.0
  {
    if x > 0.0 {
      assert k * x > 0.0;
    }
  }

  /** The exact condition for the merge of two unbiased variances to be the unbiased variance of all samples:
      one side is empty, or both sides are constant and either equal or single samples. */
  lemma UpdateOfUnbiased(xs: seq<real>, ys: seq<real>)
    requires xs + ys != []
    ensures UpdateSpread(UnbiasedSpread(xs), UnbiasedSpread(ys)) == UnbiasedSpread(xs + ys)
       <==> || xs == [] || ys == []
            || (&& UnbiasedSpread(xs).variance == UnbiasedSpread(ys).variance == 0.0
                && (|xs| == |ys| == 1 || Mean(xs) == Mean(ys)))
  {
    MergedMeanIsMean(xs, ys);
    if xs == [] || ys == [] {
      EmptySide(xs, ys);
    } else {
      MergedUnbiased(xs, ys);
    }
  }

  lemma EmptySide(xs: seq<real>, ys: seq<real>)
    requires xs + ys != [] && (xs == [] || ys == [])
    ensures UpdateSpread(UnbiasedSpread(xs), UnbiasedSpread(ys)).variance == UnbiasedSpread(xs + ys).variance
  {
    if xs == [] {
      assert xs + ys == ys;
    } else {
      assert xs + ys == xs;
    }
  }

  lemma MergedUnbiased(xs: seq<real>, ys: seq<real>)
    requires xs != [] && ys != []
    ensures UpdateSpread(UnbiasedSpread(xs), UnbiasedSpread(ys)).variance == UnbiasedSpread(xs + ys).variance
       <==> && UnbiasedSpread(xs).variance == UnbiasedSpread(ys).variance == 0.0
            && (|xs| == |ys| == 1 || Mean(xs) == Mean(ys))
  {
    hide *;
    var v, w, u := UnbiasedSpread(xs).variance, UnbiasedSpread(ys).variance, UnbiasedSpread(xs + ys).variance;
    var k, l, a, b := |xs| as real, |ys| as real, MeanOrZero(xs), MeanOrZero(ys);
    ScaledVariance(xs);
    ScaledVariance(ys);
    ScaledVariance(xs + ys);
    SquaresMerge(xs, ys);
    UnbiasedUpdate(xs, ys);
    MergedFieldForm(v, w, |xs|, |ys|, a, b);
    CrossVanishes(|xs|, |ys|, a, b);
    assert |xs + ys| as real == k + l;
    MergeGap(k, l, v, w, Cross(|xs|, |ys|, a, b), u, SquaresOf(xs), SquaresOf(ys));
  }

  lemma UnbiasedUpdate(xs: seq<real>, ys: seq<real>)
    requires xs != [] && ys != []
    ensures MeanOrZero(xs) == Mean(xs) && MeanOrZero(ys) == Mean(ys)
    ensures UpdateSpread(UnbiasedSpread(xs), UnbiasedSpread(ys)).variance
         == MergedField(UnbiasedSpread(xs).variance, UnbiasedSpread(ys).variance, |xs|, |ys|,
                        MeanOrZero(xs), MeanOrZero(ys))
  {
    hide MergedField;
  }

  lemma ScaledVariance(xs: seq<real>)
    requires xs != []
    ensures (|xs| as real - 1.0) * UnbiasedSpread(xs).variance == SquaresOf(xs)
    ensures UnbiasedSpread(xs).variance >= 0.0
  {
    SquaresAreCodeviations(xs);
    if |xs| >= 2 {
      UnbiasedIsQuotient(xs);
    }
  }

  /** Two ranks with the samples 0 and 2 each. */
  lemma UpdateOfUnbiasedFails(xs: seq<real>)
    requires xs == [0.0, 2.0]
    ensures UpdateSpread(UnbiasedSpread(xs), UnbiasedSpread(xs)) != UnbiasedSpread(xs + xs)
  {
    UpdateOfUnbiased(xs, xs);
    SquaresVanish(xs, Mean(xs));
    ScaledVariance(xs);
    assert xs[0] != xs[1];
  }

  // ---- the fold on rank 0 ----

  /** The fold's formula, which starts from the received mean, is the pairwise merge. */
  lemma PoolIsUpdate(g: Spread, r: Spread)
    requires g.increment + r.increment > 0
    ensures PoolSpread(g, r) == UpdateSpread(g, r)
  {
    hide MeanGap;
    hide UpdateMean;
    MeansSwap(g.mean, r.mean, g.increment, r.increment);
  }

  /** A merged mean does not depend on the mean it starts from. */
  lemma MeansSwap(m1: real, m2: real, k: nat, l: nat)
    requires k + l > 0
    ensures UpdateMean(m2, m1, k, k + l) == UpdateMean(m1, m2, l, k + l)
  {
    var a, b, n := k as real, l as real, (k + l) as real;
    assert n == a + b == b + a;
    Pooled(m2, m1, b, a);
    Pooled(m1, m2, a, b);
    SameQuotient(b * m2 + a * m1, a * m1 + b * m2, n);
  }

  function UpdateAll(g: Spread, rs: seq<Spread>): (p: Spread)
    requires Poolable(g, rs)
    ensures p.increment >= g.increment && (rs != [] ==> p.increment >= g.increment + rs[0].increment)
  {
    if rs == [] then g else UpdateSpread(UpdateAll(g, rs[..|rs| - 1]), rs[|rs| - 1])
  }

  /** Folding on rank 0 equals iterating update_mean and update_variance. */
  lemma {:induction false} PoolIsIteratedUpdate(g: Spread, rs: seq<Spread>)
    requires Poolable(g, rs)
    ensures PoolAll(g, rs) == UpdateAll(g, rs)
  {
    if rs != [] {
      var n := |rs| - 1;
      PoolIsIteratedUpdate(g, rs[..n]);
      PoolIsUpdate(PoolAll(g, rs[..n]), rs[n]);
    }
  }

  ghost function SquaresOfRanks(lists: seq<seq<real>>): seq<Spread> {
    seq(|lists|, i requires 0 <= i < |lists| => SquaresSpread(lists[i]))
  }

  /** Main result: folding any number of ranks gives the mean and the squared deviations of all their samples. */
  lemma {:induction false} PoolingIsConcatenation(xs: seq<real>, lists: seq<seq<real>>)
    requires lists == [] || xs + lists[0] != []
    ensures Poolable(SquaresSpread(xs), SquaresOfRanks(lists))
    ensures PoolAll(SquaresSpread(xs), SquaresOfRanks(lists)) == SquaresSpread(xs + Flatten(lists))
  {
    if lists == [] {
      assert xs + Flatten(lists) == xs;
    } else {
      var n := |lists| - 1;
      PoolingIsConcatenation(xs, lists[..n]);
      OneMoreRank(xs, lists, n);
    }
  }

  lemma OneMoreRank(xs: seq<real>, lists: seq<seq<real>>, n: nat)
    requires n + 1 == |lists| && xs + lists[0] != []
    requires Poolable(SquaresSpread(xs), SquaresOfRanks(lists[..n]))
    requires PoolAll(SquaresSpread(xs), SquaresOfRanks(lists[..n])) == SquaresSpread(xs + Flatten(lists[..n]))
    ensures Poolable(SquaresSpread(xs), SquaresOfRanks(lists))
    ensures PoolAll(SquaresSpread(xs), SquaresOfRanks(lists)) == SquaresSpread(xs + Flatten(lists))
  {
    hide MergedField;
    hide UpdateMean;
    hide MeanOrZero;
    hide SquaresOf;
    hide PoolSpread;
    hide Flatten;
    var g, before := SquaresSpread(xs), SquaresOfRanks(lists[..n]);
    var pool := PoolAll(g, before);
    assert SquaresOfRanks(lists)[..n] == before && SquaresOfRanks(lists)[n] == SquaresSpread(lists[n]);
    assert pool.increment + |lists[n]| > 0;
    hide SquaresSpread;
    hide UpdateSpread;
    PoolIsUpdate(pool, SquaresSpread(lists[n]));
    UpdateMergesSquares(xs + Flatten(lists[..n]), lists[n]);
    FlattenLast(xs, lists, n);
  }

  lemma SpreadPermutation(xs: seq<real>, ys: seq<real>)
    requires multiset(xs) == multiset(ys)
    ensures SquaresSpread(xs) == SquaresSpread(ys)
  {
    SameLength(xs, ys);
    if xs != [] {
      CentralSumPermutation(xs, ys, 0.0, 1);
      CentralSumPermutation(xs, ys, Mean(xs), 2);
    }
  }

  /** The result does not depend on how the ranks are numbered. */
  lemma PoolingIgnoresRankOrder(xs: seq<real>, lists: seq<seq<real>>, ys: seq<real>, other: seq<seq<real>>)
    requires lists == [] || xs + lists[0] != []
    requires other == [] || ys + other[0] != []
    requires multiset([xs] + lists) == multiset([ys] + other)
    ensures Poolable(SquaresSpread(xs), SquaresOfRanks(lists)) && Poolable(SquaresSpread(ys), SquaresOfRanks(other))
    ensures PoolAll(SquaresSpread(xs), SquaresOfRanks(lists)) == PoolAll(SquaresSpread(ys), SquaresOfRanks(other))
  {
    PoolingIsConcatenation(xs, lists);
    PoolingIsConcatenation(ys, other);
    FlattenMultiset([xs] + lists, [ys] + other);
    FlattenConcat([xs], lists);
    FlattenConcat([ys], other);
    assert Flatten([xs]) == xs && Flatten([ys]) == ys by {
      assert [xs][..0] == [] && [ys][..0] == [];
    }
    SpreadPermutation(xs + Flatten(lists), ys + Flatten(other));
  }

  // ---- the records ----

  /** mean_t */
  class MeanRecord {
    const mean: array<real>
    var increment: nat

    constructor (vectSize: nat)
      ensures fresh(mean) && mean.Length == vectSize && increment == 0
      ensures forall i :: 0 <= i < vectSize ==> mean[i] == 0.0
    {
      mean := new real[vectSize](_ => 0.0);
      increment := 0;
    }

    method IncrementMean(inVect: seq<real>, vectSize: nat)
      requires vectSize <= mean.Length && vectSize <= |inVect|
      modifies this, mean
      ensures increment == old(increment) + 1
      ensures forall i :: 0 <= i < mean.Length ==>
                mean[i] == if i < vectSize then MeanStep(old(mean[i]), inVect[i], increment) else old(mean[i])
    {
      increment := increment + 1;
      for i := 0 to vectSize
        invariant increment == old(increment) + 1
        invariant forall k :: 0 <= k < i ==> mean[k] == MeanStep(old(mean[k]), inVect[k], increment)
        invariant forall k :: i <= k < mean.Length ==> mean[k] == old(mean[k])
      {
        var temp := mean[i];
        mean[i] := temp + (inVect[i] - temp) / increment as real;
      }
    }

    /** update_mean, with this record as the output. */
    method UpdateMean(mean1: MeanRecord, mean2: MeanRecord, vectSize: nat)
      requires mean1.increment + mean2.increment > 0
      requires vectSize <= mean.Length && vectSize <= mean1.mean.Length && vectSize <= mean2.mean.Length
      requires this != mean1 && this != mean2 && mean != mean1.mean && mean != mean2.mean
      modifies this, mean
      ensures increment == mean1.increment + mean2.increment
      ensures forall i :: 0 <= i < vectSize ==>
                mean[i] == GeneralMoments.UpdateMean(mean1.mean[i], mean2.mean[i], mean2.increment, increment)
    {
      increment := mean2.increment + mean1.increment;
      for i := 0 to vectSize
        invariant increment == mean1.increment + mean2.increment
        invariant forall k :: 0 <= k < i ==>
                    mean[k] == GeneralMoments.UpdateMean(mean1.mean[k], mean2.mean[k], mean2.increment, increment)
      {
        var delta := mean2.mean[i] - mean1.mean[i];
        mean[i] := mean1.mean[i] + mean2.increment as real * delta / increment as real;
      }
    }
  }

  /** What a rank other than 0 sends. */
  datatype RankMessage = RankMessage(increment: nat, mean: seq<real>, variance: seq<real>)

  predicate WideEnough(received: seq<RankMessage>, vectSize: nat) {
    forall i :: 0 <= i < |received| ==> |received[i].mean| >= vectSize && |received[i].variance| >= vectSize
  }

  /** The contributions of the other ranks to mesh point j. */
  function PointOf(received: seq<RankMessage>, j: nat): (rs: seq<Spread>)
    requires WideEnough(received, j + 1)
    ensures |rs| == |received|
  {
    seq(|received|, i requires 0 <= i < |received| =>
      Spread(received[i].increment, received[i].mean[j], received[i].variance[j]))
  }

  function SumIncrements(start: nat, received: seq<RankMessage>): nat {
    if received == [] then start
    else SumIncrements(start, received[..|received| - 1]) + received[|received| - 1].increment
  }

  lemma {:induction false} SumAtLeastFirst(start: nat, received: seq<RankMessage>)
    ensures SumIncrements(start, received) >= start + if received == [] then 0 else received[0].increment
  {
    if received != [] {
      SumAtLeastFirst(start, received[..|received| - 1]);
    }
  }

  lemma PoolNone(g: Spread, j: nat)
    ensures Poolable(g, PointOf([], j)) && PoolAll(g, PointOf([], j)) == g
  {
  }

  lemma SumPositive(start: nat, received: seq<RankMessage>, i: nat)
    requires i < |received| && start + received[0].increment > 0
    ensures SumIncrements(start, received[..i]) + received[i].increment > 0
  {
    SumAtLeastFirst(start, received[..i]);
  }

  /** One more message at mesh point j. */
  lemma PoolNext(g: Spread, received: seq<RankMessage>, i: nat, j: nat)
    requires i < |received| && WideEnough(received, j + 1) && g.increment + received[0].increment > 0
    ensures Poolable(g, PointOf(received[..i], j)) && Poolable(g, PointOf(received[..i + 1], j))
    ensures PoolAll(g, PointOf(received[..i], j)).increment + received[i].increment > 0
    ensures PoolAll(g, PointOf(received[..i + 1], j))
         == PoolSpread(PoolAll(g, PointOf(received[..i], j)),
                       Spread(received[i].increment, received[i].mean[j], received[i].variance[j]))
  {
    var rs := PointOf(received[..i + 1], j);
    assert rs[..|rs| - 1] == PointOf(received[..i], j);
    assert i > 0 ==> PointOf(received[..i], j)[0].increment == received[0].increment;
  }

  /** The loop bodies of update_variance and of the fold. */
  method MergePoint(v: real, w: real, n1: nat, n2: nat, mean1: real, mean2: real) returns (r: real)
    requires n1 + n2 > 0
    ensures r == MergedField(v, w, n1, n2, mean1, mean2)
  {
    var delta := mean1 - mean2;
    var gap := (n1 * n2) as real * delta * delta / (n1 + n2) as real;
    assert gap == MeanGap(n1, n2, delta);
    hide MeanGap;
    r := v + w + gap;
  }

  method PoolPoint(globalMean: real, globalVariance: real, n: nat, mean: real, variance: real, tempInc: nat)
    returns (newMean: real, newVariance: real)
    requires n + tempInc > 0
    ensures Spread(n + tempInc, newMean, newVariance)
         == PoolSpread(Spread(n, globalMean, globalVariance), Spread(tempInc, mean, variance))
  {
    var delta := globalMean - mean;
    newMean := mean + n as real * delta / (n + tempInc) as real;
    assert newMean == UpdateMean(mean, globalMean, n, n + tempInc);
    var gap := (n * tempInc) as real * delta * delta / (n + tempInc) as real;
    assert gap == MeanGap(n, tempInc, delta);
    hide MeanGap;
    hide UpdateMean;
    newVariance := globalVariance + (variance + gap);
  }

  /** variance_t */
  class VarianceRecord {
    const meanStructure: MeanRecord
    const variance: array<real>

    ghost predicate Valid() {
      meanStructure.mean.Length == variance.Length && meanStructure.mean != variance
    }

    ghost function Repr(): set<object> {
      {meanStructure, meanStructure.mean, variance}
    }

    ghost function At(i: nat): Spread
      requires Valid() && i < variance.Length
      reads Repr()
    {
      Spread(meanStructure.increment, meanStructure.mean[i], variance[i])
    }

    constructor (vectSize: nat)
      ensures Valid() && fresh(Repr()) && variance.Length == vectSize
      ensures forall i :: 0 <= i < vectSize ==> At(i) == FoldSpread([])
    {
      meanStructure := new MeanRecord(vectSize);
      variance := new real[vectSize](_ => 0.0);
    }

    /** increment_mean_and_variance */
    method IncrementMeanAndVariance(inVect: seq<real>, vectSize: nat)
      requires Valid() && vectSize == variance.Length <= |inVect|
      modifies Repr()
      ensures forall i :: 0 <= i < vectSize ==> At(i) == IncrementSpread(old(At(i)), inVect[i])
      ensures meanStructure.increment == old(meanStructure.increment) + 1
    {
      meanStructure.IncrementMean(inVect, vectSize);
      var n := meanStructure.increment;
      if n > 1 {
        for i := 0 to vectSize
          invariant meanStructure.increment == n
          invariant forall k :: 0 <= k < vectSize ==>
                      meanStructure.mean[k] == MeanStep(old(meanStructure.mean[k]), inVect[k], n)
          invariant forall k :: 0 <= k < i ==>
                      variance[k] == VarianceStep(old(variance[k]), meanStructure.mean[k], inVect[k], n)
          invariant forall k :: i <= k < vectSize ==> variance[k] == old(variance[k])
        {
          var incr, deviation := n as real, inVect[i] - meanStructure.mean[i];
          variance[i] := variance[i] * (incr - 2.0);
          variance[i] := variance[i] + deviation * deviation * (incr / (incr - 1.0));
          variance[i] := variance[i] / (incr - 1.0);
        }
      }
    }

    /** update_variance, with this record as the output. */
    method UpdateVariance(variance1: VarianceRecord, variance2: VarianceRecord, vectSize: nat)
      requires Valid() && variance1.Valid() && variance2.Valid()
      requires Repr() !! variance1.Repr() && Repr() !! variance2.Repr()
      requires vectSize == variance.Length <= variance1.variance.Length && vectSize <= variance2.variance.Length
      requires variance1.meanStructure.increment + variance2.meanStructure.increment > 0
      modifies Repr()
      ensures forall i :: 0 <= i < vectSize ==> At(i) == UpdateSpread(variance1.At(i), variance2.At(i))
    {
      hide MergedField;
      hide UpdateMean;
      var first, second := variance1.meanStructure, variance2.meanStructure;
      meanStructure.UpdateMean(first, second, vectSize);
      for i := 0 to vectSize
        invariant meanStructure.increment == first.increment + second.increment
        invariant forall k :: 0 <= k < vectSize ==>
                    meanStructure.mean[k]
                    == UpdateMean(first.mean[k], second.mean[k], second.increment, meanStructure.increment)
        invariant forall k :: 0 <= k < i ==> At(k) == UpdateSpread(variance1.At(k), variance2.At(k))
      {
        variance[i] := MergePoint(variance1.variance[i], variance2.variance[i], first.increment, second.increment,
                                  first.mean[i], second.mean[i]);
      }
    }

    /** update_global_mean_and_variance on rank 0: the other ranks' messages arrive in rank order. */
    method UpdateGlobal(received: seq<RankMessage>, vectSize: nat)
      requires Valid() && vectSize == variance.Length && WideEnough(received, vectSize)
      requires received == [] || meanStructure.increment + received[0].increment > 0
      modifies Repr()
      ensures meanStructure.increment == SumIncrements(old(meanStructure.increment), received)
      ensures forall j :: 0 <= j < vectSize ==>
                Poolable(old(At(j)), PointOf(received, j)) && At(j) == PoolAll(old(At(j)), PointOf(received, j))
    {
      hide PoolSpread;
      hide PoolAll;
      hide PointOf;
      hide Poolable;
      ghost var start := seq(vectSize, j requires 0 <= j < vectSize reads Repr() => At(j));
      var globalMean := new real[vectSize](j requires 0 <= j < vectSize reads meanStructure, meanStructure.mean =>
        meanStructure.mean[j]);
      var globalVariance := new real[vectSize](j requires 0 <= j < vectSize reads variance => variance[j]);
      forall j | 0 <= j < vectSize
        ensures Poolable(start[j], PointOf([], j)) && PoolAll(start[j], PointOf([], j)) == start[j]
      {
        PoolNone(start[j], j);
      }
      assert received[..0] == [];
      for i := 0 to |received|
        invariant meanStructure.increment == SumIncrements(old(meanStructure.increment), received[..i])
        invariant forall j :: 0 <= j < vectSize ==>
                    && Poolable(start[j], PointOf(received[..i], j))
                    && Spread(meanStructure.increment, globalMean[j], globalVariance[j])
                       == PoolAll(start[j], PointOf(received[..i], j))
      {
        forall j | 0 <= j < vectSize
          ensures Poolable(start[j], PointOf(received[..i], j)) && Poolable(start[j], PointOf(received[..i + 1], j))
          ensures PoolAll(start[j], PointOf(received[..i], j)).increment + received[i].increment > 0
          ensures PoolAll(start[j], PointOf(received[..i + 1], j))
               == PoolSpread(PoolAll(start[j], PointOf(received[..i], j)),
                             Spread(received[i].increment, received[i].mean[j], received[i].variance[j]))
        {
          PoolNext(start[j], received, i, j);
        }
        assert received[..i + 1][..i] == received[..i];
        SumPositive(old(meanStructure.increment), received, i);
        ReceiveRank(received[i], globalMean, globalVariance, vectSize);
        meanStructure.increment := meanStructure.increment + received[i].increment;
      }
      assert received[..|received|] == received;
      forall j | 0 <= j < vectSize {
        meanStructure.mean[j] := globalMean[j];
      }
      forall j | 0 <= j < vectSize {
        variance[j] := globalVariance[j];
      }
    }

    /** One rank: its message lands in this record's arrays and is pooled into the global ones. */
    method ReceiveRank(m: RankMessage, globalMean: array<real>, globalVariance: array<real>, vectSize: nat)
      requires Valid() && vectSize == variance.Length == globalMean.Length == globalVariance.Length
      requires globalMean != globalVariance && {globalMean, globalVariance} !! Repr()
      requires |m.mean| >= vectSize && |m.variance| >= vectSize && meanStructure.increment + m.increment > 0
      modifies meanStructure.mean, variance, globalMean, globalVariance
      ensures forall j :: 0 <= j < vectSize ==>
                Spread(meanStructure.increment + m.increment, globalMean[j], globalVariance[j])
                == PoolSpread(Spread(meanStructure.increment, old(globalMean[j]), old(globalVariance[j])),
                              Spread(m.increment, m.mean[j], m.variance[j]))
    {
      hide PoolSpread;
      forall j | 0 <= j < vectSize {
        meanStructure.mean[j] := m.mean[j];
      }
      forall j | 0 <= j < vectSize {
        variance[j] := m.variance[j];
      }
      var n := meanStructure.increment;
      for j := 0 to vectSize
        invariant forall k :: 0 <= k < vectSize ==>
                    meanStructure.mean[k] == m.mean[k] && variance[k] == m.variance[k]
        invariant forall k :: j <= k < vectSize ==>
                    globalMean[k] == old(globalMean[k]) && globalVariance[k] == old(globalVariance[k])
        invariant forall k :: 0 <= k < j ==>
                    Spread(n + m.increment, globalMean[k], globalVariance[k])
                    == PoolSpread(Spread(n, old(globalMean[k]), old(globalVariance[k])),
                                  Spread(m.increment, m.mean[k], m.variance[k]))
      {
        globalMean[j], globalVariance[j] :=
          PoolPoint(globalMean[j], globalVariance[j], n, meanStructure.mean[j], variance[j], m.increment);
      }
    }
  }
}
