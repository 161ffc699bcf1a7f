/** Online raw and central moments up to order four (server/stats/general_moments.c). */
module GeneralMoments {
  import opened Samples

  /** The moments of one mesh point; orders that are not allocated stay zero. */
  datatype Cell = Cell(m1: real, m2: real, m3: real, m4: real, theta2: real, theta3: real, theta4: real)

  const ZERO_CELL := Cell(0.0, 0.0, 0.0, 0.0, 0.0, 0.0, 0.0)

  function IncrementMean(mean: real, x: real, increment: nat, power: nat): real
    requires increment > 0
  {
    mean + (Pow(x, power) - mean) / increment as real
  }

  function UpdateMean(mean1: real, mean2: real, increment2: nat, increment3: nat): real
    requires increment3 > 0
  {
    mean1 + increment2 as real * (mean2 - mean1) / increment3 as real
  }

  function Theta2(m1: real, m2: real): real {
    m2 - Pow(m1, 2)
  }

  function Theta3(m1: real, m2: real, m3: real): real {
    m3 - 3.0 * m1 * m2 + 2.0 * Pow(m1, 3)
  }

  function Theta4(m1: real, m2: real, m3: real, m4: real): real {
    m4 - 4.0 * m1 * m3 + 6.0 * Pow(m1, 2) * m2 - 3.0 * Pow(m1, 4)
  }

  /** The central moments, recomputed from the raw ones. */
  function Thetas(c: Cell, order: nat): Cell {
    c.(theta2 := if order > 1 then Theta2(c.m1, c.m2) else c.theta2,
       theta3 := if order > 2 then Theta3(c.m1, c.m2, c.m3) else c.theta3,
       theta4 := if order > 3 then Theta4(c.m1, c.m2, c.m3, c.m4) else c.theta4)
  }

  function IncrementMeans(c: Cell, x: real, increment: nat, order: nat): Cell
    requires increment > 0
  {
    c.(m1 := if order > 0 then IncrementMean(c.m1, x, increment, 1) else c.m1,
       m2 := if order > 1 then IncrementMean(c.m2, x, increment, 2) else c.m2,
       m3 := if order > 2 then IncrementMean(c.m3, x, increment, 3) else c.m3,
       m4 := if order > 3 then IncrementMean(c.m4, x, increment, 4) else c.m4)
  }

  /** One more sample at one mesh point; increment already counts it. */
  function IncrementCell(c: Cell, x: real, increment: nat, order: nat): Cell
    requires increment > 0
  {
    var d := IncrementMeans(c, x, increment, order);
    if increment > 1 then Thetas(d, order) else d
  }

  function UpdateMeans(c1: Cell, c2: Cell, c3: Cell, increment2: nat, increment3: nat, order: nat): Cell
    requires increment3 > 0
  {
    c3.(m1 := if order > 0 then UpdateMean(c1.m1, c2.m1, increment2, increment3) else c3.m1,
        m2 := if order > 1 then UpdateMean(c1.m2, c2.m2, increment2, increment3) else c3.m2,
        m3 := if order > 2 then UpdateMean(c1.m3, c2.m3, increment2, increment3) else c3.m3,
        m4 := if order > 3 then UpdateMean(c1.m4, c2.m4, increment2, increment3) else c3.m4)
  }

  /** The state after a list of samples, starting from a freshly initialised cell. */
  function FoldCell(xs: seq<real>, order: nat): Cell {
    if xs == [] then ZERO_CELL
    else IncrementCell(FoldCell(xs[..|xs| - 1], order), xs[|xs| - 1], |xs|, order)
  }

  /** Reference: every allocated moment holds its two-pass value, every other one is zero. */
  ghost predicate IsMoments(c: Cell, xs: seq<real>, order: nat)
    requires xs != []
  {
    && c.m1 == (if order > 0 then RawMoment(xs, 1) else 0.0)
    && c.m2 == (if order > 1 then RawMoment(xs, 2) else 0.0)
    && c.m3 == (if order > 2 then RawMoment(xs, 3) else 0.0)
    && c.m4 == (if order > 3 then RawMoment(xs, 4) else 0.0)
    && c.theta2 == (if order > 1 then CentralMoment(xs, 2) else 0.0)
    && c.theta3 == (if order > 2 then CentralMoment(xs, 3) else 0.0)
    && c.theta4 == (if order > 3 then CentralMoment(xs, 4) else 0.0)
  }

  lemma Recentred(mean: real, term: real, n: real)
    requires n > 0.0
    ensures mean + (term - mean) / n == (mean * (n - 1.0) + term) / n
  {
    assert mean == (mean * n) / n;
  }

  lemma Pooled(mean1: real, mean2: real, a: real, b: real)
    requires a + b > 0.0
    ensures mean1 + b * (mean2 - mean1) / (a + b) == (a * mean1 + b * mean2) / (a + b)
  {
    var n := a + b;
    assert mean1 == (n * mean1) / n;
    assert n * mean1 == a * mean1 + b * mean1;
    assert b * (mean2 - mean1) == b * mean2 - b * mean1;
  }

  lemma IncrementMeanIsRawMoment(mean: real, xs: seq<real>, p: nat)
    requires xs != []
    requires |xs| > 1 ==> mean == RawMoment(xs[..|xs| - 1], p)
    ensures IncrementMean(mean, xs[|xs| - 1], |xs|, p) == RawMoment(xs, p)
  {
    var ys, x := xs[..|xs| - 1], xs[|xs| - 1];
    assert x - 0.0 == x;
    Recentred(mean, Pow(x, p), |xs| as real);
    assert |ys| as real == |xs| as real - 1.0;
    if |xs| > 1 {
      RawMomentTimes(ys, p);
    } else {
      assert mean * |ys| as real == 0.0;
    }
  }

  lemma PooledSums(mean1: real, mean2: real, k: nat, l: nat, s1: real, s2: real)
    requires k + l > 0 && k as real * mean1 == s1 && l as real * mean2 == s2
    ensures UpdateMean(mean1, mean2, l, k + l) == (s1 + s2) / (k + l) as real
  {
    Pooled(mean1, mean2, k as real, l as real);
  }

  lemma SumOfMean(xs: seq<real>, p: nat, mean: real)
    requires xs != [] ==> mean == RawMoment(xs, p)
    ensures |xs| as real * mean == CentralSum(xs, 0.0, p)
  {
    if xs != [] {
      RawMomentTimes(xs, p);
    }
  }

  lemma RawMomentOf(xs: seq<real>, p: nat, sum: real)
    requires xs != [] && CentralSum(xs, 0.0, p) == sum
    ensures RawMoment(xs, p) == sum / |xs| as real
  {
  }

  lemma UpdateMeanIsRawMoment(mean1: real, mean2: real, xs: seq<real>, ys: seq<real>, p: nat)
    requires xs + ys != []
    requires xs != [] ==> mean1 == RawMoment(xs, p)
    requires ys != [] ==> mean2 == RawMoment(ys, p)
    ensures UpdateMean(mean1, mean2, |ys|, |xs| + |ys|) == RawMoment(xs + ys, p)
  {
    hide *;
    CentralSumConcat(xs, ys, 0.0, p);
    SumOfMean(xs, p, mean1);
    SumOfMean(ys, p, mean2);
    PooledSums(mean1, mean2, |xs|, |ys|, CentralSum(xs, 0.0, p), CentralSum(ys, 0.0, p));
    RawMomentOf(xs + ys, p, CentralSum(xs, 0.0, p) + CentralSum(ys, 0.0, p));
  }

  /** The theta formulas turn raw moments into central moments. */
  lemma ThetasAreCentral(c: Cell, xs: seq<real>, order: nat)
    requires xs != [] && order <= 4
    requires order > 0 ==> c.m1 == RawMoment(xs, 1)
    requires order > 1 ==> c.m2 == RawMoment(xs, 2)
    requires order > 2 ==> c.m3 == RawMoment(xs, 3)
    requires order > 3 ==> c.m4 == RawMoment(xs, 4)
    ensures order > 1 ==> Thetas(c, order).theta2 == CentralMoment(xs, 2)
    ensures order > 2 ==> Thetas(c, order).theta3 == CentralMoment(xs, 3)
    ensures order > 3 ==> Thetas(c, order).theta4 == CentralMoment(xs, 4)
  {
    Powers(c.m1);
    if order > 1 {
      CentralMoment2(xs, c.m1, c.m2);
    }
    if order > 2 {
      CentralMoment3(xs, c.m1, c.m2, c.m3);
    }
    if order > 3 {
      CentralMoment4(xs, c.m1, c.m2, c.m3, c.m4);
    }
  }

  lemma SingleSampleIsCentred(x: real, p: nat)
    requires p > 0
    ensures CentralMoment([x], p) == 0.0
  {
    assert [x][..0] == [];
    assert Pow(x, 1) == x * Pow(x, 0) == x;
    assert x - 0.0 == x;
    assert CentralSum([x], 0.0, 1) == CentralSum([], 0.0, 1) + Pow(x - 0.0, 1);
    assert Mean([x]) == x;
    assert CentralSum([x], x, p) == Pow(x - x, p) == 0.0 * Pow(0.0, p - 1);
  }

  /** Main result: the one-pass state equals the two-pass moments after any samples, at every order. */
  lemma {:induction false} FoldCellIsMoments(xs: seq<real>, order: nat)
    requires xs != [] && order <= 4
    ensures IsMoments(FoldCell(xs, order), xs, order)
  {
    var n, ys := |xs|, xs[..|xs| - 1];
    if n > 1 {
      FoldCellIsMoments(ys, order);
    }
    FoldedMeans(xs, order);
    if n > 1 {
      ThetasAreCentral(IncrementMeans(FoldCell(ys, order), xs[n - 1], n, order), xs, order);
    } else {
      assert xs == [xs[0]];
      SingleSampleIsCentred(xs[0], 2);
      SingleSampleIsCentred(xs[0], 3);
      SingleSampleIsCentred(xs[0], 4);
    }
  }

  lemma FoldedMeanTimesCount(c: seq<real>, order: nat)
    requires 0 < order <= 4
    ensures FoldCell(c, order).m1 * |c| as real == CentralSum(c, 0.0, 1)
  {
    if c != [] {
      FoldCellIsMoments(c, order);
      RawMomentTimes(c, 1);
    }
  }

  lemma FoldedMeans(xs: seq<real>, order: nat)
    requires xs != []
    requires |xs| > 1 ==> IsMoments(FoldCell(xs[..|xs| - 1], order), xs[..|xs| - 1], order)
    ensures var c := IncrementMeans(FoldCell(xs[..|xs| - 1], order), xs[|xs| - 1], |xs|, order);
            && (order > 0 ==> c.m1 == RawMoment(xs, 1))
            && (order > 1 ==> c.m2 == RawMoment(xs, 2))
            && (order > 2 ==> c.m3 == RawMoment(xs, 3))
            && (order > 3 ==> c.m4 == RawMoment(xs, 4))
  {
    var c := FoldCell(xs[..|xs| - 1], order);
    if order > 0 {
      IncrementMeanIsRawMoment(c.m1, xs, 1);
    }
    if order > 1 {
      IncrementMeanIsRawMoment(c.m2, xs, 2);
    }
    if order > 2 {
      IncrementMeanIsRawMoment(c.m3, xs, 3);
    }
    if order > 3 {
      IncrementMeanIsRawMoment(c.m4, xs, 4);
    }
  }

  /** Merging two states; the thetas are recomputed whatever the sample count. */
  function UpdateCell(c1: Cell, c2: Cell, c3: Cell, increment2: nat, increment3: nat, order: nat): Cell
    requires increment3 > 0
  {
    Thetas(UpdateMeans(c1, c2, c3, increment2, increment3, order), order)
  }

  lemma MomentsDetermineCell(c: Cell, d: Cell, xs: seq<real>, order: nat)
    requires xs != [] && IsMoments(c, xs, order) && IsMoments(d, xs, order)
    ensures c == d
  {
  }

  /** Main result: merging the states of two sample lists gives the state of their concatenation. */
  lemma MergeIsConcatenation(xs: seq<real>, ys: seq<real>, order: nat)
    requires xs + ys != [] && order <= 4
    ensures UpdateCell(FoldCell(xs, order), FoldCell(ys, order), ZERO_CELL, |ys|, |xs| + |ys|, order)
         == FoldCell(xs + ys, order)
  {
    var c1, c2 := FoldCell(xs, order), FoldCell(ys, order);
    var c := UpdateMeans(c1, c2, ZERO_CELL, |ys|, |xs| + |ys|, order);
    if xs != [] {
      FoldCellIsMoments(xs, order);
    }
    if ys != [] {
      FoldCellIsMoments(ys, order);
    }
    if order > 0 {
      UpdateMeanIsRawMoment(c1.m1, c2.m1, xs, ys, 1);
    }
    if order > 1 {
      UpdateMeanIsRawMoment(c1.m2, c2.m2, xs, ys, 2);
    }
    if order > 2 {
      UpdateMeanIsRawMoment(c1.m3, c2.m3, xs, ys, 3);
    }
    if order > 3 {
      UpdateMeanIsRawMoment(c1.m4, c2.m4, xs, ys, 4);
    }
    ThetasAreCentral(c, xs + ys, order);
    FoldCellIsMoments(xs + ys, order);
    MomentsDetermineCell(Thetas(c, order), FoldCell(xs + ys, order), xs + ys, order);
  }

  /** The state depends on the multiset of samples only. */
  lemma FoldCellPermutation(xs: seq<real>, ys: seq<real>, order: nat)
    requires multiset(xs) == multiset(ys) && order <= 4
    ensures FoldCell(xs, order) == FoldCell(ys, order)
  {
    assert |xs| == |multiset(xs)| == |multiset(ys)| == |ys|;
    if xs != [] {
      FoldCellIsMoments(xs, order);
      FoldCellIsMoments(ys, order);
      forall a: real, p: nat ensures CentralSum(xs, a, p) == CentralSum(ys, a, p) {
        CentralSumPermutation(xs, ys, a, p);
      }
      assert RawMoment(xs, 1) == RawMoment(ys, 1) && RawMoment(xs, 2) == RawMoment(ys, 2);
      assert RawMoment(xs, 3) == RawMoment(ys, 3) && RawMoment(xs, 4) == RawMoment(ys, 4);
      assert CentralMoment(xs, 2) == CentralMoment(ys, 2);
      assert CentralMoment(xs, 3) == CentralMoment(ys, 3);
      assert CentralMoment(xs, 4) == CentralMoment(ys, 4);
      MomentsDetermineCell(FoldCell(xs, order), FoldCell(ys, order), ys, order);
    }
  }

  function VarianceOf(theta2: real, increment: nat): real
    requires increment > 1
  {
    theta2 * increment as real / (increment - 1) as real
  }

  /** compute_variance on an accumulated state is the two-pass unbiased variance. */
  lemma VarianceOfTheta(xs: seq<real>, order: nat)
    requires |xs| >= 2 && 2 <= order <= 4
    ensures VarianceOf(FoldCell(xs, order).theta2, |xs|) == UnbiasedVariance(xs)
  {
    FoldCellIsMoments(xs, order);
    assert CentralMoment(xs, 2) * |xs| as real == SquaredDeviations(xs);
  }

  /** moments_t: arrays above max_order are not allocated. */
  class MomentsRecord {
    const size: nat
    var m1: array<real>
    var m2: array<real>
    var m3: array<real>
    var m4: array<real>
    var theta2: array<real>
    var theta3: array<real>
    var theta4: array<real>
    var increment: nat
    var maxOrder: nat

    ghost predicate Valid()
      reads this
    {
      && maxOrder <= 4
      && m1.Length == (if maxOrder > 0 then size else 0)
      && m2.Length == theta2.Length == (if maxOrder > 1 then size else 0)
      && m3.Length == theta3.Length == (if maxOrder > 2 then size else 0)
      && m4.Length == theta4.Length == (if maxOrder > 3 then size else 0)
      && m1 != m2 && m1 != m3 && m1 != m4 && m1 != theta2 && m1 != theta3 && m1 != theta4
      && m2 != m3 && m2 != m4 && m2 != theta2 && m2 != theta3 && m2 != theta4
      && m3 != m4 && m3 != theta2 && m3 != theta3 && m3 != theta4
      && m4 != theta2 && m4 != theta3 && m4 != theta4
      && theta2 != theta3 && theta2 != theta4 && theta3 != theta4
    }

    ghost function Repr(): set<object>
      reads this
    {
      {this, m1, m2, m3, m4, theta2, theta3, theta4}
    }

    /** The state of mesh point i. */
    ghost function CellAt(i: nat): Cell
      reads this, m1, m2, m3, m4, theta2, theta3, theta4
      requires Valid() && i < size
    {
      Cell(if maxOrder > 0 then m1[i] else 0.0,
           if maxOrder > 1 then m2[i] else 0.0,
           if maxOrder > 2 then m3[i] else 0.0,
           if maxOrder > 3 then m4[i] else 0.0,
           if maxOrder > 1 then theta2[i] else 0.0,
           if maxOrder > 2 then theta3[i] else 0.0,
           if maxOrder > 3 then theta4[i] else 0.0)
    }

    constructor (vectSize: nat, order: nat)
      requires order <= 4
      ensures Valid() && fresh(Repr()) && size == vectSize && maxOrder == order && increment == 0
      ensures forall i: nat :: i < size ==> CellAt(i) == FoldCell([], order)
    {
      size := vectSize;
      m1 := new real[if order > 0 then vectSize else 0](_ => 0.0);
      m2 := new real[if order > 1 then vectSize else 0](_ => 0.0);
      theta2 := new real[if order > 1 then vectSize else 0](_ => 0.0);
      m3 := new real[if order > 2 then vectSize else 0](_ => 0.0);
      theta3 := new real[if order > 2 then vectSize else 0](_ => 0.0);
      m4 := new real[if order > 3 then vectSize else 0](_ => 0.0);
      theta4 := new real[if order > 3 then vectSize else 0](_ => 0.0);
      increment := 0;
      maxOrder := order;
    }

    /** The shared loop of the four mean updates. */
    static method IncrementMomentsMean(mean: array<real>, inVect: seq<real>, vectSize: nat, increment: nat, power: nat)
      requires vectSize <= mean.Length && vectSize <= |inVect| && increment > 0
      modifies mean
      ensures forall i :: 0 <= i < mean.Length ==>
                mean[i] == if i < vectSize then IncrementMean(old(mean[i]), inVect[i], increment, power)
                           else old(mean[i])
    {
      for i := 0 to vectSize
        invariant forall k :: 0 <= k < i ==> mean[k] == IncrementMean(old(mean[k]), inVect[k], increment, power)
        invariant forall k :: i <= k < mean.Length ==> mean[k] == old(mean[k])
      {
        mean[i] := mean[i] + (Pow(inVect[i], power) - mean[i]) / increment as real;
      }
    }

    /** The central moments, recomputed from the raw ones. */
    method ComputeThetas(vectSize: nat)
      requires Valid() && vectSize <= size
      modifies theta2, theta3, theta4
      ensures Valid()
      ensures forall i: nat :: i < size ==>
                CellAt(i) == if i < vectSize then Thetas(old(CellAt(i)), maxOrder) else old(CellAt(i))
    {
      for i := 0 to vectSize
        invariant forall k: nat :: k < i ==> CellAt(k) == Thetas(old(CellAt(k)), maxOrder)
        invariant forall k: nat :: i <= k < size ==> CellAt(k) == old(CellAt(k))
      {
        if maxOrder > 1 {
          theta2[i] := Theta2(m1[i], m2[i]);
        }
        if maxOrder > 2 {
          theta3[i] := Theta3(m1[i], m2[i], m3[i]);
        }
        if maxOrder > 3 {
          theta4[i] := Theta4(m1[i], m2[i], m3[i], m4[i]);
        }
      }
    }

    method IncrementMoments(inVect: seq<real>, vectSize: nat)
      requires Valid() && vectSize <= size && vectSize <= |inVect|
      modifies Repr()
      ensures Valid() && Repr() == old(Repr()) && maxOrder == old(maxOrder)
      ensures increment == old(increment) + 1
      ensures forall i: nat :: i < size ==>
                CellAt(i) == if i < vectSize then IncrementCell(old(CellAt(i)), inVect[i], increment, maxOrder)
                             else old(CellAt(i))
    {
      increment := increment + 1;
      if maxOrder < 1 {
        return;
      }
      IncrementMomentsMean(m1, inVect, vectSize, increment, 1);
      if maxOrder > 1 {
        IncrementMomentsMean(m2, inVect, vectSize, increment, 2);
      }
      if maxOrder > 2 {
        IncrementMomentsMean(m3, inVect, vectSize, increment, 3);
      }
      if maxOrder > 3 {
        IncrementMomentsMean(m4, inVect, vectSize, increment, 4);
      }
      if increment > 1 {
        ComputeThetas(vectSize);
      }
    }

    static method UpdateMomentsMean(mean1: array<real>, mean2: array<real>, mean: array<real>,
                                    increment2: nat, increment3: nat, vectSize: nat)
      requires vectSize <= mean1.Length && vectSize <= mean2.Length && vectSize <= mean.Length && increment3 > 0
      requires mean != mean1 && mean != mean2
      modifies mean
      ensures forall i :: 0 <= i < mean.Length ==>
                mean[i] == if i < vectSize then UpdateMean(mean1[i], mean2[i], increment2, increment3) else old(mean[i])
    {
      for i := 0 to vectSize
        invariant forall k :: 0 <= k < i ==> mean[k] == UpdateMean(mean1[k], mean2[k], increment2, increment3)
        invariant forall k :: i <= k < mean.Length ==> mean[k] == old(mean[k])
      {
        mean[i] := mean1[i] + increment2 as real * (mean2[i] - mean1[i]) / increment3 as real;
      }
    }

    /** update_moments, with this record as the output; the central moments are recomputed for any count. */
    method UpdateMoments(moments1: MomentsRecord, moments2: MomentsRecord, vectSize: nat)
      requires Valid() && moments1.Valid() && moments2.Valid()
      requires Repr() !! moments1.Repr() && Repr() !! moments2.Repr()
      requires maxOrder == moments1.maxOrder == moments2.maxOrder
      requires vectSize == size == moments1.size == moments2.size && moments1.increment + moments2.increment > 0
      modifies Repr()
      ensures Valid() && Repr() == old(Repr()) && maxOrder == old(maxOrder)
      ensures increment == moments1.increment + moments2.increment
      ensures forall i: nat :: i < size ==>
                CellAt(i) == UpdateCell(moments1.CellAt(i), moments2.CellAt(i), old(CellAt(i)),
                                        moments2.increment, increment, maxOrder)
    {
      increment := moments1.increment + moments2.increment;
      if maxOrder < 1 {
        return;
      }
      UpdateAllMeans(moments1, moments2, vectSize);
      hide UpdateMeans;
      hide Thetas;
      ComputeThetas(vectSize);
    }

    /** The four means, as far as they are allocated. */
    method UpdateAllMeans(moments1: MomentsRecord, moments2: MomentsRecord, vectSize: nat)
      requires Valid() && moments1.Valid() && moments2.Valid()
      requires Repr() !! moments1.Repr() && Repr() !! moments2.Repr()
      requires maxOrder == moments1.maxOrder == moments2.maxOrder
      requires vectSize == size == moments1.size == moments2.size && increment > 0
      modifies m1, m2, m3, m4
      ensures forall i: nat :: i < size ==>
                CellAt(i) == UpdateMeans(moments1.CellAt(i), moments2.CellAt(i), old(CellAt(i)),
                                         moments2.increment, increment, maxOrder)
    {
      hide UpdateMean;
      if maxOrder > 0 {
        UpdateMomentsMean(moments1.m1, moments2.m1, m1, moments2.increment, increment, vectSize);
      }
      if maxOrder > 1 {
        UpdateMomentsMean(moments1.m2, moments2.m2, m2, moments2.increment, increment, vectSize);
      }
      if maxOrder > 2 {
        UpdateMomentsMean(moments1.m3, moments2.m3, m3, moments2.increment, increment, vectSize);
      }
      if maxOrder > 3 {
        UpdateMomentsMean(moments1.m4, moments2.m4, m4, moments2.increment, increment, vectSize);
      }
    }

    /** The unbiased variance of every mesh point. */
    method ComputeVariance(variance: array<real>, vectSize: nat)
      requires Valid() && vectSize <= size && vectSize <= variance.Length && maxOrder > 1 && increment > 1
      requires variance !in Repr()
      modifies variance
      ensures forall i, xs :: 0 <= i < vectSize && |xs| == increment && CellAt(i) == FoldCell(xs, maxOrder) ==>
                variance[i] == UnbiasedVariance(xs)
    {
      for i := 0 to vectSize
        invariant forall k :: 0 <= k < i ==> variance[k] == VarianceOf(theta2[k], increment)
      {
        variance[i] := VarianceOf(theta2[i], increment);
      }
      forall i, xs | 0 <= i < vectSize && |xs| == increment && CellAt(i) == FoldCell(xs, maxOrder)
        ensures variance[i] == UnbiasedVariance(xs)
      {
        VarianceOfTheta(xs, maxOrder);
      }
    }
  }
}
