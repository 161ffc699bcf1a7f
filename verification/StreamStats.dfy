/** Statistics of one stream, i.e. one (field, client rank) pair on one server rank
    (compute_stats of server/compute_stats.c and the step_simu bitmap of server/server.cxx). */
module StreamStats {
  import opened Sequences
  import opened GeneralMoments

  datatype Options = Options(nbTimeSteps: nat, samplingSize: nat, order: nat, minMaxOp: bool,
                             thresholds: seq<real>, sobol: bool)
  {
    predicate Valid() {
      order <= 4
    }
  }

  datatype MinMax = MinMax(isInit: bool, min: seq<real>, max: seq<real>)

  /** The statistics of one time step; the vectors have the length that was allocated. */
  datatype StepStats = StepStats(increment: nat, cells: seq<Cell>, minMax: MinMax, exceed: seq<seq<nat>>)

  /** One message: the solution vectors of one simulation (or Sobol group) at one time step. */
  datatype Data = Data(time: nat, simu: nat, vectors: seq<seq<real>>)

  datatype Stream =
    | NoStream
    | Stream(vectSize: nat, received: seq<set<nat>>, steps: seq<StepStats>)

  // ---- statistics of one time step ----

  function FreshStats(o: Options, alloc: nat): StepStats {
    StepStats(0, seq(alloc, _ => ZERO_CELL), MinMax(false, seq(alloc, _ => 0.0), seq(alloc, _ => 0.0)),
              seq(|o.thresholds|, _ => seq(alloc, _ => 0)))
  }

  predicate HasSize(o: Options, s: StepStats, alloc: nat) {
    && |s.cells| == |s.minMax.min| == |s.minMax.max| == alloc
    && |s.exceed| == |o.thresholds|
    && forall i :: 0 <= i < |s.exceed| ==> |s.exceed[i]| == alloc
  }

  /** increment_moments on the first vectSize points. */
  function MomentsWith(o: Options, s: StepStats, x: seq<real>, vectSize: nat): seq<Cell>
    requires vectSize <= |x|
  {
    seq(|s.cells|, k requires 0 <= k < |s.cells| =>
      if k < vectSize then IncrementCell(s.cells[k], x[k], s.increment + 1, o.order) else s.cells[k])
  }

  /** min_and_max: the first vector is copied, later ones are compared. */
  function MinMaxWith(m: MinMax, x: seq<real>, vectSize: nat): MinMax
    requires vectSize <= |x|
  {
    MinMax(true,
           seq(|m.min|, k requires 0 <= k < |m.min| =>
             if k < vectSize && (!m.isInit || m.min[k] > x[k]) then x[k] else m.min[k]),
           seq(|m.max|, k requires 0 <= k < |m.max| =>
             if k < vectSize && (!m.isInit || m.max[k] < x[k]) then x[k] else m.max[k]))
  }

  /** update_threshold_exceedance for one threshold. */
  function ExceedWith(e: seq<nat>, value: real, x: seq<real>, vectSize: nat): seq<nat>
    requires vectSize <= |x|
  {
    seq(|e|, k requires 0 <= k < |e| => if k < vectSize && x[k] > value then e[k] + 1 else e[k])
  }

  function AddVector(o: Options, s: StepStats, x: seq<real>, vectSize: nat): StepStats
    requires vectSize <= |x| && |s.exceed| == |o.thresholds|
  {
    StepStats(s.increment + 1, MomentsWith(o, s, x, vectSize),
              if o.minMaxOp then MinMaxWith(s.minMax, x, vectSize) else s.minMax,
              seq(|s.exceed|, i requires 0 <= i < |s.exceed| => ExceedWith(s.exceed[i], o.thresholds[i], x, vectSize)))
  }

  predicate AllSized(xs: seq<seq<real>>, vectSize: nat) {
    forall i :: 0 <= i < |xs| ==> |xs[i]| >= vectSize
  }

  function AddVectors(o: Options, s: StepStats, xs: seq<seq<real>>, vectSize: nat): (r: StepStats)
    requires AllSized(xs, vectSize) && |s.exceed| == |o.thresholds|
    ensures |r.exceed| == |o.thresholds|
  {
    if xs == [] then s
    else AddVector(o, AddVectors(o, s, xs[..|xs| - 1], vectSize), xs[|xs| - 1], vectSize)
  }

  /** The vectors of a message that compute_stats folds into moments, min/max and thresholds. */
  function Folded(o: Options, m: Data): seq<seq<real>>
    requires |m.vectors| >= if o.sobol then 2 else 1
  {
    if o.sobol then [m.vectors[0], m.vectors[1]] else [m.vectors[0]]
  }

  // ---- two-pass reference ----

  function Column(xs: seq<seq<real>>, k: nat): (c: seq<real>)
    requires forall i :: 0 <= i < |xs| ==> k < |xs[i]|
    ensures |c| == |xs|
  {
    if xs == [] then [] else Column(xs[..|xs| - 1], k) + [xs[|xs| - 1][k]]
  }

  ghost predicate IsMin(v: real, xs: seq<real>) {
    v in xs && forall x :: x in xs ==> v <= x
  }

  ghost predicate IsMax(v: real, xs: seq<real>) {
    v in xs && forall x :: x in xs ==> x <= v
  }

  function CountAbove(xs: seq<real>, value: real): nat {
    if xs == [] then 0 else CountAbove(xs[..|xs| - 1], value) + if xs[|xs| - 1] > value then 1 else 0
  }

  /** The state holds the statistics of exactly the samples xs at every point. */
  ghost predicate Summarises(o: Options, s: StepStats, xs: seq<seq<real>>, vectSize: nat)
    requires AllSized(xs, vectSize)
  {
    && HasSize(o, s, vectSize)
    && s.increment == |xs|
    && (forall k :: 0 <= k < vectSize ==> s.cells[k] == FoldCell(Column(xs, k), o.order))
    && s.minMax.isInit == (o.minMaxOp && xs != [])
    && (s.minMax.isInit ==> forall k :: 0 <= k < vectSize ==>
         IsMin(s.minMax.min[k], Column(xs, k)) && IsMax(s.minMax.max[k], Column(xs, k)))
    && forall i, k :: 0 <= i < |o.thresholds| && 0 <= k < vectSize ==>
         s.exceed[i][k] == CountAbove(Column(xs, k), o.thresholds[i])
  }

  lemma ColumnAppend(xs: seq<seq<real>>, x: seq<real>, k: nat)
    requires (forall i :: 0 <= i < |xs| ==> k < |xs[i]|) && k < |x|
    ensures Column(xs + [x], k) == Column(xs, k) + [x[k]]
  {
    assert (xs + [x])[..|xs|] == xs;
  }

  lemma FoldAppend(c: seq<real>, x: real, order: nat, value: real)
    ensures FoldCell(c + [x], order) == IncrementCell(FoldCell(c, order), x, |c| + 1, order)
    ensures CountAbove(c + [x], value) == CountAbove(c, value) + if x > value then 1 else 0
  {
    assert (c + [x])[..|c|] == c;
  }

  lemma MomentsSummarise(o: Options, s: StepStats, xs: seq<seq<real>>, x: seq<real>, vectSize: nat, k: nat)
    requires AllSized(xs, vectSize) && |x| >= vectSize && Summarises(o, s, xs, vectSize) && k < vectSize
    ensures MomentsWith(o, s, x, vectSize)[k] == FoldCell(Column(xs + [x], k), o.order)
  {
    ColumnAppend(xs, x, k);
    FoldAppend(Column(xs, k), x[k], o.order, 0.0);
  }

  lemma MinMaxSummarises(o: Options, s: StepStats, xs: seq<seq<real>>, x: seq<real>, vectSize: nat, k: nat)
    requires AllSized(xs, vectSize) && |x| >= vectSize && Summarises(o, s, xs, vectSize) && k < vectSize
    requires o.minMaxOp
    ensures var r := MinMaxWith(s.minMax, x, vectSize);
            IsMin(r.min[k], Column(xs + [x], k)) && IsMax(r.max[k], Column(xs + [x], k))
  {
    ColumnAppend(xs, x, k);
    var c := Column(xs, k);
    assert forall v :: v in c + [x[k]] <==> v in c || v == x[k];
    if !s.minMax.isInit {
      assert c == [];
    }
  }

  lemma ExceedSummarises(o: Options, s: StepStats, xs: seq<seq<real>>, x: seq<real>, vectSize: nat, i: nat, k: nat)
    requires AllSized(xs, vectSize) && |x| >= vectSize && Summarises(o, s, xs, vectSize)
    requires i < |o.thresholds| && k < vectSize
    ensures ExceedWith(s.exceed[i], o.thresholds[i], x, vectSize)[k] == CountAbove(Column(xs + [x], k), o.thresholds[i])
  {
    ColumnAppend(xs, x, k);
    FoldAppend(Column(xs, k), x[k], o.order, o.thresholds[i]);
  }

  /** Folding one vector in keeps the summary. */
  lemma AddVectorSummarises(o: Options, s: StepStats, xs: seq<seq<real>>, x: seq<real>, vectSize: nat)
    requires AllSized(xs, vectSize) && |x| >= vectSize && Summarises(o, s, xs, vectSize)
    ensures Summarises(o, AddVector(o, s, x, vectSize), xs + [x], vectSize)
  {
    hide FoldCell;
    hide Column;
    hide CountAbove;
    hide IncrementCell;
    var r := AddVector(o, s, x, vectSize);
    forall k | 0 <= k < vectSize
      ensures r.cells[k] == FoldCell(Column(xs + [x], k), o.order)
    {
      MomentsSummarise(o, s, xs, x, vectSize, k);
    }
    if o.minMaxOp {
      forall k | 0 <= k < vectSize
        ensures IsMin(r.minMax.min[k], Column(xs + [x], k)) && IsMax(r.minMax.max[k], Column(xs + [x], k))
      {
        MinMaxSummarises(o, s, xs, x, vectSize, k);
      }
    }
    forall i, k | 0 <= i < |o.thresholds| && 0 <= k < vectSize
      ensures r.exceed[i][k] == CountAbove(Column(xs + [x], k), o.thresholds[i])
    {
      ExceedSummarises(o, s, xs, x, vectSize, i, k);
    }
  }

  lemma {:induction false} AddVectorsSummarises(o: Options, s: StepStats, ws: seq<seq<real>>, xs: seq<seq<real>>,
                                                vectSize: nat)
    requires AllSized(ws, vectSize) && AllSized(xs, vectSize) && Summarises(o, s, ws, vectSize)
    ensures Summarises(o, AddVectors(o, s, xs, vectSize), ws + xs, vectSize)
  {
    if xs == [] {
      assert ws + xs == ws;
    } else {
      var ys, x := xs[..|xs| - 1], xs[|xs| - 1];
      AddVectorsSummarises(o, s, ws, ys, vectSize);
      AddVectorSummarises(o, AddVectors(o, s, ys, vectSize), ws + ys, x, vectSize);
      assert ws + xs == (ws + ys) + [x];
    }
  }

  lemma FreshSummarises(o: Options, vectSize: nat)
    ensures Summarises(o, FreshStats(o, vectSize), [], vectSize)
  {
  }

  lemma {:induction false} ColumnPermutation(xs: seq<seq<real>>, ys: seq<seq<real>>, k: nat)
    requires multiset(xs) == multiset(ys)
    requires (forall i :: 0 <= i < |xs| ==> k < |xs[i]|) && forall i :: 0 <= i < |ys| ==> k < |ys[i]|
    ensures multiset(Column(xs, k)) == multiset(Column(ys, k))
  {
    SameLength(xs, ys);
    if xs != [] {
      var j := MatchLast(xs, ys);
      ColumnPermutation(xs[..|xs| - 1], ys[..j] + ys[j + 1..], k);
      ColumnMiddle(ys, j, k);
    }
  }

  lemma {:induction false} ColumnConcat(xs: seq<seq<real>>, ys: seq<seq<real>>, k: nat)
    requires (forall i :: 0 <= i < |xs| ==> k < |xs[i]|) && forall i :: 0 <= i < |ys| ==> k < |ys[i]|
    ensures Column(xs + ys, k) == Column(xs, k) + Column(ys, k)
  {
    if ys == [] {
      assert xs + ys == xs;
    } else {
      assert (xs + ys)[..|xs + ys| - 1] == xs + ys[..|ys| - 1];
      ColumnConcat(xs, ys[..|ys| - 1], k);
    }
  }

  lemma ColumnMiddle(ys: seq<seq<real>>, j: nat, k: nat)
    requires j < |ys| && forall i :: 0 <= i < |ys| ==> k < |ys[i]|
    ensures multiset(Column(ys, k)) == multiset(Column(ys[..j] + ys[j + 1..], k)) + multiset{ys[j][k]}
  {
    assert ys == ys[..j] + [ys[j]] + ys[j + 1..];
    ColumnAppend(ys[..j], ys[j], k);
    ColumnConcat(ys[..j] + [ys[j]], ys[j + 1..], k);
    ColumnConcat(ys[..j], ys[j + 1..], k);
  }

  lemma {:induction false} CountAbovePermutation(xs: seq<real>, ys: seq<real>, value: real)
    requires multiset(xs) == multiset(ys)
    ensures CountAbove(xs, value) == CountAbove(ys, value)
  {
    SameLength(xs, ys);
    if xs != [] {
      var j := MatchLast(xs, ys);
      CountAbovePermutation(xs[..|xs| - 1], ys[..j] + ys[j + 1..], value);
      CountMiddle(ys, j, value);
    }
  }

  lemma {:induction false} CountConcat(xs: seq<real>, ys: seq<real>, value: real)
    ensures CountAbove(xs + ys, value) == CountAbove(xs, value) + CountAbove(ys, value)
  {
    if ys == [] {
      assert xs + ys == xs;
    } else {
      assert (xs + ys)[..|xs + ys| - 1] == xs + ys[..|ys| - 1];
      CountConcat(xs, ys[..|ys| - 1], value);
    }
  }

  lemma CountMiddle(ys: seq<real>, j: nat, value: real)
    requires j < |ys|
    ensures CountAbove(ys, value) == CountAbove(ys[..j] + ys[j + 1..], value) + if ys[j] > value then 1 else 0
  {
    assert ys == (ys[..j] + [ys[j]]) + ys[j + 1..];
    assert (ys[..j] + [ys[j]])[..j] == ys[..j];
    CountConcat(ys[..j] + [ys[j]], ys[j + 1..], value);
    CountConcat(ys[..j], ys[j + 1..], value);
  }

  /** The statistics do not depend on the order of the samples. */
  lemma SummaryPermutation(o: Options, s: StepStats, r: StepStats, xs: seq<seq<real>>, ys: seq<seq<real>>,
                           vectSize: nat)
    requires o.Valid() && AllSized(xs, vectSize) && AllSized(ys, vectSize) && multiset(xs) == multiset(ys)
    requires Summarises(o, s, xs, vectSize) && Summarises(o, r, ys, vectSize)
    ensures s.increment == r.increment && s.cells == r.cells && s.exceed == r.exceed
    ensures s.minMax.isInit == r.minMax.isInit && (s.minMax.isInit ==> s.minMax == r.minMax)
  {
    SameLength(xs, ys);
    forall k | 0 <= k < vectSize
      ensures s.cells[k] == r.cells[k]
      ensures s.minMax.isInit ==> s.minMax.min[k] == r.minMax.min[k] && s.minMax.max[k] == r.minMax.max[k]
    {
      var c, d := Column(xs, k), Column(ys, k);
      ColumnPermutation(xs, ys, k);
      FoldCellPermutation(c, d, o.order);
      SameElements(c, d);
    }
    forall i | 0 <= i < |o.thresholds|
      ensures s.exceed[i] == r.exceed[i]
    {
      forall k | 0 <= k < vectSize
        ensures s.exceed[i][k] == r.exceed[i][k]
      {
        ColumnPermutation(xs, ys, k);
        CountAbovePermutation(Column(xs, k), Column(ys, k), o.thresholds[i]);
      }
    }
  }

  lemma SameElements<T>(c: seq<T>, d: seq<T>)
    requires multiset(c) == multiset(d)
    ensures forall x :: x in c <==> x in d
  {
    forall x ensures x in c <==> x in d {
      assert x in c <==> x in multiset(c);
      assert x in d <==> x in multiset(d);
    }
  }
}
