/** Checkpoint files of one stream (save_stats, read_saved_stats of server/melissa_io.c, save_moments and
    read_moments of server/stats/general_moments.c) and recovery after a crash. */
module Checkpoint {
  import opened GeneralMoments
  import opened StreamStats
  import opened ExactlyOnce

  /** What one fwrite puts into a file. */
  datatype Chunk = Int(n: nat) | Doubles(v: seq<real>) | Ints(w: seq<nat>) | Flag(b: bool) | Bits(s: set<nat>)

  // ---- file layout ----

  function RawOf(cells: seq<Cell>, p: nat): seq<real> {
    seq(|cells|, k requires 0 <= k < |cells| =>
      if p == 1 then cells[k].m1 else if p == 2 then cells[k].m2 else if p == 3 then cells[k].m3 else cells[k].m4)
  }

  /** One time step of save_moments: the central moments are not written. */
  function MomentChunks(order: nat, s: StepStats): seq<Chunk> {
    [Int(order)]
    + (if order > 0 then [Doubles(RawOf(s.cells, 1))] else [])
    + (if order > 1 then [Doubles(RawOf(s.cells, 2))] else [])
    + (if order > 2 then [Doubles(RawOf(s.cells, 3))] else [])
    + (if order > 3 then [Doubles(RawOf(s.cells, 4))] else [])
    + [Int(s.increment)]
  }

  function MomentsFrom(o: Options, steps: seq<StepStats>, t: nat): seq<Chunk>
    requires t <= |steps|
    decreases |steps| - t
  {
    if t == |steps| then [] else MomentChunks(o.order, steps[t]) + MomentsFrom(o, steps, t + 1)
  }

  function MinMaxFrom(steps: seq<StepStats>, t: nat): seq<Chunk>
    requires t <= |steps|
    decreases |steps| - t
  {
    if t == |steps| then []
    else
      [Doubles(steps[t].minMax.min), Doubles(steps[t].minMax.max), Flag(steps[t].minMax.isInit)]
      + MinMaxFrom(steps, t + 1)
  }

  /** Every threshold is followed by its counts. */
  function ExceedFrom(values: seq<real>, e: seq<seq<nat>>, i: nat): seq<Chunk>
    requires i <= |e| == |values|
    decreases |e| - i
  {
    if i == |e| then [] else [Doubles([values[i]]), Ints(e[i])] + ExceedFrom(values, e, i + 1)
  }

  predicate CountsAll(values: seq<real>, steps: seq<StepStats>) {
    forall t :: 0 <= t < |steps| ==> |steps[t].exceed| == |values|
  }

  function ThresholdsFrom(values: seq<real>, steps: seq<StepStats>, t: nat): seq<Chunk>
    requires t <= |steps| && CountsAll(values, steps)
    decreases |steps| - t
  {
    if t == |steps| then [] else ExceedFrom(values, steps[t].exceed, 0) + ThresholdsFrom(values, steps, t + 1)
  }

  function BitsFrom(received: seq<set<nat>>, j: nat): seq<Chunk>
    requires j <= |received|
    decreases |received| - j
  {
    if j == |received| then [] else [Bits(received[j])] + BitsFrom(received, j + 1)
  }

  /** The statistics part of a file. */
  function StepsFile(o: Options, steps: seq<StepStats>): seq<Chunk>
    requires CountsAll(o.thresholds, steps)
  {
    MomentsFrom(o, steps, 0)
    + (if o.minMaxOp then MinMaxFrom(steps, 0) else [])
    + (if |o.thresholds| > 0 then ThresholdsFrom(o.thresholds, steps, 0) else [])
  }

  /** The file of one stream; a stream without data leaves a size of zero only. */
  function SavedFile(o: Options, st: Stream): seq<Chunk>
    requires st.Stream? ==> CountsAll(o.thresholds, st.steps)
  {
    if st.NoStream? || st.vectSize == 0 then [Int(0)]
    else
      [Int(st.vectSize)] + StepsFile(o, st.steps) + [Int(|st.received|)] + BitsFrom(st.received, 0)
  }

  // ---- what reading gives back ----

  function WithoutThetas(c: Cell): Cell {
    c.(theta2 := 0.0, theta3 := 0.0, theta4 := 0.0)
  }

  function RestoredCells(cells: seq<Cell>): seq<Cell> {
    seq(|cells|, k requires 0 <= k < |cells| => WithoutThetas(cells[k]))
  }

  function RestoredStep(o: Options, s: StepStats): StepStats {
    s.(cells := RestoredCells(s.cells))
  }

  function RestoredSteps(o: Options, steps: seq<StepStats>): seq<StepStats> {
    seq(|steps|, t requires 0 <= t < |steps| => RestoredStep(o, steps[t]))
  }

  /** The stream after melissa_init_data with alloc points and read_saved_stats. */
  function Restored(o: Options, st: Stream, alloc: nat): (r: Stream)
    requires st.Stream? ==> Shaped(o, st)
    ensures Shaped(o, r)
  {
    if st.NoStream? || st.vectSize == 0 then Stream(0, FreshStream(o, alloc).received, FreshStream(o, alloc).steps)
    else Stream(st.vectSize, st.received, RestoredSteps(o, st.steps))
  }

  /** Streams that a run can produce: sizes agree, unallocated orders and unused statistics stay untouched. */
  predicate Storable(o: Options, st: Stream) {
    && Shaped(o, st) && o.Valid()
    && forall t :: 0 <= t < |st.steps| ==>
         && HasSize(o, st.steps[t], st.vectSize)
         && (!o.minMaxOp ==> st.steps[t].minMax == FreshStats(o, st.vectSize).minMax)
         && forall k :: 0 <= k < st.vectSize ==> Unallocated(st.steps[t].cells[k], o.order)
  }

  predicate Unallocated(c: Cell, order: nat) {
    && (order < 1 ==> c.m1 == 0.0)
    && (order < 2 ==> c.m2 == 0.0 == c.theta2)
    && (order < 3 ==> c.m3 == 0.0 == c.theta3)
    && (order < 4 ==> c.m4 == 0.0 == c.theta4)
  }

  // ---- writing ----

  /** What save_moments writes for one time step. */
  method SaveStepMoments(order: nat, s: StepStats) returns (f: seq<Chunk>)
    ensures f == MomentChunks(order, s)
  {
    hide RawOf;
    var m1 := if order > 0 then [Doubles(RawOf(s.cells, 1))] else [];
    var m2 := if order > 1 then [Doubles(RawOf(s.cells, 2))] else [];
    var m3 := if order > 2 then [Doubles(RawOf(s.cells, 3))] else [];
    var m4 := if order > 3 then [Doubles(RawOf(s.cells, 4))] else [];
    f := [Int(order)] + m1 + m2 + m3 + m4 + [Int(s.increment)];
  }

  method SaveMoments(o: Options, steps: seq<StepStats>) returns (f: seq<Chunk>)
    ensures f == MomentsFrom(o, steps, 0)
  {
    hide MomentChunks;
    f := [];
    for t := 0 to |steps|
      invariant f + MomentsFrom(o, steps, t) == MomentsFrom(o, steps, 0)
    {
      var chunks := SaveStepMoments(o.order, steps[t]);
      f := f + chunks;
    }
  }

  method SaveMinMax(steps: seq<StepStats>) returns (f: seq<Chunk>)
    ensures f == MinMaxFrom(steps, 0)
  {
    f := [];
    for t := 0 to |steps|
      invariant f + MinMaxFrom(steps, t) == MinMaxFrom(steps, 0)
    {
      f := f + [Doubles(steps[t].minMax.min), Doubles(steps[t].minMax.max), Flag(steps[t].minMax.isInit)];
    }
  }

  method SaveExceed(values: seq<real>, e: seq<seq<nat>>) returns (f: seq<Chunk>)
    requires |e| == |values|
    ensures f == ExceedFrom(values, e, 0)
  {
    f := [];
    for i := 0 to |e|
      invariant f + ExceedFrom(values, e, i) == ExceedFrom(values, e, 0)
    {
      f := f + [Doubles([values[i]]), Ints(e[i])];
    }
  }

  method SaveThresholds(values: seq<real>, steps: seq<StepStats>) returns (f: seq<Chunk>)
    requires CountsAll(values, steps)
    ensures f == ThresholdsFrom(values, steps, 0)
  {
    f := [];
    for t := 0 to |steps|
      invariant f + ThresholdsFrom(values, steps, t) == ThresholdsFrom(values, steps, 0)
    {
      var e := SaveExceed(values, steps[t].exceed);
      f := f + e;
    }
  }

  method SaveSteps(received: seq<set<nat>>) returns (f: seq<Chunk>)
    ensures f == BitsFrom(received, 0)
  {
    f := [];
    for j := 0 to |received|
      invariant f + BitsFrom(received, j) == BitsFrom(received, 0)
    {
      f := f + [Bits(received[j])];
    }
  }

  method SaveStats(o: Options, st: Stream) returns (f: seq<Chunk>)
    requires st.Stream? ==> CountsAll(o.thresholds, st.steps)
    ensures f == SavedFile(o, st)
  {
    hide MomentsFrom;
    hide MinMaxFrom;
    hide ThresholdsFrom;
    hide BitsFrom;
    if st.NoStream? || st.vectSize == 0 {
      return [Int(0)];
    }
    var moments := SaveMoments(o, st.steps);
    f := [Int(st.vectSize)] + moments;
    if o.minMaxOp {
      var minMax := SaveMinMax(st.steps);
      f := f + minMax;
    }
    if |o.thresholds| > 0 {
      var thresholds := SaveThresholds(o.thresholds, st.steps);
      f := f + thresholds;
    }
    var bits := SaveSteps(st.received);
    f := f + [Int(|st.received|)] + bits;
  }

  // ---- reading; f is the unread rest of the file ----

  /** Stores a vector of raw moments of order p into the cells. */
  function StoreRaw(cells: seq<Cell>, v: seq<real>, p: nat): seq<Cell>
    requires |cells| == |v|
  {
    seq(|cells|, k requires 0 <= k < |cells| =>
      if p == 1 then cells[k].(m1 := v[k])
      else if p == 2 then cells[k].(m2 := v[k])
      else if p == 3 then cells[k].(m3 := v[k])
      else cells[k].(m4 := v[k]))
  }

  /** One time step of read_moments, into freshly initialised moments. */
  method ReadStepMoments(o: Options, s: StepStats, f: seq<Chunk>, ghost from: StepStats, ghost tail: seq<Chunk>)
    returns (r: StepStats, rest: seq<Chunk>)
    requires f == MomentChunks(o.order, from) + tail
    requires |s.cells| == |from.cells| && forall k :: 0 <= k < |s.cells| ==> s.cells[k] == ZERO_CELL
    requires forall k :: 0 <= k < |from.cells| ==> Unallocated(from.cells[k], o.order)
    ensures r == s.(cells := RestoredCells(from.cells), increment := from.increment)
    ensures rest == tail
  {
    var order := f[0].n;
    rest := f[1..];
    var cells := s.cells;
    if order > 0 {
      cells, rest := StoreRaw(cells, rest[0].v, 1), rest[1..];
    }
    if order > 1 {
      cells, rest := StoreRaw(cells, rest[0].v, 2), rest[1..];
    }
    if order > 2 {
      cells, rest := StoreRaw(cells, rest[0].v, 3), rest[1..];
    }
    if order > 3 {
      cells, rest := StoreRaw(cells, rest[0].v, 4), rest[1..];
    }
    r, rest := s.(cells := cells, increment := rest[0].n), rest[1..];
  }

  method ReadMoments(o: Options, steps: seq<StepStats>, f: seq<Chunk>, ghost from: seq<StepStats>,
                     ghost tail: seq<Chunk>)
    returns (r: seq<StepStats>, rest: seq<Chunk>)
    requires f == MomentsFrom(o, from, 0) + tail && |steps| == |from|
    requires forall t :: 0 <= t < |steps| ==> |steps[t].cells| == |from[t].cells|
    requires forall t, k :: 0 <= t < |steps| && 0 <= k < |steps[t].cells| ==> steps[t].cells[k] == ZERO_CELL
    requires forall t, k :: 0 <= t < |from| && 0 <= k < |from[t].cells| ==> Unallocated(from[t].cells[k], o.order)
    ensures |r| == |steps| && rest == tail
    ensures forall t :: 0 <= t < |r| ==>
              r[t] == steps[t].(cells := RestoredCells(from[t].cells), increment := from[t].increment)
  {
    r, rest := steps, f;
    for t := 0 to |steps|
      invariant |r| == |steps| && rest == MomentsFrom(o, from, t) + tail
      invariant forall i :: t <= i < |r| ==> r[i] == steps[i]
      invariant forall i :: 0 <= i < t ==>
                  r[i] == steps[i].(cells := RestoredCells(from[i].cells), increment := from[i].increment)
    {
      hide MomentChunks;
      assert rest == MomentChunks(o.order, from[t]) + (MomentsFrom(o, from, t + 1) + tail);
      var s;
      s, rest := ReadStepMoments(o, r[t], rest, from[t], MomentsFrom(o, from, t + 1) + tail);
      r := r[t := s];
    }
  }

  method ReadMinMax(steps: seq<StepStats>, f: seq<Chunk>, ghost from: seq<StepStats>, ghost tail: seq<Chunk>)
    returns (r: seq<StepStats>, rest: seq<Chunk>)
    requires f == MinMaxFrom(from, 0) + tail && |steps| == |from|
    ensures |r| == |steps| && rest == tail
    ensures forall t :: 0 <= t < |r| ==> r[t] == steps[t].(minMax := from[t].minMax)
  {
    r, rest := steps, f;
    for t := 0 to |steps|
      invariant |r| == |steps| && rest == MinMaxFrom(from, t) + tail
      invariant forall i :: t <= i < |r| ==> r[i] == steps[i]
      invariant forall i :: 0 <= i < t ==> r[i] == steps[i].(minMax := from[i].minMax)
    {
      r := r[t := r[t].(minMax := MinMax(rest[2].b, rest[0].v, rest[1].v))];
      rest := rest[3..];
    }
  }

  /** The counts come back, and the values that the file gives for the thresholds. */
  method ReadExceed(e: seq<seq<nat>>, f: seq<Chunk>, ghost values: seq<real>, ghost from: seq<seq<nat>>,
                    ghost tail: seq<Chunk>)
    returns (r: seq<seq<nat>>, thresholds: seq<real>, rest: seq<Chunk>)
    requires |e| == |from| == |values| && f == ExceedFrom(values, from, 0) + tail
    ensures r == from && thresholds == values && rest == tail
  {
    r, rest, thresholds := e, f, [];
    for i := 0 to |e|
      invariant |r| == |e| && rest == ExceedFrom(values, from, i) + tail
      invariant r[..i] == from[..i] && thresholds == values[..i]
    {
      thresholds := thresholds + [rest[0].v[0]];
      r := r[i := rest[1].w];
      rest := rest[2..];
    }
  }

  method ReadThresholds(steps: seq<StepStats>, f: seq<Chunk>, values: seq<real>, ghost from: seq<StepStats>,
                        ghost tail: seq<Chunk>)
    returns (r: seq<StepStats>, thresholds: seq<real>, rest: seq<Chunk>)
    requires |steps| == |from| && CountsAll(values, from) && f == ThresholdsFrom(values, from, 0) + tail
    requires CountsAll(values, steps)
    ensures |r| == |steps| && thresholds == values && rest == tail
    ensures forall t :: 0 <= t < |r| ==> r[t] == steps[t].(exceed := from[t].exceed)
  {
    r, rest, thresholds := steps, f, values;
    for t := 0 to |steps|
      invariant |r| == |steps| && rest == ThresholdsFrom(values, from, t) + tail && thresholds == values
      invariant forall i :: t <= i < |r| ==> r[i] == steps[i]
      invariant forall i :: 0 <= i < t ==> r[i] == steps[i].(exceed := from[i].exceed)
    {
      assert rest == ExceedFrom(values, from[t].exceed, 0) + (ThresholdsFrom(values, from, t + 1) + tail);
      var e;
      e, thresholds, rest :=
        ReadExceed(r[t].exceed, rest, values, from[t].exceed, ThresholdsFrom(values, from, t + 1) + tail);
      r := r[t := r[t].(exceed := e)];
    }
  }

  method ReadSteps(received: seq<set<nat>>, f: seq<Chunk>, ghost from: seq<set<nat>>)
    returns (r: seq<set<nat>>)
    requires f == [Int(|from|)] + BitsFrom(from, 0) && |received| <= |from|
    ensures r == from
  {
    var size, rest := f[0].n, f[1..];
    r := received;
    while |r| < size
      invariant |r| <= |from|
      decreases |from| - |r|
    {
      r := r + [{}];
    }
    for j := 0 to |r|
      invariant |r| == |from| && rest == BitsFrom(from, j) && r[..j] == from[..j]
    {
      r := r[j := rest[0].s];
      rest := rest[1..];
    }
  }

  method ReadStepsFile(o: Options, alloc: nat, f: seq<Chunk>, ghost from: Stream, ghost tail: seq<Chunk>)
    returns (steps: seq<StepStats>, rest: seq<Chunk>)
    requires Storable(o, from) && from.vectSize == alloc && CountsAll(o.thresholds, from.steps)
    requires f == StepsFile(o, from.steps) + tail
    ensures steps == RestoredSteps(o, from.steps)
    ensures rest == tail
  {
    hide MomentsFrom;
    hide MinMaxFrom;
    hide ThresholdsFrom;
    hide Unallocated;
    ghost var minMax := if o.minMaxOp then MinMaxFrom(from.steps, 0) else [];
    assert CountsAll(o.thresholds, from.steps);
    ghost var thresholds := if |o.thresholds| > 0 then ThresholdsFrom(o.thresholds, from.steps, 0) else [];
    assert f == MomentsFrom(o, from.steps, 0) + (minMax + (thresholds + tail));
    var blank := FreshStats(o, alloc);
    steps, rest := ReadMoments(o, seq(o.nbTimeSteps, _ => blank), f, from.steps, minMax + (thresholds + tail));
    hide RestoredCells;
    if o.minMaxOp {
      steps, rest := ReadMinMax(steps, rest, from.steps, thresholds + tail);
    }
    assert forall t :: 0 <= t < |steps| ==> steps[t].minMax == from.steps[t].minMax;
    if |o.thresholds| > 0 {
      var values;
      steps, values, rest := ReadThresholds(steps, rest, o.thresholds, from.steps, tail);
    }
    assert forall t :: 0 <= t < |steps| ==> steps[t] == RestoredStep(o, from.steps[t]);
  }

  /** Round trip: a stream that has just been initialised reads back what was saved, except that the
      central moments start from zero and that a stream without saved data keeps a size of zero. */
  method ReadSavedStats(o: Options, alloc: nat, f: seq<Chunk>, ghost from: Stream) returns (r: Stream)
    requires from.Stream? ==> Storable(o, from) && (from.vectSize > 0 ==> from.vectSize == alloc)
    requires (from.Stream? ==> CountsAll(o.thresholds, from.steps)) && f == SavedFile(o, from)
    ensures r == Restored(o, from, alloc)
  {
    hide SavedFile;
    hide Storable;
    SizeFirst(o, from);
    if f[0].n == 0 {
      return Stream(0, FreshStream(o, alloc).received, FreshStream(o, alloc).steps);
    }
    ReceivedSize(o, from, alloc);
    hide RestoredSteps;
    hide BitsFrom;
    hide StepsFile;
    hide FreshStream;
    ghost var tail := [Int(|from.received|)] + BitsFrom(from.received, 0);
    var steps, rest := ReadStepsFile(o, alloc, f[1..], from, tail);
    var received := ReadSteps(FreshStream(o, alloc).received, rest, from.received);
    r := Stream(f[0].n, received, steps);
  }

  lemma SizeFirst(o: Options, st: Stream)
    requires st.Stream? ==> CountsAll(o.thresholds, st.steps)
    ensures var f, empty := SavedFile(o, st), st.NoStream? || st.vectSize == 0;
            && f != [] && f[0] == Int(if empty then 0 else st.vectSize)
            && (!empty ==> f[1..] == StepsFile(o, st.steps) + ([Int(|st.received|)] + BitsFrom(st.received, 0)))
  {
    hide StepsFile;
    hide BitsFrom;
    if st.Stream? && st.vectSize > 0 {
      var f := SavedFile(o, st);
      assert f == [Int(st.vectSize)] + (StepsFile(o, st.steps) + ([Int(|st.received|)] + BitsFrom(st.received, 0)));
    }
  }

  lemma ReceivedSize(o: Options, st: Stream, alloc: nat)
    requires Storable(o, st)
    ensures |FreshStream(o, alloc).received| == |st.received|
  {
  }

  // ---- recovery ----

  /** Equal but for central moments that the next increment recomputes. */
  predicate SameRaw(c: Cell, d: Cell, order: nat) {
    && c.m1 == d.m1 && c.m2 == d.m2 && c.m3 == d.m3 && c.m4 == d.m4
    && (order < 2 ==> c.theta2 == d.theta2)
    && (order < 3 ==> c.theta3 == d.theta3)
    && (order < 4 ==> c.theta4 == d.theta4)
  }

  predicate SameRawStats(o: Options, s: StepStats, r: StepStats) {
    && s.increment == r.increment && s.minMax == r.minMax && s.exceed == r.exceed && |s.cells| == |r.cells|
    && forall k :: 0 <= k < |s.cells| ==> SameRaw(s.cells[k], r.cells[k], o.order)
  }

  /** Two runs that hold the same data; time steps with more than one sample that were updated
      since the restart agree completely. */
  predicate SameRun(o: Options, a: Stream, b: Stream) {
    && Shaped(o, a) && Shaped(o, b) && a.vectSize == b.vectSize && a.received == b.received
    && forall t :: 0 <= t < o.nbTimeSteps ==> SameRawStats(o, a.steps[t], b.steps[t])
  }

  lemma AddVectorRecovers(o: Options, s: StepStats, r: StepStats, x: seq<real>, vectSize: nat)
    requires vectSize <= |x| && |s.exceed| == |o.thresholds| && SameRawStats(o, s, r)
    ensures SameRawStats(o, AddVector(o, s, x, vectSize), AddVector(o, r, x, vectSize))
    ensures s == r || (s.increment > 0 && |s.cells| <= vectSize) ==>
              AddVector(o, s, x, vectSize) == AddVector(o, r, x, vectSize)
  {
    hide IncrementMean;
    hide Theta2;
    hide Theta3;
    hide Theta4;
    var c, d := MomentsWith(o, s, x, vectSize), MomentsWith(o, r, x, vectSize);
    forall k | 0 <= k < |c|
      ensures SameRaw(c[k], d[k], o.order)
      ensures s.increment > 0 && k < vectSize ==> c[k] == d[k]
    {
    }
    if s.increment > 0 && |s.cells| <= vectSize {
      assert c == d;
    }
  }

  lemma {:induction false} AddVectorsRecover(o: Options, s: StepStats, r: StepStats, xs: seq<seq<real>>, vectSize: nat)
    requires AllSized(xs, vectSize) && |s.exceed| == |o.thresholds| && SameRawStats(o, s, r)
    ensures SameRawStats(o, AddVectors(o, s, xs, vectSize), AddVectors(o, r, xs, vectSize))
    ensures |AddVectors(o, s, xs, vectSize).cells| == |s.cells|
    ensures AddVectors(o, s, xs, vectSize).increment == s.increment + |xs|
    ensures s == r || (xs != [] && s.increment > 0 && |s.cells| <= vectSize) ==>
              AddVectors(o, s, xs, vectSize) == AddVectors(o, r, xs, vectSize)
  {
    if xs != [] {
      var ys, x := xs[..|xs| - 1], xs[|xs| - 1];
      AddVectorsRecover(o, s, r, ys, vectSize);
      AddVectorRecovers(o, AddVectors(o, s, ys, vectSize), AddVectors(o, r, ys, vectSize), x, vectSize);
    }
  }
}
