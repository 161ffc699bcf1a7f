/** Crash recovery of a stream: checkpoint, crash, restart, redelivery (server/melissa_io.c:142-289,
    server/server.cxx:589-617). */
module Recovery {
  import opened Samples
  import opened GeneralMoments
  import opened StreamStats
  import opened ExactlyOnce
  import opened Checkpoint

  // ---- when the central moments that are not saved matter ----

  /** Dropping the central moments changes nothing exactly when they are not computed or the samples are equal. */
  lemma ThetasVanish(xs: seq<real>, order: nat)
    requires order <= 4
    ensures WithoutThetas(FoldCell(xs, order)) == FoldCell(xs, order) <==> order < 2 || Constant(xs)
  {
    if xs != [] {
      FoldCellIsMoments(xs, order);
      if Constant(xs) {
        ConstantIsCentred(xs, 2);
        ConstantIsCentred(xs, 3);
        ConstantIsCentred(xs, 4);
      } else {
        var a := Mean(xs);
        SquaresVanish(xs, a);
        assert CentralSum(xs, a, 2) != 0.0;
        assert CentralMoment(xs, 2) * |xs| as real == CentralSum(xs, a, 2);
      }
    }
  }

  lemma FoldedIsStorable(xs: seq<real>, order: nat)
    requires order <= 4
    ensures Unallocated(FoldCell(xs, order), order)
    ensures SameRaw(WithoutThetas(FoldCell(xs, order)), FoldCell(xs, order), order)
  {
    if xs != [] {
      FoldCellIsMoments(xs, order);
    }
  }

  // ---- a restarted run next to an uninterrupted one ----

  /** Some message of h for time step t is new to the stream. */
  ghost predicate NewAt(st: Stream, h: seq<Data>, t: nat)
    requires st.Stream?
  {
    exists i :: 0 <= i < |h| && h[i].time == t && h[i].simu < |st.received| && t !in st.received[h[i].simu]
  }

  lemma {:induction false} ReceivedAfter(o: Options, st: Stream, h: seq<Data>, s: nat, t: nat)
    requires Shaped(o, st) && AllWellFormed(o, st.vectSize, h) && s < o.samplingSize
    ensures t in ReceiveAll(o, st, h).received[s] <==> t in st.received[s] || Arrived(h, s, t)
  {
    if h != [] {
      var before, m := h[..|h| - 1], h[|h| - 1];
      assert h == before + [m];
      ReceivedAfter(o, st, before, s, t);
      ArrivedStep(before, m, s, t);
    }
  }

  lemma NewAtStep(o: Options, st: Stream, h: seq<Data>, m: Data, t: nat)
    requires Shaped(o, st) && AllWellFormed(o, st.vectSize, h) && WellFormed(o, st.vectSize, m)
    ensures NewAt(st, h + [m], t) <==>
              NewAt(st, h, t) || (m.time == t && t !in ReceiveAll(o, st, h).received[m.simu])
  {
    ReceivedAfter(o, st, h, m.simu, t);
    assert (h + [m])[|h|] == m;
    assert forall i :: 0 <= i < |h| ==> (h + [m])[i] == h[i];
    if NewAt(st, h + [m], t) && !NewAt(st, h, t) {
      var i :| 0 <= i < |h + [m]| && (h + [m])[i].time == t && t !in st.received[(h + [m])[i].simu];
      assert i == |h|;
    }
  }

  /** Redelivery keeps two runs together, brings a time step that gets a new sample on top of an old one into
      full agreement, and leaves a time step without new messages alone. */
  lemma {:induction false} RunsStayTogether(o: Options, a: Stream, b: Stream, h: seq<Data>, t: nat)
    requires SameRun(o, a, b) && AllWellFormed(o, a.vectSize, h) && t < o.nbTimeSteps
    requires |a.steps[t].cells| == a.vectSize
    ensures var c, d := ReceiveAll(o, a, h), ReceiveAll(o, b, h);
            && SameRun(o, c, d) && |c.steps[t].cells| == a.vectSize
            && (a.steps[t] == b.steps[t] || (NewAt(a, h, t) && a.steps[t].increment > 0) ==> c.steps[t] == d.steps[t])
            && (!NewAt(a, h, t) ==> c.steps[t] == a.steps[t] && d.steps[t] == b.steps[t])
            && c.steps[t].increment >= a.steps[t].increment
  {
    if h != [] {
      var before, m := h[..|h| - 1], h[|h| - 1];
      assert h == before + [m];
      RunsStayTogether(o, a, b, before, t);
      NewAtStep(o, a, before, m, t);
      OneMessageTogether(o, ReceiveAll(o, a, before), ReceiveAll(o, b, before), m, t);
    }
  }

  lemma OneMessageTogether(o: Options, a: Stream, b: Stream, m: Data, t: nat)
    requires SameRun(o, a, b) && WellFormed(o, a.vectSize, m) && t < o.nbTimeSteps
    requires |a.steps[t].cells| == a.vectSize
    ensures var c, d := Receive(o, a, m), Receive(o, b, m);
            var isNew := m.time == t && t !in a.received[m.simu];
            && SameRun(o, c, d) && |c.steps[t].cells| == a.vectSize
            && (a.steps[t] == b.steps[t] || (isNew && a.steps[t].increment > 0) ==> c.steps[t] == d.steps[t])
            && (!isNew ==> c.steps[t] == a.steps[t] && d.steps[t] == b.steps[t])
            && c.steps[t].increment >= a.steps[t].increment
  {
    AddVectorsRecover(o, a.steps[m.time], b.steps[m.time], Folded(o, m), a.vectSize);
  }

  /** What a run produces can be saved, and reading it back gives a stream that holds the same data. */
  lemma RunIsStorable(o: Options, st: Stream, h: seq<Data>)
    requires o.Valid() && Shaped(o, st) && AllWellFormed(o, st.vectSize, h) && Reflects(o, st, h)
    requires !o.minMaxOp ==> forall t :: 0 <= t < |st.steps| ==> st.steps[t].minMax == FreshStats(o, st.vectSize).minMax
    requires st.vectSize > 0
    ensures Storable(o, st)
    ensures SameRun(o, Restored(o, st, st.vectSize), st)
  {
    forall t, k | 0 <= t < |st.steps| && 0 <= k < st.vectSize
      ensures |st.steps[t].cells| == st.vectSize
      ensures Unallocated(st.steps[t].cells[k], o.order)
      ensures SameRaw(WithoutThetas(st.steps[t].cells[k]), st.steps[t].cells[k], o.order)
    {
      FoldedIsStorable(Column(Expected(o, st.vectSize, h, t), k), o.order);
    }
  }

  lemma {:induction false} UnusedMinMax(o: Options, vectSize: nat, h: seq<Data>, t: nat)
    requires AllWellFormed(o, vectSize, h) && !o.minMaxOp && t < o.nbTimeSteps
    ensures ReceiveAll(o, FreshStream(o, vectSize), h).steps[t].minMax == FreshStats(o, vectSize).minMax
  {
    if h != [] {
      UnusedMinMax(o, vectSize, h[..|h| - 1], t);
      var st := ReceiveAll(o, FreshStream(o, vectSize), h[..|h| - 1]);
      UnusedMinMaxVectors(o, st.steps[h[|h| - 1].time], Folded(o, h[|h| - 1]), vectSize);
    }
  }

  lemma {:induction false} UnusedMinMaxVectors(o: Options, s: StepStats, xs: seq<seq<real>>, vectSize: nat)
    requires AllSized(xs, vectSize) && |s.exceed| == |o.thresholds| && !o.minMaxOp
    ensures AddVectors(o, s, xs, vectSize).minMax == s.minMax
  {
    if xs != [] {
      UnusedMinMaxVectors(o, s, xs[..|xs| - 1], vectSize);
    }
  }

  /** The samples a time step had at the checkpoint were equal at every mesh point. */
  ghost predicate ConstantAt(o: Options, vectSize: nat, h: seq<Data>, t: nat)
    requires AllWellFormed(o, vectSize, h)
  {
    forall k :: 0 <= k < vectSize ==> Constant(Column(Expected(o, vectSize, h, t), k))
  }

  lemma RestoredStepIsWhole(o: Options, st: Stream, h: seq<Data>, t: nat)
    requires o.Valid() && Shaped(o, st) && AllWellFormed(o, st.vectSize, h) && Reflects(o, st, h) && t < o.nbTimeSteps
    ensures RestoredStep(o, st.steps[t]) == st.steps[t] <==> o.order < 2 || ConstantAt(o, st.vectSize, h, t)
    ensures st.steps[t].increment == 0 ==> RestoredStep(o, st.steps[t]) == st.steps[t]
  {
    var s, xs := st.steps[t], Expected(o, st.vectSize, h, t);
    assert Summarises(o, s, xs, st.vectSize);
    forall k | 0 <= k < st.vectSize
      ensures WithoutThetas(s.cells[k]) == s.cells[k] <==> o.order < 2 || Constant(Column(xs, k))
    {
      ThetasVanish(Column(xs, k), o.order);
    }
    assert RestoredStep(o, s) == s <==> RestoredCells(s.cells) == s.cells;
    if RestoredCells(s.cells) == s.cells {
      forall k | 0 <= k < st.vectSize ensures WithoutThetas(s.cells[k]) == s.cells[k] {
        assert RestoredCells(s.cells)[k] == s.cells[k];
      }
    }
  }

  // ---- the stream that a checkpoint and later messages make ----

  /** The stream of an uninterrupted run over h. */
  ghost function Accumulated(o: Options, vectSize: nat, h: seq<Data>): (st: Stream)
    requires AllWellFormed(o, vectSize, h)
    ensures Shaped(o, st) && st.vectSize == vectSize
  {
    ReceiveAll(o, FreshStream(o, vectSize), h)
  }

  /** Read back after a checkpoint of h, then continued with g. */
  ghost function Continued(o: Options, vectSize: nat, h: seq<Data>, g: seq<Data>): (st: Stream)
    requires AllWellFormed(o, vectSize, h) && AllWellFormed(o, vectSize, g)
    ensures Shaped(o, st) && st.vectSize == vectSize
  {
    ReceiveAll(o, Restored(o, Accumulated(o, vectSize, h), vectSize), g)
  }

  lemma {:induction false} RunsCompose(o: Options, st: Stream, h: seq<Data>, g: seq<Data>)
    requires Shaped(o, st) && AllWellFormed(o, st.vectSize, h) && AllWellFormed(o, st.vectSize, g)
    ensures AllWellFormed(o, st.vectSize, h + g)
    ensures ReceiveAll(o, st, h + g) == ReceiveAll(o, ReceiveAll(o, st, h), g)
  {
    if g == [] {
      assert h + g == h;
    } else {
      assert (h + g)[..|h + g| - 1] == h + g[..|g| - 1];
      RunsCompose(o, st, h, g[..|g| - 1]);
    }
  }

  lemma RestoredTogether(o: Options, vectSize: nat, h: seq<Data>)
    requires o.Valid() && vectSize > 0 && AllWellFormed(o, vectSize, h)
    ensures Storable(o, Accumulated(o, vectSize, h))
    ensures SameRun(o, Restored(o, Accumulated(o, vectSize, h), vectSize), Accumulated(o, vectSize, h))
  {
    var saved := Accumulated(o, vectSize, h);
    RunReflects(o, vectSize, h);
    if !o.minMaxOp {
      forall i | 0 <= i < |saved.steps| ensures saved.steps[i].minMax == FreshStats(o, vectSize).minMax {
        UnusedMinMax(o, vectSize, h, i);
      }
    }
    RunIsStorable(o, saved, h);
  }

  /** The central moments of time step t are whole after a checkpoint of h and messages g: they are not computed, or the
      step got a new message since the restart, or its samples at the checkpoint were all equal. */
  ghost predicate ThetasWhole(o: Options, vectSize: nat, h: seq<Data>, g: seq<Data>, t: nat)
    requires AllWellFormed(o, vectSize, h)
  {
    o.order < 2 || NewAt(Accumulated(o, vectSize, h), g, t) || ConstantAt(o, vectSize, h, t)
  }

  /** Wherever samples differ, the second central moment is lost. */
  lemma LostThetas(o: Options, st: Stream, h: seq<Data>, t: nat)
    requires o.Valid() && o.order >= 2 && Shaped(o, st) && AllWellFormed(o, st.vectSize, h) && Reflects(o, st, h)
    requires t < o.nbTimeSteps && |st.steps[t].cells| == st.vectSize
    requires forall k :: 0 <= k < st.vectSize ==>
               RestoredStep(o, st.steps[t]).cells[k].theta2 == st.steps[t].cells[k].theta2
    ensures ConstantAt(o, st.vectSize, h, t)
  {
    var s, xs := st.steps[t], Expected(o, st.vectSize, h, t);
    assert Summarises(o, s, xs, st.vectSize);
    forall k | 0 <= k < st.vectSize ensures Constant(Column(xs, k)) {
      assert RestoredStep(o, s).cells[k].theta2 == 0.0;
      ZeroThetaIsConstant(Column(xs, k), o.order);
    }
  }

  lemma ZeroThetaIsConstant(xs: seq<real>, order: nat)
    requires 2 <= order <= 4 && FoldCell(xs, order).theta2 == 0.0
    ensures Constant(xs)
  {
    if xs != [] {
      FoldCellIsMoments(xs, order);
      SquaresVanish(xs, Mean(xs));
      assert CentralMoment(xs, 2) * |xs| as real == CentralSum(xs, Mean(xs), 2);
    }
  }

  /** Main result: a stream that was read back from a checkpoint of h and continued with g holds the bits, counts, raw
      moments, extrema and threshold counts of the uninterrupted run over h + g. Its central moments at time step t
      agree too if and only if ThetasWhole; otherwise the second one is wrong at some mesh point. */
  lemma RecoveryAgrees(o: Options, vectSize: nat, h: seq<Data>, g: seq<Data>, t: nat)
    requires o.Valid() && vectSize > 0 && t < o.nbTimeSteps
    requires AllWellFormed(o, vectSize, h) && AllWellFormed(o, vectSize, g)
    ensures AllWellFormed(o, vectSize, h + g)
    ensures var a, b := Continued(o, vectSize, h, g), Accumulated(o, vectSize, h + g);
            && SameRun(o, a, b) && |a.steps[t].cells| == |b.steps[t].cells| == vectSize
            && (a.steps[t].cells == b.steps[t].cells <==> ThetasWhole(o, vectSize, h, g, t))
            && ((forall k :: 0 <= k < vectSize ==> a.steps[t].cells[k].theta2 == b.steps[t].cells[k].theta2)
                <==> ThetasWhole(o, vectSize, h, g, t))
  {
    var saved := Accumulated(o, vectSize, h);
    var restored := Restored(o, saved, vectSize);
    RunReflects(o, vectSize, h);
    RestoredTogether(o, vectSize, h);
    RestoredStepIsWhole(o, saved, h, t);
    assert Summarises(o, saved.steps[t], Expected(o, vectSize, h, t), vectSize);
    RunsStayTogether(o, restored, saved, g, t);
    RunsCompose(o, FreshStream(o, vectSize), h, g);
    var a, b := Continued(o, vectSize, h, g), Accumulated(o, vectSize, h + g);
    if !NewAt(saved, g, t) && o.order >= 2 {
      if forall k :: 0 <= k < vectSize ==> a.steps[t].cells[k].theta2 == b.steps[t].cells[k].theta2 {
        LostThetas(o, saved, h, t);
      }
    }
  }

  // ---- central moments are lost ----

  const SECOND_MOMENTS := Options(2, 2, 2, false, [], false)

  /** A value of simulation simu at the one point. */
  function ValueOf(time: nat, simu: nat, x: real): Data {
    Data(time, simu, [[x]])
  }

  /** Two simulations with different values at the first time step. */
  function TwoValues(): seq<Data> {
    [] + [ValueOf(0, 0, 0.0)] + [ValueOf(0, 1, 2.0)]
  }

  lemma OneMoreValue(h: seq<Data>, simu: nat, x: real)
    requires simu < 2 && AllWellFormed(SECOND_MOMENTS, 1, h) && !Arrived(h, simu, 0)
    ensures AllWellFormed(SECOND_MOMENTS, 1, h + [ValueOf(0, simu, x)])
    ensures Column(Expected(SECOND_MOMENTS, 1, h + [ValueOf(0, simu, x)], 0), 0)
         == Column(Expected(SECOND_MOMENTS, 1, h, 0), 0) + [x]
  {
    var m := ValueOf(0, simu, x);
    assert WellFormed(SECOND_MOMENTS, 1, m);
    ExpectedStep(SECOND_MOMENTS, 1, h, m, 0);
    ColumnAppend(Expected(SECOND_MOMENTS, 1, h, 0), m.vectors[0], 0);
  }

  lemma NothingExpected()
    ensures AllWellFormed(SECOND_MOMENTS, 1, []) && Column(Expected(SECOND_MOMENTS, 1, [], 0), 0) == []
    ensures !Arrived([], 0, 0)
  {
  }

  lemma OtherNotArrived()
    ensures TwoValues() == [] + [ValueOf(0, 0, 0.0)] + [ValueOf(0, 1, 2.0)]
    ensures !Arrived([] + [ValueOf(0, 0, 0.0)], 1, 0)
  {
    ArrivedStep([], ValueOf(0, 0, 0.0), 1, 0);
  }

  lemma TwoValuesDiffer()
    ensures AllWellFormed(SECOND_MOMENTS, 1, TwoValues())
    ensures Column(Expected(SECOND_MOMENTS, 1, TwoValues(), 0), 0) == [0.0, 2.0]
  {
    hide *;
    NothingExpected();
    OtherNotArrived();
    OneMoreValue([], 0, 0.0);
    OneMoreValue([] + [ValueOf(0, 0, 0.0)], 1, 2.0);
    assert [] + [0.0] + [2.0] == [0.0, 2.0];
  }

  lemma TwoAndZero()
    ensures !Constant([0.0, 2.0])
  {
    var xs := [0.0, 2.0];
    assert xs[0] != xs[1];
  }

  /** The failing input: after a checkpoint of these, a message for another time step does not bring them back. */
  lemma ThetasAreLost(g: seq<Data>)
    requires g == [ValueOf(1, 0, 0.0)]
    ensures AllWellFormed(SECOND_MOMENTS, 1, TwoValues()) && AllWellFormed(SECOND_MOMENTS, 1, g)
    ensures !ThetasWhole(SECOND_MOMENTS, 1, TwoValues(), g, 0)
  {
    TwoValuesDiffer();
    TwoAndZero();
    hide TwoValues;
    hide Column;
    hide Expected;
    hide Constant;
    hide Accumulated;
  }

  /** Main result: checkpoint after h, crash, restart, then redeliver g. If g brings back at least what was lost
      (u has the same messages as h + g), the restarted stream has the bits, counts, raw moments, extrema and
      threshold counts of the uninterrupted run u. The central moments of a time step agree too, if and only if
      they are not computed, or the step got a new message since the restart, or its samples at the checkpoint
      were all equal. */
  lemma CrashRecovery(o: Options, vectSize: nat, h: seq<Data>, g: seq<Data>, u: seq<Data>, t: nat)
    requires o.Valid() && vectSize > 0 && t < o.nbTimeSteps
    requires AllWellFormed(o, vectSize, h) && AllWellFormed(o, vectSize, g) && AllWellFormed(o, vectSize, u)
    requires Consistent(h + g) && Consistent(u) && SameMessages(h + g, u)
    ensures var a, b := Continued(o, vectSize, h, g), Accumulated(o, vectSize, u);
            && Storable(o, Accumulated(o, vectSize, h))
            && a.received == b.received
            && a.steps[t].increment == b.steps[t].increment && a.steps[t].exceed == b.steps[t].exceed
            && (o.minMaxOp && b.steps[t].increment > 0 ==> a.steps[t].minMax == b.steps[t].minMax)
            && |a.steps[t].cells| == |b.steps[t].cells| == vectSize
            && (forall k :: 0 <= k < vectSize ==> SameRaw(a.steps[t].cells[k], b.steps[t].cells[k], o.order))
            && (a.steps[t].cells == b.steps[t].cells <==> ThetasWhole(o, vectSize, h, g, t))
  {
    hide Continued;
    hide ThetasWhole;
    RestoredTogether(o, vectSize, h);
    RecoveryAgrees(o, vectSize, h, g, t);
    RunReflects(o, vectSize, h + g);
    RunReflects(o, vectSize, u);
    OrderIndependence(o, Accumulated(o, vectSize, h + g), Accumulated(o, vectSize, u), h + g, u);
    assert SameRawStats(o, Continued(o, vectSize, h, g).steps[t], Accumulated(o, vectSize, h + g).steps[t]);
  }

  /** A stream that had no data at the checkpoint is never recovered: it reads a size of zero back, so
      no later message reaches its statistics. */
  lemma {:induction false} EmptyStreamStaysEmpty(o: Options, alloc: nat, g: seq<Data>, t: nat)
    requires o.Valid() && AllWellFormed(o, alloc, g) && t < o.nbTimeSteps
    ensures AllWellFormed(o, 0, g)
    ensures var a := ReceiveAll(o, Restored(o, NoStream, alloc), g);
            a.vectSize == 0 && a.steps[t].cells == FreshStats(o, alloc).cells
  {
    if g != [] {
      var before := g[..|g| - 1];
      EmptyStreamStaysEmpty(o, alloc, before, t);
      var st := ReceiveAll(o, Restored(o, NoStream, alloc), before);
      EmptyVectors(o, st.steps[g[|g| - 1].time], Folded(o, g[|g| - 1]));
    }
  }

  lemma {:induction false} EmptyVectors(o: Options, s: StepStats, xs: seq<seq<real>>)
    requires |s.exceed| == |o.thresholds|
    ensures AllSized(xs, 0) && AddVectors(o, s, xs, 0).cells == s.cells
  {
    if xs != [] {
      EmptyVectors(o, s, xs[..|xs| - 1]);
    }
  }
}
