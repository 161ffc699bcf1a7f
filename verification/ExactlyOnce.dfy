/** Deduplicated accumulation on one stream (the data reception of melissa_server_run,
    server/server.cxx): test the bit, fold the message in, set the bit. */
module ExactlyOnce {
  import opened Samples
  import opened Sequences
  import opened GeneralMoments
  import opened StreamStats

  /** Messages of one stream of vectSize points; the sender fixes the size, the options the rest. */
  predicate WellFormed(o: Options, vectSize: nat, m: Data) {
    && m.time < o.nbTimeSteps && m.simu < o.samplingSize
    && |m.vectors| >= (if o.sobol then 2 else 1)
    && AllSized(m.vectors, vectSize)
  }

  predicate AllWellFormed(o: Options, vectSize: nat, h: seq<Data>) {
    forall i :: 0 <= i < |h| ==> WellFormed(o, vectSize, h[i])
  }

  predicate Shaped(o: Options, st: Stream) {
    && st.Stream?
    && |st.received| == o.samplingSize && |st.steps| == o.nbTimeSteps
    && forall t :: 0 <= t < |st.steps| ==> |st.steps[t].exceed| == |o.thresholds|
  }

  /** melissa_init_data on the first message of a stream. */
  function FreshStream(o: Options, vectSize: nat): (st: Stream)
    ensures Shaped(o, st)
  {
    Stream(vectSize, seq(o.samplingSize, _ => {}), seq(o.nbTimeSteps, _ => FreshStats(o, vectSize)))
  }

  /** One message on an initialised stream. */
  function Receive(o: Options, st: Stream, m: Data): (r: Stream)
    requires Shaped(o, st) && WellFormed(o, st.vectSize, m)
    ensures Shaped(o, r) && r.vectSize == st.vectSize
  {
    if m.time in st.received[m.simu] then st
    else Stream(st.vectSize,
                st.received[m.simu := st.received[m.simu] + {m.time}],
                st.steps[m.time := AddVectors(o, st.steps[m.time], Folded(o, m), st.vectSize)])
  }

  function ReceiveAll(o: Options, st: Stream, h: seq<Data>): (r: Stream)
    requires Shaped(o, st) && AllWellFormed(o, st.vectSize, h)
    ensures Shaped(o, r) && r.vectSize == st.vectSize
  {
    if h == [] then st else Receive(o, ReceiveAll(o, st, h[..|h| - 1]), h[|h| - 1])
  }

  // ---- reference: which messages count ----

  ghost predicate Arrived(h: seq<Data>, simu: nat, time: nat) {
    exists i :: 0 <= i < |h| && h[i].simu == simu && h[i].time == time
  }

  /** For every simulation, its first message for the time step, in order of arrival. */
  ghost function FirstArrivals(h: seq<Data>, time: nat): seq<Data> {
    if h == [] then []
    else
      var before, m := h[..|h| - 1], h[|h| - 1];
      if m.time == time && !Arrived(before, m.simu, time) then FirstArrivals(before, time) + [m]
      else FirstArrivals(before, time)
  }

  /** The vectors that a list of accepted messages contributes. */
  ghost function SamplesOf(o: Options, ms: seq<Data>): seq<seq<real>>
    requires forall i :: 0 <= i < |ms| ==> |ms[i].vectors| >= if o.sobol then 2 else 1
  {
    if ms == [] then [] else SamplesOf(o, ms[..|ms| - 1]) + Folded(o, ms[|ms| - 1])
  }

  lemma ArrivedStep(h: seq<Data>, m: Data, simu: nat, time: nat)
    ensures Arrived(h + [m], simu, time) <==> Arrived(h, simu, time) || (m.simu == simu && m.time == time)
  {
    assert (h + [m])[|h|] == m;
    if Arrived(h, simu, time) {
      var i :| 0 <= i < |h| && h[i].simu == simu && h[i].time == time;
      assert (h + [m])[i] == h[i];
    }
  }

  lemma {:induction false} FirstArrivalsAreReceived(h: seq<Data>, time: nat)
    ensures forall m :: m in FirstArrivals(h, time) ==> m in h && m.time == time
  {
    if h != [] {
      FirstArrivalsAreReceived(h[..|h| - 1], time);
    }
  }

  lemma {:induction false} SamplesAreSized(o: Options, vectSize: nat, ms: seq<Data>)
    requires AllWellFormed(o, vectSize, ms)
    ensures AllSized(SamplesOf(o, ms), vectSize)
    ensures |SamplesOf(o, ms)| == |ms| * if o.sobol then 2 else 1
  {
    if ms != [] {
      SamplesAreSized(o, vectSize, ms[..|ms| - 1]);
    }
  }

  /** The first arrivals of a time step are well formed. */
  lemma ArrivalsWellFormed(o: Options, vectSize: nat, h: seq<Data>, time: nat)
    requires AllWellFormed(o, vectSize, h)
    ensures AllWellFormed(o, vectSize, FirstArrivals(h, time))
  {
    FirstArrivalsAreReceived(h, time);
    var f := FirstArrivals(h, time);
    forall i | 0 <= i < |f| ensures WellFormed(o, vectSize, f[i]) {
      assert f[i] in h;
    }
  }

  /** The samples the stream ought to hold for a time step. */
  ghost function Expected(o: Options, vectSize: nat, h: seq<Data>, time: nat): (xs: seq<seq<real>>)
    requires AllWellFormed(o, vectSize, h)
    ensures AllSized(xs, vectSize)
  {
    ArrivalsWellFormed(o, vectSize, h, time);
    SamplesAreSized(o, vectSize, FirstArrivals(h, time));
    SamplesOf(o, FirstArrivals(h, time))
  }

  /** Bits are the arrivals, and every time step summarises exactly the first arrivals. */
  ghost predicate Reflects(o: Options, st: Stream, h: seq<Data>)
    requires Shaped(o, st) && AllWellFormed(o, st.vectSize, h)
  {
    && (forall s: nat, t: nat :: s < o.samplingSize ==> (t in st.received[s] <==> Arrived(h, s, t)))
    && forall t: nat :: t < o.nbTimeSteps ==> Summarises(o, st.steps[t], Expected(o, st.vectSize, h, t), st.vectSize)
  }

  lemma FreshReflects(o: Options, vectSize: nat)
    ensures Reflects(o, FreshStream(o, vectSize), [])
  {
    FreshSummarises(o, vectSize);
  }

  lemma ExpectedStep(o: Options, vectSize: nat, h: seq<Data>, m: Data, time: nat)
    requires AllWellFormed(o, vectSize, h) && WellFormed(o, vectSize, m)
    ensures AllWellFormed(o, vectSize, h + [m])
    ensures Expected(o, vectSize, h + [m], time)
         == if m.time == time && !Arrived(h, m.simu, time) then Expected(o, vectSize, h, time) + Folded(o, m)
            else Expected(o, vectSize, h, time)
  {
    assert (h + [m])[..|h|] == h;
    var f := FirstArrivals(h, time);
    if m.time == time && !Arrived(h, m.simu, time) {
      assert (f + [m])[..|f|] == f;
    }
  }

  lemma ReceiveReflects(o: Options, st: Stream, h: seq<Data>, m: Data)
    requires Shaped(o, st) && AllWellFormed(o, st.vectSize, h) && WellFormed(o, st.vectSize, m)
    requires Reflects(o, st, h)
    ensures AllWellFormed(o, st.vectSize, h + [m]) && Reflects(o, Receive(o, st, m), h + [m])
  {
    var r := Receive(o, st, m);
    forall s: nat, t: nat | s < o.samplingSize ensures t in r.received[s] <==> Arrived(h + [m], s, t) {
      ArrivedStep(h, m, s, t);
    }
    forall t: nat | t < o.nbTimeSteps
      ensures Summarises(o, r.steps[t], Expected(o, st.vectSize, h + [m], t), st.vectSize)
    {
      ExpectedStep(o, st.vectSize, h, m, t);
      if t == m.time && m.time !in st.received[m.simu] {
        AddVectorsSummarises(o, st.steps[t], Expected(o, st.vectSize, h, t), Folded(o, m), st.vectSize);
      }
    }
  }

  /** Main result: after any message sequence, duplicates included, the stream reflects the first arrivals. */
  lemma {:induction false} RunReflects(o: Options, vectSize: nat, h: seq<Data>)
    requires AllWellFormed(o, vectSize, h)
    ensures Reflects(o, ReceiveAll(o, FreshStream(o, vectSize), h), h)
  {
    if h == [] {
      FreshReflects(o, vectSize);
    } else {
      var before, m := h[..|h| - 1], h[|h| - 1];
      assert h == before + [m];
      RunReflects(o, vectSize, before);
      ReceiveReflects(o, ReceiveAll(o, FreshStream(o, vectSize), before), before, m);
    }
  }

  // ---- exactly once ----

  /** The simulations whose bit for the time step is set. */
  ghost function Contributors(st: Stream, time: nat): set<nat>
    requires st.Stream?
  {
    set s: nat | s < |st.received| && time in st.received[s]
  }

  ghost function Senders(ms: seq<Data>): set<nat> {
    set i | 0 <= i < |ms| :: ms[i].simu
  }

  lemma SendersAppend(f: seq<Data>, m: Data)
    ensures Senders(f + [m]) == Senders(f) + {m.simu}
  {
    assert (f + [m])[|f|] == m;
    assert forall i :: 0 <= i < |f| ==> (f + [m])[i] == f[i];
  }

  lemma {:induction false} SendersArrived(h: seq<Data>, time: nat, s: nat)
    ensures s in Senders(FirstArrivals(h, time)) <==> Arrived(h, s, time)
  {
    if h != [] {
      var before, m := h[..|h| - 1], h[|h| - 1];
      assert h == before + [m];
      SendersArrived(before, time, s);
      ArrivedStep(before, m, s, time);
      SendersAppend(FirstArrivals(before, time), m);
    }
  }

  lemma {:induction false} ArrivalsAreDistinct(h: seq<Data>, time: nat)
    ensures |Senders(FirstArrivals(h, time))| == |FirstArrivals(h, time)|
  {
    if h != [] {
      var before, m := h[..|h| - 1], h[|h| - 1];
      ArrivalsAreDistinct(before, time);
      SendersArrived(before, time, m.simu);
      SendersAppend(FirstArrivals(before, time), m);
    }
  }

  lemma ContributorsAreSenders(o: Options, st: Stream, h: seq<Data>, time: nat)
    requires Shaped(o, st) && AllWellFormed(o, st.vectSize, h) && Reflects(o, st, h) && time < o.nbTimeSteps
    ensures Senders(FirstArrivals(h, time)) == Contributors(st, time)
  {
    hide Summarises;
    FirstArrivalsAreReceived(h, time);
    var f := FirstArrivals(h, time);
    forall s: nat ensures s in Senders(f) <==> s in Contributors(st, time) {
      SendersArrived(h, time, s);
      if s in Senders(f) {
        var i :| 0 <= i < |f| && f[i].simu == s;
        assert f[i] in h;
      }
    }
  }

  /** Exactly once: the increment is the number of set bits (twice that with Sobol groups), one message of
      each of those simulations was folded in, and no other. */
  lemma ExactlyOnceCount(o: Options, st: Stream, h: seq<Data>, time: nat)
    requires Shaped(o, st) && AllWellFormed(o, st.vectSize, h) && Reflects(o, st, h) && time < o.nbTimeSteps
    ensures Senders(FirstArrivals(h, time)) == Contributors(st, time)
    ensures |FirstArrivals(h, time)| == |Contributors(st, time)|
    ensures st.steps[time].increment == |Contributors(st, time)| * if o.sobol then 2 else 1
  {
    ContributorsAreSenders(o, st, h, time);
    ArrivalsAreDistinct(h, time);
    ArrivalsWellFormed(o, st.vectSize, h, time);
    SamplesAreSized(o, st.vectSize, FirstArrivals(h, time));
    hide FirstArrivals;
    hide Contributors;
    assert Summarises(o, st.steps[time], Expected(o, st.vectSize, h, time), st.vectSize);
  }

  /** A mean times the number of samples is their sum. */
  lemma MeanTimesCount(o: Options, s: StepStats, xs: seq<seq<real>>, vectSize: nat, k: nat)
    requires o.Valid() && o.order > 0 && AllSized(xs, vectSize) && Summarises(o, s, xs, vectSize) && k < vectSize
    ensures s.cells[k].m1 * s.increment as real == CentralSum(Column(xs, k), 0.0, 1)
  {
    hide FoldCell;
    hide CentralSum;
    FoldedMeanTimesCount(Column(xs, k), o.order);
  }

  // ---- order and duplicate independence ----

  /** Repeated messages of a simulation for a time step carry the same data. */
  ghost predicate Consistent(h: seq<Data>) {
    forall m, n :: m in h && n in h && m.simu == n.simu && m.time == n.time ==> m == n
  }

  ghost predicate SameMessages(h: seq<Data>, g: seq<Data>) {
    forall m :: m in h <==> m in g
  }

  /** In a consistent history, a message that arrived before makes every later copy a repeat. */
  lemma RepeatIsArrived(before: seq<Data>, n: Data)
    requires Consistent(before + [n])
    ensures Arrived(before, n.simu, n.time) <==> n in before
  {
    if Arrived(before, n.simu, n.time) {
      var i :| 0 <= i < |before| && before[i].simu == n.simu && before[i].time == n.time;
      assert before[i] in before + [n] && n in before + [n];
    }
    if n in before {
      var i :| 0 <= i < |before| && before[i] == n;
    }
  }

  lemma {:induction false} Multiplicity(h: seq<Data>, time: nat, m: Data)
    requires Consistent(h)
    ensures multiset(FirstArrivals(h, time))[m] == if m in h && m.time == time then 1 else 0
  {
    if h != [] {
      var before, n := h[..|h| - 1], h[|h| - 1];
      assert h == before + [n];
      assert Consistent(before);
      Multiplicity(before, time, m);
      RepeatIsArrived(before, n);
    }
  }

  lemma ArrivalsPermutation(h: seq<Data>, g: seq<Data>, time: nat)
    requires Consistent(h) && Consistent(g) && SameMessages(h, g)
    ensures multiset(FirstArrivals(h, time)) == multiset(FirstArrivals(g, time))
  {
    forall m: Data
      ensures multiset(FirstArrivals(h, time))[m] == multiset(FirstArrivals(g, time))[m]
    {
      Multiplicity(h, time, m);
      Multiplicity(g, time, m);
    }
  }

  lemma {:induction false} SamplesConcat(o: Options, ms: seq<Data>, ns: seq<Data>)
    requires forall m :: m in ms || m in ns ==> |m.vectors| >= if o.sobol then 2 else 1
    ensures SamplesOf(o, ms + ns) == SamplesOf(o, ms) + SamplesOf(o, ns)
  {
    if ns == [] {
      assert ms + ns == ms;
    } else {
      assert (ms + ns)[..|ms + ns| - 1] == ms + ns[..|ns| - 1];
      SamplesConcat(o, ms, ns[..|ns| - 1]);
    }
  }

  lemma SamplesMiddle(o: Options, ns: seq<Data>, j: nat)
    requires j < |ns| && forall m :: m in ns ==> |m.vectors| >= if o.sobol then 2 else 1
    ensures multiset(SamplesOf(o, ns))
         == multiset(SamplesOf(o, ns[..j] + ns[j + 1..])) + multiset(Folded(o, ns[j]))
  {
    assert ns == (ns[..j] + [ns[j]]) + ns[j + 1..];
    assert (ns[..j] + [ns[j]])[..j] == ns[..j];
    SamplesConcat(o, ns[..j] + [ns[j]], ns[j + 1..]);
    SamplesConcat(o, ns[..j], ns[j + 1..]);
  }

  lemma {:induction false} SamplesPermutation(o: Options, ms: seq<Data>, ns: seq<Data>)
    requires multiset(ms) == multiset(ns)
    requires (forall m :: m in ms ==> |m.vectors| >= if o.sobol then 2 else 1)
          && forall m :: m in ns ==> |m.vectors| >= if o.sobol then 2 else 1
    ensures multiset(SamplesOf(o, ms)) == multiset(SamplesOf(o, ns))
  {
    SameLength(ms, ns);
    if ms != [] {
      var j := MatchLast(ms, ns);
      SamplesPermutation(o, ms[..|ms| - 1], ns[..j] + ns[j + 1..]);
      SamplesMiddle(o, ns, j);
    }
  }

  /** Main result: two delivery sequences with the same set of messages leave equal bits and statistics. */
  lemma OrderIndependence(o: Options, a: Stream, b: Stream, h: seq<Data>, g: seq<Data>)
    requires o.Valid() && Shaped(o, a) && Shaped(o, b) && a.vectSize == b.vectSize
    requires AllWellFormed(o, a.vectSize, h) && AllWellFormed(o, b.vectSize, g)
    requires Reflects(o, a, h) && Reflects(o, b, g)
    requires Consistent(h) && Consistent(g) && SameMessages(h, g)
    ensures a.received == b.received
    ensures forall t :: 0 <= t < o.nbTimeSteps ==>
              && a.steps[t].increment == b.steps[t].increment && a.steps[t].cells == b.steps[t].cells
              && a.steps[t].exceed == b.steps[t].exceed
              && (o.minMaxOp && a.steps[t].increment > 0 ==> a.steps[t].minMax == b.steps[t].minMax)
  {
    forall s: nat | s < o.samplingSize ensures a.received[s] == b.received[s] {
      forall t: nat ensures t in a.received[s] <==> t in b.received[s] {
        if Arrived(h, s, t) {
          ArrivedInBoth(h, g, s, t);
        }
        if Arrived(g, s, t) {
          ArrivedInBoth(g, h, s, t);
        }
      }
    }
    forall t: nat | t < o.nbTimeSteps
      ensures a.steps[t].increment == b.steps[t].increment && a.steps[t].cells == b.steps[t].cells
      ensures a.steps[t].exceed == b.steps[t].exceed
      ensures o.minMaxOp && a.steps[t].increment > 0 ==> a.steps[t].minMax == b.steps[t].minMax
    {
      var v := a.vectSize;
      ArrivalsPermutation(h, g, t);
      ArrivalsWellFormed(o, v, h, t);
      ArrivalsWellFormed(o, v, g, t);
      SamplesPermutation(o, FirstArrivals(h, t), FirstArrivals(g, t));
      SummaryPermutation(o, a.steps[t], b.steps[t], Expected(o, v, h, t), Expected(o, v, g, t), v);
    }
  }

  lemma ArrivedInBoth(h: seq<Data>, g: seq<Data>, simu: nat, time: nat)
    requires SameMessages(h, g) && Arrived(h, simu, time)
    ensures Arrived(g, simu, time)
  {
    var i :| 0 <= i < |h| && h[i].simu == simu && h[i].time == time;
    assert h[i] in g;
  }
}
