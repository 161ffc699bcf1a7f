/** What is written for a field after the study: the gathered mean and variance of every mesh point are those of
    the simulations' own values there (melissa_write_stats_seq, server/output/melissa_output.c, at the end of
    everything the clients sent and every server rank accumulated). */
module FieldOutput {
  import opened Sequences
  import opened Samples
  import opened GeneralMoments
  import opened Partition
  import opened Redistribution
  import opened Gathering
  import opened StreamStats
  import opened ExactlyOnce
  import opened Checkpoint
  import opened Recovery
  import opened Completion
  import opened Settling
  import opened StatServer
  import opened ServerRuns
  import opened ServerRecovery

  // ---- the study ----

  /** The global vectors of a field: for every simulation and time step one vector, or with Sobol groups one for every
      group member. */
  datatype Study = Study(sobol: bool, size: nat, vectors: (nat, nat) -> seq<seq<real>>)
  {
    ghost predicate Valid() {
      forall s, t :: |vectors(s, t)| >= (if sobol then 2 else 1)
                     && forall k :: 0 <= k < |vectors(s, t)| ==> |vectors(s, t)[k]| == size
    }

    /** The values that count as samples at a global point: those of the first two members of a Sobol group. */
    ghost function At(s: nat, time: nat, p: nat): seq<real>
      requires Valid() && p < size
    {
      var v := vectors(s, time);
      if sobol then [v[0][p], v[1][p]] else [v[0][p]]
    }
  }

  /** The values of some simulations at one global point. */
  ghost function PointSamples(g: Study, simus: seq<nat>, time: nat, p: nat): (xs: seq<real>)
    requires g.Valid() && p < g.size
    ensures |xs| == |simus| * if g.sobol then 2 else 1
  {
    if simus == [] then []
    else PointSamples(g, simus[..|simus| - 1], time, p) + g.At(simus[|simus| - 1], time, p)
  }

  lemma {:induction false} PointSamplesConcat(g: Study, a: seq<nat>, b: seq<nat>, time: nat, p: nat)
    requires g.Valid() && p < g.size
    ensures PointSamples(g, a + b, time, p) == PointSamples(g, a, time, p) + PointSamples(g, b, time, p)
  {
    if b == [] {
      assert a + b == a;
    } else {
      assert (a + b)[..|a + b| - 1] == a + b[..|b| - 1];
      PointSamplesConcat(g, a, b[..|b| - 1], time, p);
    }
  }

  lemma OnePointSample(g: Study, s: nat, time: nat, p: nat)
    requires g.Valid() && p < g.size
    ensures PointSamples(g, [s], time, p) == g.At(s, time, p)
  {
    assert [s][..0] == [];
  }

  lemma PointSamplesMiddle(g: Study, a: seq<nat>, j: nat, time: nat, p: nat)
    requires j < |a| && g.Valid() && p < g.size
    ensures multiset(PointSamples(g, a, time, p))
         == multiset(PointSamples(g, a[..j] + a[j + 1..], time, p)) + multiset(g.At(a[j], time, p))
  {
    hide PointSamples;
    assert a[..j] + [a[j]] + a[j + 1..] == a;
    PointSamplesConcat(g, a[..j] + [a[j]], a[j + 1..], time, p);
    PointSamplesConcat(g, a[..j], [a[j]], time, p);
    OnePointSample(g, a[j], time, p);
    PointSamplesConcat(g, a[..j], a[j + 1..], time, p);
  }

  lemma {:induction false} PointSamplesPermutation(g: Study, a: seq<nat>, b: seq<nat>, time: nat, p: nat)
    requires multiset(a) == multiset(b) && g.Valid() && p < g.size
    ensures multiset(PointSamples(g, a, time, p)) == multiset(PointSamples(g, b, time, p))
  {
    SameLength(a, b);
    if a != [] {
      var j := MatchLast(a, b);
      PointSamplesPermutation(g, a[..|a| - 1], b[..j] + b[j + 1..], time, p);
      PointSamplesMiddle(g, b, j, time, p);
    }
  }

  // ---- one stream ----

  function SendersInOrder(ms: seq<Data>): (s: seq<nat>)
    ensures |s| == |ms|
  {
    if ms == [] then [] else SendersInOrder(ms[..|ms| - 1]) + [ms[|ms| - 1].simu]
  }

  ghost function Elements(s: seq<nat>): set<nat> {
    set x | x in s
  }

  lemma {:induction false} SendersAreElements(ms: seq<Data>)
    ensures Elements(SendersInOrder(ms)) == Senders(ms)
  {
    if ms != [] {
      var n := |ms| - 1;
      SendersAreElements(ms[..n]);
      SendersAppend(ms[..n], ms[n]);
      assert ms == ms[..n] + [ms[n]];
      assert Elements(SendersInOrder(ms)) == Elements(SendersInOrder(ms[..n])) + {ms[n].simu};
    }
  }

  /** A list with as many different elements as entries has no repeats. */
  lemma {:induction false} NoRepeats(s: seq<nat>, x: nat)
    ensures |Elements(s)| <= |s|
    ensures |Elements(s)| == |s| ==> multiset(s)[x] == if x in s then 1 else 0
  {
    if s != [] {
      var n := |s| - 1;
      NoRepeats(s[..n], x);
      NoRepeats(s[..n], s[n]);
      assert s == s[..n] + [s[n]];
      assert Elements(s) == Elements(s[..n]) + {s[n]};
    }
  }

  lemma SameElementsPermute(a: seq<nat>, b: seq<nat>)
    requires |Elements(a)| == |a| && |Elements(b)| == |b| && Elements(a) == Elements(b)
    ensures multiset(a) == multiset(b)
  {
    forall x: nat ensures multiset(a)[x] == multiset(b)[x] {
      NoRepeats(a, x);
      NoRepeats(b, x);
      assert x in a <==> x in Elements(a);
      assert x in b <==> x in Elements(b);
    }
  }

  /** The study lives on the mesh that the clients share out. */
  ghost predicate OnMesh(clients: seq<nat>, servers: seq<nat>, g: Study) {
    SameVector(clients, servers) && g.Valid() && g.size == Total(clients)
  }

  /** A message of client r to server j carries the points both share of the simulation's global vectors. */
  ghost predicate CarriesSlice(clients: seq<nat>, servers: seq<nat>, g: Study, r: nat, j: nat, m: Data)
    requires OnMesh(clients, servers, g) && r < |clients| && j < |servers|
  {
    var v := g.vectors(m.simu, m.time);
    && |m.vectors| == |v|
    && forall k :: 0 <= k < |v| ==> m.vectors[k] == SharedPoints(clients, servers, r, j, v[k])
  }

  ghost predicate CarrySlices(clients: seq<nat>, servers: seq<nat>, g: Study, r: nat, j: nat, log: seq<Data>)
    requires OnMesh(clients, servers, g) && r < |clients| && j < |servers|
  {
    forall m :: m in log ==> CarriesSlice(clients, servers, g, r, j, m)
  }

  /** Where local point i of stream (j, r) lies. */
  lemma SharedPointAt<T>(clients: seq<nat>, servers: seq<nat>, r: nat, j: nat, global: seq<T>, i: nat)
    requires SameVector(clients, servers) && r < |clients| && j < |servers| && |global| == Total(clients)
    requires i < SharedCount(clients, servers, r, j)
    ensures SharedFrom(clients, servers, r, j) + i < |global|
    ensures SharedPoints(clients, servers, r, j, global)[i] == global[SharedFrom(clients, servers, r, j) + i]
  {
    PrefixMonotone(clients, r + 1, |clients|);
  }

  /** Local point i of the message is the global point p. */
  ghost predicate HoldsPoint(g: Study, m: Data, i: nat, p: nat)
    requires g.Valid() && p < g.size
  {
    && |m.vectors| >= 1 && |m.vectors[0]| > i && m.vectors[0][i] == g.vectors(m.simu, m.time)[0][p]
    && (g.sobol ==> |m.vectors| >= 2 && |m.vectors[1]| > i && m.vectors[1][i] == g.vectors(m.simu, m.time)[1][p])
  }

  predicate Wide(xs: seq<seq<real>>, i: nat) {
    forall k :: 0 <= k < |xs| ==> |xs[k]| > i
  }

  lemma ColumnOne(xs: seq<seq<real>>, x: seq<real>, i: nat)
    requires Wide(xs, i) && |x| > i
    ensures Wide(xs + [x], i) && Column(xs + [x], i) == Column(xs, i) + [x[i]]
  {
    hide Column;
    ColumnAppend(xs, x, i);
  }

  lemma ColumnTwo(xs: seq<seq<real>>, x: seq<real>, y: seq<real>, i: nat)
    requires Wide(xs, i) && |x| > i && |y| > i
    ensures Wide(xs + [x, y], i) && Column(xs + [x, y], i) == Column(xs, i) + [x[i], y[i]]
  {
    hide Column;
    hide Wide;
    ColumnOne(xs, x, i);
    ColumnOne(xs + [x], y, i);
    assert xs + [x] + [y] == xs + [x, y];
  }

  /** One more message whose point i is the global point p. */
  lemma ColumnFolded(g: Study, o: Options, xs: seq<seq<real>>, m: Data, i: nat, p: nat)
    requires o.sobol == g.sobol && g.Valid() && p < g.size && HoldsPoint(g, m, i, p) && Wide(xs, i)
    ensures |m.vectors| >= if o.sobol then 2 else 1
    ensures Wide(xs + Folded(o, m), i)
    ensures Column(xs + Folded(o, m), i) == Column(xs, i) + g.At(m.simu, m.time, p)
  {
    hide Column;
    hide Wide;
    if o.sobol {
      ColumnTwo(xs, m.vectors[0], m.vectors[1], i);
    } else {
      ColumnOne(xs, m.vectors[0], i);
    }
  }

  /** All messages are about the time step and have the global point p as their point i. */
  ghost predicate AllHold(g: Study, ms: seq<Data>, time: nat, i: nat, p: nat)
    requires g.Valid() && p < g.size
  {
    forall k :: 0 <= k < |ms| ==> ms[k].time == time && HoldsPoint(g, ms[k], i, p)
  }

  lemma HoldersAreLong(g: Study, o: Options, ms: seq<Data>, time: nat, i: nat, p: nat)
    requires o.sobol == g.sobol && g.Valid() && p < g.size && AllHold(g, ms, time, i, p)
    ensures forall k :: 0 <= k < |ms| ==> |ms[k].vectors| >= if o.sobol then 2 else 1
  {
  }

  lemma {:induction false} ColumnOfArrivals(g: Study, o: Options, ms: seq<Data>, time: nat, i: nat, p: nat)
    requires o.sobol == g.sobol && g.Valid() && p < g.size && AllHold(g, ms, time, i, p)
    ensures forall k :: 0 <= k < |ms| ==> |ms[k].vectors| >= if o.sobol then 2 else 1
    ensures Wide(SamplesOf(o, ms), i)
    ensures Column(SamplesOf(o, ms), i) == PointSamples(g, SendersInOrder(ms), time, p)
  {
    HoldersAreLong(g, o, ms, time, i, p);
    if ms != [] {
      var n := |ms| - 1;
      assert HoldsPoint(g, ms[n], i, p);
      ColumnOfArrivals(g, o, ms[..n], time, i, p);
      hide Column;
      hide Wide;
      hide Folded;
      hide HoldsPoint;
      hide AllHold;
      ColumnFolded(g, o, SamplesOf(o, ms[..n]), ms[n], i, p);
      SendersLast(ms);
    }
  }

  lemma SendersLast(ms: seq<Data>)
    requires ms != []
    ensures SendersInOrder(ms)[..|ms| - 1] == SendersInOrder(ms[..|ms| - 1])
    ensures SendersInOrder(ms)[|ms| - 1] == ms[|ms| - 1].simu
  {
  }

  lemma SliceHoldsPoint(clients: seq<nat>, servers: seq<nat>, g: Study, r: nat, j: nat, m: Data, i: nat)
    requires OnMesh(clients, servers, g) && r < |clients| && j < |servers|
    requires i < SharedCount(clients, servers, r, j) && CarriesSlice(clients, servers, g, r, j, m)
    ensures SharedFrom(clients, servers, r, j) + i < g.size
    ensures HoldsPoint(g, m, i, SharedFrom(clients, servers, r, j) + i)
  {
    var v := g.vectors(m.simu, m.time);
    SharedPointAt(clients, servers, r, j, v[0], i);
    if g.sobol {
      SharedPointAt(clients, servers, r, j, v[1], i);
    }
  }

  /** The samples a stream holds at a point are the values of its contributing simulations there. */
  lemma StreamSamples(clients: seq<nat>, servers: seq<nat>, g: Study, r: nat, j: nat, o: Options, log: seq<Data>,
                      time: nat, simus: seq<nat>, i: nat)
    requires OnMesh(clients, servers, g) && r < |clients| && j < |servers| && o.sobol == g.sobol
    requires i < SharedCount(clients, servers, r, j) && CarrySlices(clients, servers, g, r, j, log)
    requires AllWellFormed(o, SharedCount(clients, servers, r, j), log)
    requires |Elements(simus)| == |simus| && Senders(FirstArrivals(log, time)) == Elements(simus)
    ensures SharedFrom(clients, servers, r, j) + i < g.size
    ensures multiset(Column(Expected(o, SharedCount(clients, servers, r, j), log, time), i))
         == multiset(PointSamples(g, simus, time, SharedFrom(clients, servers, r, j) + i))
  {
    hide SharedCount;
    hide SharedPoints;
    hide SharedFrom;
    hide Column;
    hide PointSamples;
    hide SendersInOrder;
    hide Elements;
    hide Senders;
    hide CarriesSlice;
    hide HoldsPoint;
    var f, p := FirstArrivals(log, time), SharedFrom(clients, servers, r, j) + i;
    FirstArrivalsAreReceived(log, time);
    ArrivalsAreDistinct(log, time);
    hide FirstArrivals;
    SharedPointAt(clients, servers, r, j, g.vectors(0, 0)[0], i);
    forall k | 0 <= k < |f| ensures f[k].time == time && HoldsPoint(g, f[k], i, p) {
      assert f[k] in f;
      SliceHoldsPoint(clients, servers, g, r, j, f[k], i);
    }
    ColumnOfArrivals(g, o, f, time, i, p);
    SendersAreElements(f);
    SameElementsPermute(SendersInOrder(f), simus);
    PointSamplesPermutation(g, SendersInOrder(f), simus, time, p);
  }

  /** Mean and second central moment of the simulations at every global point. */
  ghost function MeansAt(g: Study, simus: seq<nat>, time: nat): (v: seq<real>)
    requires simus != [] && g.Valid()
    ensures |v| == g.size
  {
    seq(g.size, p requires 0 <= p < g.size => Mean(PointSamples(g, simus, time, p)))
  }

  ghost function VariancesAt(g: Study, simus: seq<nat>, time: nat): (v: seq<real>)
    requires simus != [] && g.Valid()
    ensures |v| == g.size
  {
    seq(g.size, p requires 0 <= p < g.size => CentralMoment(PointSamples(g, simus, time, p), 2))
  }

  function ThetasOf(cells: seq<Cell>): seq<real> {
    seq(|cells|, k requires 0 <= k < |cells| => cells[k].theta2)
  }

  /** What one stream contributes to the written mean and variance; streams without data are skipped. */
  function WrittenMeans(st: Stream, time: nat): seq<real>
    requires st.Stream? ==> time < |st.steps|
  {
    if st.Stream? && st.vectSize > 0 then RawOf(st.steps[time].cells, 1) else []
  }

  function WrittenVariances(st: Stream, time: nat): seq<real>
    requires st.Stream? ==> time < |st.steps|
  {
    if st.Stream? && st.vectSize > 0 then ThetasOf(st.steps[time].cells) else []
  }

  lemma MeanFromTotal(m: real, n: nat, sum: real, xs: seq<real>)
    requires n > 0 && |xs| == n && m * n as real == sum == CentralSum(xs, 0.0, 1)
    ensures m == Mean(xs)
  {
    hide CentralSum;
    RawMomentTimes(xs, 1);
  }

  lemma PointMean(clients: seq<nat>, servers: seq<nat>, g: Study, r: nat, j: nat, o: Options, st: Stream,
                  log: seq<Data>, time: nat, simus: seq<nat>, i: nat)
    requires OnMesh(clients, servers, g) && r < |clients| && j < |servers| && o.sobol == g.sobol
    requires CarrySlices(clients, servers, g, r, j, log)
    requires st.Stream? && time < |st.steps| && i < st.vectSize == SharedCount(clients, servers, r, j)
    requires AllWellFormed(o, st.vectSize, log) && MeansOfFirstArrivals(o, st, log, time)
    requires simus != [] && |Elements(simus)| == |simus|
    requires st.steps[time].increment == |simus| * if g.sobol then 2 else 1
    requires Senders(FirstArrivals(log, time)) == Elements(simus)
    ensures SharedFrom(clients, servers, r, j) + i < g.size
    ensures st.steps[time].cells[i].m1 == Mean(PointSamples(g, simus, time, SharedFrom(clients, servers, r, j) + i))
  {
    hide SharedCount;
    hide SharedFrom;
    hide SharedPoints;
    hide CarrySlices;
    hide PointSamples;
    hide Mean;
    hide Column;
    hide Expected;
    hide CentralSum;
    hide Elements;
    hide FirstArrivals;
    hide Senders;
    StreamSamples(clients, servers, g, r, j, o, log, time, simus, i);
    var xs := PointSamples(g, simus, time, SharedFrom(clients, servers, r, j) + i);
    CentralSumPermutation(Column(Expected(o, st.vectSize, log, time), i), xs, 0.0, 1);
    MeanFromTotal(st.steps[time].cells[i].m1, st.steps[time].increment, CentralSum(xs, 0.0, 1), xs);
  }

  ghost predicate AgreeAt(local: seq<real>, global: seq<real>, from: nat, i: nat) {
    i < |local| && from + i < |global| && local[i] == global[from + i]
  }

  /** A sequence that agrees with a global vector at every shared point is the shared slice of it. */
  lemma IsShared(clients: seq<nat>, servers: seq<nat>, r: nat, j: nat, local: seq<real>, global: seq<real>)
    requires SameVector(clients, servers) && r < |clients| && j < |servers| && |global| == Total(clients)
    requires |local| == SharedCount(clients, servers, r, j)
    requires forall i :: 0 <= i < |local| ==> AgreeAt(local, global, SharedFrom(clients, servers, r, j), i)
    ensures local == SharedPoints(clients, servers, r, j, global)
  {
    forall i | 0 <= i < |local| ensures local[i] == SharedPoints(clients, servers, r, j, global)[i] {
      assert AgreeAt(local, global, SharedFrom(clients, servers, r, j), i);
      SharedPointAt(clients, servers, r, j, global, i);
    }
  }

  /** A stream that counts its simulations once writes their means at the points it shares. */
  lemma StreamMeans(clients: seq<nat>, servers: seq<nat>, g: Study, r: nat, j: nat, o: Options, st: Stream,
                    log: seq<Data>, time: nat, simus: seq<nat>)
    requires OnMesh(clients, servers, g) && r < |clients| && j < |servers| && o.sobol == g.sobol
    requires CarrySlices(clients, servers, g, r, j, log)
    requires st.Stream? && time < |st.steps| && st.vectSize == SharedCount(clients, servers, r, j) > 0
    requires AllWellFormed(o, st.vectSize, log)
    requires CountsOnce(o, st, log, time) && MeansOfFirstArrivals(o, st, log, time)
    requires simus != [] && |Elements(simus)| == |simus| && Senders(FirstArrivals(log, time)) == Elements(simus)
    ensures WrittenMeans(st, time) == SharedPoints(clients, servers, r, j, MeansAt(g, simus, time))
  {
    hide CarrySlices;
    hide SharedCount;
    hide SharedFrom;
    hide PointSamples;
    hide Mean;
    hide Elements;
    hide FirstArrivals;
    hide AllWellFormed;
    assert st.steps[time].increment == |simus| * if g.sobol then 2 else 1;
    assert |st.steps[time].cells| == st.vectSize;
    hide CountsOnce;
    hide MeansOfFirstArrivals;
    var local, global := WrittenMeans(st, time), MeansAt(g, simus, time);
    assert |local| == st.vectSize;
    forall i | 0 <= i < |local|
      ensures AgreeAt(local, global, SharedFrom(clients, servers, r, j), i)
    {
      PointMean(clients, servers, g, r, j, o, st, log, time, simus, i);
    }
    IsShared(clients, servers, r, j, local, global);
  }

  lemma PointVariance(clients: seq<nat>, servers: seq<nat>, g: Study, r: nat, j: nat, o: Options, st: Stream,
                      log: seq<Data>, time: nat, simus: seq<nat>, i: nat)
    requires OnMesh(clients, servers, g) && r < |clients| && j < |servers| && o.sobol == g.sobol
    requires 2 <= o.order <= 4 && CarrySlices(clients, servers, g, r, j, log)
    requires st.Stream? && time < |st.steps| && i < st.vectSize == SharedCount(clients, servers, r, j)
    requires AllWellFormed(o, st.vectSize, log)
    requires Summarises(o, st.steps[time], Expected(o, st.vectSize, log, time), st.vectSize)
    requires simus != [] && |Elements(simus)| == |simus| && Senders(FirstArrivals(log, time)) == Elements(simus)
    ensures SharedFrom(clients, servers, r, j) + i < g.size && i < |st.steps[time].cells|
    ensures st.steps[time].cells[i].theta2
         == CentralMoment(PointSamples(g, simus, time, SharedFrom(clients, servers, r, j) + i), 2)
  {
    hide SharedCount;
    hide SharedFrom;
    hide CarrySlices;
    hide PointSamples;
    hide CentralMoment;
    hide FoldCell;
    hide Expected;
    hide Column;
    hide Elements;
    hide FirstArrivals;
    hide Senders;
    StreamSamples(clients, servers, g, r, j, o, log, time, simus, i);
    var samples := PointSamples(g, simus, time, SharedFrom(clients, servers, r, j) + i);
    FoldCellPermutation(Column(Expected(o, st.vectSize, log, time), i), samples, o.order);
    FoldCellIsMoments(samples, o.order);
  }

  /** A stream that reflects its messages writes their second central moments. */
  lemma StreamVariances(clients: seq<nat>, servers: seq<nat>, g: Study, r: nat, j: nat, o: Options, st: Stream,
                        log: seq<Data>, time: nat, simus: seq<nat>)
    requires OnMesh(clients, servers, g) && r < |clients| && j < |servers| && o.sobol == g.sobol
    requires 2 <= o.order <= 4 && CarrySlices(clients, servers, g, r, j, log)
    requires Shaped(o, st) && time < o.nbTimeSteps && st.vectSize == SharedCount(clients, servers, r, j) > 0
    requires AllWellFormed(o, st.vectSize, log) && Reflects(o, st, log)
    requires simus != [] && |Elements(simus)| == |simus| && Senders(FirstArrivals(log, time)) == Elements(simus)
    ensures WrittenVariances(st, time) == SharedPoints(clients, servers, r, j, VariancesAt(g, simus, time))
  {
    hide CarrySlices;
    hide SharedCount;
    hide SharedFrom;
    hide PointSamples;
    hide CentralMoment;
    hide Elements;
    hide FirstArrivals;
    hide AllWellFormed;
    assert Summarises(o, st.steps[time], Expected(o, st.vectSize, log, time), st.vectSize);
    assert |st.steps[time].cells| == st.vectSize;
    hide Reflects;
    hide Summarises;
    var local, global := WrittenVariances(st, time), VariancesAt(g, simus, time);
    assert |local| == st.vectSize;
    forall i | 0 <= i < |local|
      ensures AgreeAt(local, global, SharedFrom(clients, servers, r, j), i)
    {
      PointVariance(clients, servers, g, r, j, o, st, log, time, simus, i);
    }
    IsShared(clients, servers, r, j, local, global);
  }

  // ---- what the clients sent ----

  /** What client rank r sends for simulation s at time step t, for all s, t and r. */
  type Mail = (nat, nat) -> seq<seq<Packet>>

  /** All clients send as FieldPattern.Send does. */
  ghost predicate AllSend(clients: seq<nat>, servers: seq<nat>, sent: Mail, g: Study)
    requires OnMesh(clients, servers, g)
  {
    forall s, t :: AllSent(clients, servers, sent(s, t), g.vectors(s, t))
  }

  /** The message was among the packets from client r to server j. */
  ghost predicate WasSent(sent: Mail, r: nat, j: nat, m: Data) {
    var packets := sent(m.simu, m.time);
    r < |packets| && exists e :: 0 <= e < |packets[r]| && packets[r][e].to == j && packets[r][e].vectors == m.vectors
  }

  /** Sending meets receiving: a message that was sent carries the shared points of the simulation's vectors. */
  lemma SentCarriesSlice(clients: seq<nat>, servers: seq<nat>, sent: Mail, g: Study, r: nat, j: nat, m: Data)
    requires OnMesh(clients, servers, g) && AllSend(clients, servers, sent, g) && r < |clients| && j < |servers|
    requires WasSent(sent, r, j, m)
    ensures CarriesSlice(clients, servers, g, r, j, m)
  {
    var packets := sent(m.simu, m.time);
    assert AllSent(clients, servers, packets, g.vectors(m.simu, m.time));
    var e :| 0 <= e < |packets[r]| && packets[r][e].to == j && packets[r][e].vectors == m.vectors;
    assert IsPacket(clients, servers, packets[r][e], r, e, g.vectors(m.simu, m.time));
  }

  // ---- all server ranks ----

  /** The streams of a field on server rank j are the clients that share points with it. */
  ghost predicate HostsField(clients: seq<nat>, servers: seq<nat>, c: Config, field: nat, j: nat)
    requires SameVector(clients, servers) && j < |servers|
  {
    forall r: nat :: r < |clients| ==>
      && ((field, r) in c.sizes <==> SharedCount(clients, servers, r, j) > 0)
      && ((field, r) in c.sizes ==> c.sizes[(field, r)] == SharedCount(clients, servers, r, j))
  }

  /** Every message of the field that arrives, first or repeated, was sent by its client to this server rank. */
  ghost predicate OnlySent(clients: seq<nat>, sent: Mail, field: nat, j: nat, es: seq<Event>) {
    forall e, r: nat :: e in es && e.DataMessage? && e.key == (field, r) && r < |clients| ==>
      WasSent(sent, r, j, e.data)
  }

  predicate Knows(l: Life, m: Data) {
    m in l.base || m in l.since || m in l.savedLog
  }

  lemma LifeStepAdds(l: Life, e: Event, k: Key, m: Data)
    requires Knows(LifeStep(l, e, k), m)
    ensures Knows(l, m) || (e.DataMessage? && e.key == k && e.data == m)
  {
  }

  /** Everything a stream holds, in memory and on disc, was delivered to it. */
  lemma {:induction false} LifeWasDelivered(es: seq<Event>, k: Key, m: Data)
    requires Knows(LifeOf(es, k), m)
    ensures exists e :: e in es && e.DataMessage? && e.key == k && e.data == m
  {
    var n := |es| - 1;
    LifeStepAdds(LifeOf(es[..n], k), es[n], k, m);
    hide LifeStep;
    hide Knows;
    if Knows(LifeOf(es[..n], k), m) {
      LifeWasDelivered(es[..n], k, m);
      var e :| e in es[..n] && e.DataMessage? && e.key == k && e.data == m;
      assert e in es;
    } else {
      assert es[n] in es;
    }
  }

  lemma LogCarriesSlices(clients: seq<nat>, servers: seq<nat>, sent: Mail, g: Study, field: nat, j: nat, r: nat,
                         es: seq<Event>)
    requires OnMesh(clients, servers, g) && AllSend(clients, servers, sent, g) && j < |servers| && r < |clients|
    requires OnlySent(clients, sent, field, j, es)
    ensures CarrySlices(clients, servers, g, r, j, LifeOf(es, (field, r)).Log())
  {
    hide AllSend;
    hide WasSent;
    forall m | m in LifeOf(es, (field, r)).Log() ensures CarriesSlice(clients, servers, g, r, j, m) {
      LifeWasDelivered(es, (field, r), m);
      SentCarriesSlice(clients, servers, sent, g, r, j, m);
    }
  }

  /** The streams of a field on one server rank, in client order; a client without a stream contributes nothing. */
  function StreamsOf(streams: map<Key, Stream>, field: nat, nbClients: nat): (s: seq<Stream>)
    ensures |s| == nbClients
  {
    seq(nbClients, r requires 0 <= r < nbClients =>
      if (field, r) in streams then streams[(field, r)] else NoStream)
  }

  /** Server rank j has received exactly the simulations simus for a time step of the field, on streams that its events
      left alive. */
  ghost predicate RankProcessed(clients: seq<nat>, servers: seq<nat>, c: Config, es: seq<Event>, sent: Mail, g: Study,
                                field: nat, time: nat, simus: seq<nat>, j: nat)
    requires SameVector(clients, servers) && j < |servers|
  {
    && c.Valid() && c.o.sobol == g.sobol && time < c.o.nbTimeSteps && IsRun(c, es)
    && HostsField(clients, servers, c, field, j) && OnlySent(clients, sent, field, j, es)
    && forall r: nat :: r < |clients| && (field, r) in c.sizes ==>
         && LifeOf(es, (field, r)).alive
         && Senders(FirstArrivals(LifeOf(es, (field, r)).Log(), time)) == Elements(simus)
  }

  /** The clients sent the study's vectors, and all server ranks have received exactly the simulations simus. */
  ghost predicate AllProcessed(clients: seq<nat>, servers: seq<nat>, cs: seq<Config>, ess: seq<seq<Event>>, sent: Mail,
                               g: Study, field: nat, time: nat, simus: seq<nat>)
    requires OnMesh(clients, servers, g)
  {
    && |cs| == |ess| == |servers| && AllSend(clients, servers, sent, g)
    && simus != [] && |Elements(simus)| == |simus|
    && forall j :: 0 <= j < |servers| ==>
         RankProcessed(clients, servers, cs[j], ess[j], sent, g, field, time, simus, j)
  }

  /** The memory of server rank j as the writer reads it. */
  ghost function RankStreams(clients: seq<nat>, c: Config, es: seq<Event>, field: nat): seq<Stream>
    requires IsRun(c, es)
  {
    StreamsOf(Run(c, es).streams, field, |clients|)
  }

  lemma MeansOfRank(clients: seq<nat>, servers: seq<nat>, c: Config, es: seq<Event>, sent: Mail, g: Study, field: nat,
                    time: nat, simus: seq<nat>, j: nat, r: nat)
    requires OnMesh(clients, servers, g) && AllSend(clients, servers, sent, g) && j < |servers| && r < |clients|
    requires simus != [] && |Elements(simus)| == |simus| && c.o.order > 0
    requires RankProcessed(clients, servers, c, es, sent, g, field, time, simus, j)
    ensures var st := RankStreams(clients, c, es, field)[r];
            && (st.Stream? ==> time < |st.steps|)
            && WrittenMeans(st, time) == SharedPoints(clients, servers, r, j, MeansAt(g, simus, time))
  {
    var k: Key := (field, r);
    var st := RankStreams(clients, c, es, field)[r];
    if k in c.sizes {
      ExactlyOnceAlways(c, es, k, time);
      LogCarriesSlices(clients, servers, sent, g, field, j, r, es);
      hide LifeOf;
      hide Run;
      hide IsRun;
      StreamMeans(clients, servers, g, r, j, c.o, st, LifeOf(es, k).Log(), time, simus);
    } else {
      assert SharedCount(clients, servers, r, j) == 0;
      assert Run(c, es).streams.Keys == c.sizes.Keys;
    }
  }

  /** The central moments of the field's streams on one rank are those of their logs. */
  ghost predicate RankCurrent(clients: seq<nat>, c: Config, es: seq<Event>, field: nat, time: nat) {
    forall r: nat :: r < |clients| && (field, r) in c.sizes ==> StreamCurrent(c, es, (field, r), time)
  }

  ghost predicate StreamCurrent(c: Config, es: seq<Event>, k: Key, time: nat)
    requires k in c.sizes
  {
    AllWellFormed(c.o, c.sizes[k], LifeOf(es, k).base) && ThetasFollow(c, es, k, time)
  }

  lemma VariancesOfRank(clients: seq<nat>, servers: seq<nat>, c: Config, es: seq<Event>, sent: Mail, g: Study,
                        field: nat, time: nat, simus: seq<nat>, j: nat, r: nat)
    requires OnMesh(clients, servers, g) && AllSend(clients, servers, sent, g) && j < |servers| && r < |clients|
    requires simus != [] && |Elements(simus)| == |simus| && c.o.order >= 2
    requires RankProcessed(clients, servers, c, es, sent, g, field, time, simus, j)
    ensures var st := RankStreams(clients, c, es, field)[r];
            && (st.Stream? ==> time < |st.steps|)
            && |WrittenVariances(st, time)| == SharedCount(clients, servers, r, j)
            && (WrittenVariances(st, time) == SharedPoints(clients, servers, r, j, VariancesAt(g, simus, time))
                <==> ((field, r) in c.sizes ==> StreamCurrent(c, es, (field, r), time)))
  {
    var k: Key := (field, r);
    var st := RankStreams(clients, c, es, field)[r];
    if k in c.sizes {
      var log := LifeOf(es, k).Log();
      StreamFollowsLife(c, es, k);
      RecoveredStream(c, es, k, time);
      LogCarriesSlices(clients, servers, sent, g, field, j, r, es);
      var ideal := Accumulated(c.o, c.sizes[k], log);
      RunReflects(c.o, c.sizes[k], log);
      hide LifeOf;
      hide Run;
      hide IsRun;
      hide ReceiveAll;
      hide Reflects;
      hide ThetasFollow;
      hide SharedPoints;
      StreamVariances(clients, servers, g, r, j, c.o, ideal, log, time, simus);
      SameThetas(st, ideal, time);
    } else {
      assert SharedCount(clients, servers, r, j) == 0;
      assert Run(c, es).streams.Keys == c.sizes.Keys;
    }
  }

  lemma SameThetas(a: Stream, b: Stream, time: nat)
    requires a.Stream? && b.Stream? && time < |a.steps| && time < |b.steps| && a.vectSize > 0 && b.vectSize > 0
    requires |a.steps[time].cells| == |b.steps[time].cells|
    ensures WrittenVariances(a, time) == WrittenVariances(b, time)
       <==> forall i :: 0 <= i < |a.steps[time].cells| ==>
              a.steps[time].cells[i].theta2 == b.steps[time].cells[i].theta2
  {
    var v, w := WrittenVariances(a, time), WrittenVariances(b, time);
    if v == w {
      forall i | 0 <= i < |a.steps[time].cells| ensures a.steps[time].cells[i].theta2 == b.steps[time].cells[i].theta2 {
        assert v[i] == w[i];
      }
    }
  }

  // ---- writing ----

  /** The streams' contributions on one rank, in client order. */
  function MeanSlices(streams: seq<Stream>, time: nat): (s: seq<seq<real>>)
    requires forall r :: 0 <= r < |streams| && streams[r].Stream? ==> time < |streams[r].steps|
    ensures |s| == |streams|
  {
    seq(|streams|, r requires 0 <= r < |streams| => WrittenMeans(streams[r], time))
  }

  function VarianceSlices(streams: seq<Stream>, time: nat): (s: seq<seq<real>>)
    requires forall r :: 0 <= r < |streams| && streams[r].Stream? ==> time < |streams[r].steps|
    ensures |s| == |streams|
  {
    seq(|streams|, r requires 0 <= r < |streams| => WrittenVariances(streams[r], time))
  }

  /** The loops of melissa_write_stats_seq for one statistic: every rank copies its streams into its buffer, the
      local sizes are exchanged, rank 0 gathers. */
  method WriteStatistic(slices: seq<seq<seq<real>>>) returns (written: seq<real>)
    requires slices != []
    ensures written == Flatten(Blocks(slices))
  {
    var blocks: seq<seq<real>>, localVectSizes: seq<nat> := [], [];
    for j := 0 to |slices|
      invariant |blocks| == |localVectSizes| == j
      invariant forall i :: 0 <= i < j ==> blocks[i] == Flatten(slices[i]) && localVectSizes[i] == |blocks[i]|
    {
      var size := SumLengths(slices[j]);
      var local := new real[size];
      var offset := CopyStreams(slices[j], local);
      blocks := blocks + [local[..offset]];
      localVectSizes := localVectSizes + [offset];
    }
    assert blocks == Blocks(slices);
    var globalVectSize := SumLengths(blocks);
    FlattenPrefix(blocks, 0);
    FlattenBound(blocks, 1);
    var buffer := new real[globalVectSize];
    ReceiveBlock(blocks[0], buffer, 0);
    GatherData(localVectSizes, blocks, buffer);
    written := buffer[..];
  }

  method SumLengths(vs: seq<seq<real>>) returns (n: nat)
    ensures n == |Flatten(vs)|
  {
    n := 0;
    for i := 0 to |vs|
      invariant n == |Flatten(vs[..i])|
    {
      FlattenPrefix(vs, i);
      n := n + |vs[i]|;
    }
    assert vs[..|vs|] == vs;
  }

  /** What all server ranks contribute to the written mean, and to the written variance. */
  ghost function FieldMeans(clients: seq<nat>, cs: seq<Config>, ess: seq<seq<Event>>, field: nat, time: nat)
    : (s: seq<seq<seq<real>>>)
    requires |cs| == |ess| && forall j :: 0 <= j < |cs| ==> time < cs[j].o.nbTimeSteps && IsRun(cs[j], ess[j])
    ensures |s| == |cs|
  {
    seq(|cs|, j requires 0 <= j < |cs| => MeanSlices(RankStreams(clients, cs[j], ess[j], field), time))
  }

  ghost function FieldVariances(clients: seq<nat>, cs: seq<Config>, ess: seq<seq<Event>>, field: nat, time: nat)
    : (s: seq<seq<seq<real>>>)
    requires |cs| == |ess| && forall j :: 0 <= j < |cs| ==> time < cs[j].o.nbTimeSteps && IsRun(cs[j], ess[j])
    ensures |s| == |cs|
  {
    seq(|cs|, j requires 0 <= j < |cs| => VarianceSlices(RankStreams(clients, cs[j], ess[j], field), time))
  }

  /** What was written is the mean of the simulations' own values at every point. */
  ghost predicate IsMean(written: seq<real>, g: Study, simus: seq<nat>, time: nat)
    requires simus != [] && g.Valid()
  {
    |written| == g.size && forall k :: 0 <= k < g.size ==> written[k] == Mean(PointSamples(g, simus, time, k))
  }

  /** Main result, the whole chain: the clients cut their blocks into slices and send them along the message lists,
      every server rank accumulates the messages of each (field, client) stream with any duplicates, timeouts,
      checkpoints, crashes and restarts, and the gathered mean at index k is the mean over the received simulations of
      their own value at k (with Sobol groups: of the first two members). */
  lemma WrittenMeanIsTheMean(clients: seq<nat>, servers: seq<nat>, cs: seq<Config>, ess: seq<seq<Event>>, sent: Mail,
                             g: Study, field: nat, time: nat, simus: seq<nat>)
    requires OnMesh(clients, servers, g) && AllProcessed(clients, servers, cs, ess, sent, g, field, time, simus)
    requires forall j :: 0 <= j < |cs| ==> cs[j].o.order > 0
    ensures forall j :: 0 <= j < |cs| ==> time < cs[j].o.nbTimeSteps && IsRun(cs[j], ess[j])
    ensures IsMean(Flatten(Blocks(FieldMeans(clients, cs, ess, field, time))), g, simus, time)
  {
    var global := MeansAt(g, simus, time);
    var slices := FieldMeans(clients, cs, ess, field, time);
    forall j, r | 0 <= j < |servers| && 0 <= r < |clients|
      ensures slices[j][r] == SharedPoints(clients, servers, r, j, global)
    {
      MeansOfRank(clients, servers, cs[j], ess[j], sent, g, field, time, simus, j, r);
    }
    hide PointSamples;
    hide Mean;
    GatheringRebuildsVector(clients, servers, slices, global);
  }

  /** What was written is the second central moment of the received simulations at every point. */
  ghost predicate IsVariance(written: seq<real>, g: Study, simus: seq<nat>, time: nat)
    requires simus != [] && g.Valid()
  {
    |written| == g.size
    && forall k :: 0 <= k < g.size ==> written[k] == CentralMoment(PointSamples(g, simus, time, k), 2)
  }

  /** Main result, for every run: the written variance is the second central moment of the received simulations at every
      point if and only if no stream still lacks the central moments that a restart took from it. */
  lemma WrittenVarianceIsTheta2(clients: seq<nat>, servers: seq<nat>, cs: seq<Config>, ess: seq<seq<Event>>, sent: Mail,
                                g: Study, field: nat, time: nat, simus: seq<nat>)
    requires OnMesh(clients, servers, g) && AllProcessed(clients, servers, cs, ess, sent, g, field, time, simus)
    requires forall j :: 0 <= j < |cs| ==> cs[j].o.order >= 2
    ensures forall j :: 0 <= j < |cs| ==> time < cs[j].o.nbTimeSteps && IsRun(cs[j], ess[j])
    ensures IsVariance(Flatten(Blocks(FieldVariances(clients, cs, ess, field, time))), g, simus, time)
       <==> forall j :: 0 <= j < |cs| ==> RankCurrent(clients, cs[j], ess[j], field, time)
  {
    var global := VariancesAt(g, simus, time);
    var slices := FieldVariances(clients, cs, ess, field, time);
    forall j, r | 0 <= j < |servers| && 0 <= r < |clients|
      ensures |slices[j][r]| == SharedCount(clients, servers, r, j)
      ensures slices[j][r] == SharedPoints(clients, servers, r, j, global)
         <==> ((field, r) in cs[j].sizes ==> StreamCurrent(cs[j], ess[j], (field, r), time))
    {
      VariancesOfRank(clients, servers, cs[j], ess[j], sent, g, field, time, simus, j, r);
    }
    var written := Flatten(Blocks(slices));
    assert IsVariance(written, g, simus, time) <==> written == global;
    hide IsVariance;
    hide VariancesAt;
    hide AllProcessed;
    hide StreamCurrent;
    hide SharedPoints;
    hide SharedCount;
    hide FieldVariances;
    if written == global {
      GatheredPartsAreShared(clients, servers, slices, global);
    }
    if forall j :: 0 <= j < |cs| ==> RankCurrent(clients, cs[j], ess[j], field, time) {
      GatheringRebuildsVector(clients, servers, slices, global);
    }
  }

  /** Without a crash it always is. */
  lemma CrashFreeIsCurrent(clients: seq<nat>, c: Config, es: seq<Event>, field: nat, time: nat)
    requires NoCrash(es) && time < c.o.nbTimeSteps
    ensures RankCurrent(clients, c, es, field, time)
  {
    forall r: nat | r < |clients| && (field, r) in c.sizes ensures StreamCurrent(c, es, (field, r), time) {
      CrashFreeLife(es, (field, r));
    }
  }

  /** A rank that is not: one client, one point, a crash after the checkpoint of the first time step. */
  lemma RankIsNotCurrent()
    ensures IsRun(TWO_SIMULATIONS, LossyRun()) && !RankCurrent([1], TWO_SIMULATIONS, LossyRun(), 0, 0)
  {
    VarianceIsLost();
    hide ThetasFollow;
    hide LossyRun;
    hide IsRun;
    assert !StreamCurrent(TWO_SIMULATIONS, LossyRun(), (0, 0), 0);
    assert (0, 0) in TWO_SIMULATIONS.sizes;
  }

  /** Where the second central moment was written, it is the unbiased variance of the simulations at every point if and
      only if they agree at every point. */
  lemma WrittenIsUnbiased(written: seq<real>, g: Study, simus: seq<nat>, time: nat)
    requires g.Valid() && |simus| >= 2 && IsVariance(written, g, simus, time)
    ensures (forall k :: 0 <= k < g.size ==> written[k] == UnbiasedVariance(PointSamples(g, simus, time, k)))
       <==> forall k :: 0 <= k < g.size ==> Constant(PointSamples(g, simus, time, k))
  {
    hide PointSamples;
    hide Constant;
    hide CentralMoment;
    hide UnbiasedVariance;
    forall k | 0 <= k < g.size
      ensures written[k] == UnbiasedVariance(PointSamples(g, simus, time, k))
         <==> Constant(PointSamples(g, simus, time, k))
    {
      MomentIsUnbiased(PointSamples(g, simus, time, k));
    }
  }

  // ---- the end of the study ----

  /** The simulations of the study. */
  function AllSimus(n: nat): (s: seq<nat>)
    ensures |s| == n && forall i :: 0 <= i < n ==> s[i] == i
  {
    seq(n, i requires 0 <= i < n => i)
  }

  lemma {:induction false} AllSimusDiffer(n: nat)
    ensures |Elements(AllSimus(n))| == n
    ensures forall q: nat :: q in Elements(AllSimus(n)) <==> q < n
  {
    forall q: nat ensures q in Elements(AllSimus(n)) <==> q < n {
      if q < n {
        assert AllSimus(n)[q] == q;
      }
    }
    if n > 0 {
      AllSimusDiffer(n - 1);
      assert Elements(AllSimus(n)) == Elements(AllSimus(n - 1)) + {n - 1};
    }
  }

  /** Server rank j left its main loop on a settled run; the field's messages were sent to it, and its events left the
      field's streams alive. */
  ghost predicate RankFinished(clients: seq<nat>, servers: seq<nat>, c: Config, es: seq<Event>, sent: Mail, g: Study,
                               field: nat, j: nat)
    requires SameVector(clients, servers) && j < |servers|
  {
    && c.Valid() && c.o.sobol == g.sobol && IsRun(c, es) && SettledRun(c, es) && ExitTest(c, Run(c, es))
    && HostsField(clients, servers, c, field, j) && OnlySent(clients, sent, field, j, es)
    && forall r: nat :: r < |clients| && (field, r) in c.sizes ==> LifeOf(es, (field, r)).alive
  }

  /** It is enough that the events are in time, and that after a restart every stream gets a message again. */
  lemma PromptIsFinished(clients: seq<nat>, servers: seq<nat>, c: Config, es: seq<Event>, sent: Mail, g: Study,
                         field: nat, j: nat)
    requires SameVector(clients, servers) && j < |servers| && c.Valid() && c.o.sobol == g.sobol
    requires IsRun(c, es) && Prompt(c, es) && ExitTest(c, Run(c, es))
    requires HostsField(clients, servers, c, field, j) && OnlySent(clients, sent, field, j, es)
    requires forall r: nat :: r < |clients| && (field, r) in c.sizes ==>
               !LifeOf(es, (field, r)).restarted || LifeOf(es, (field, r)).loaded
    ensures RankFinished(clients, servers, c, es, sent, g, field, j)
  {
    PromptIsSettled(c, es);
    PromptExit(c, es);
  }

  lemma FinishedIsProcessed(clients: seq<nat>, servers: seq<nat>, c: Config, es: seq<Event>, sent: Mail, g: Study,
                            field: nat, time: nat, j: nat)
    requires SameVector(clients, servers) && j < |servers| && time < c.o.nbTimeSteps
    requires RankFinished(clients, servers, c, es, sent, g, field, j)
    ensures RankProcessed(clients, servers, c, es, sent, g, field, time, AllSimus(c.o.samplingSize), j)
  {
    ExitMeansAllComplete(c, es);
    AllSimusDiffer(c.o.samplingSize);
    var all := Elements(AllSimus(c.o.samplingSize));
    forall r: nat | r < |clients| && (field, r) in c.sizes
      ensures Senders(FirstArrivals(LifeOf(es, (field, r)).Log(), time)) == all
    {
      ExactlyOnceAlways(c, es, (field, r), time);
      var st := Run(c, es).streams[(field, r)];
      hide Run;
      hide LifeOf;
      hide FirstArrivals;
      forall q: nat ensures q in Contributors(st, time) <==> q in all {
        assert q < c.o.samplingSize ==> time in st.received[q];
      }
    }
  }

  /** Main result: when every server rank has left its main loop, what is written at every time step is the mean over
      all simulations of the study. */
  lemma FinishedStudyWritesMeans(clients: seq<nat>, servers: seq<nat>, cs: seq<Config>, ess: seq<seq<Event>>,
                                 sent: Mail, g: Study, field: nat, time: nat, n: nat)
    requires OnMesh(clients, servers, g) && AllSend(clients, servers, sent, g)
    requires |cs| == |ess| == |servers| && n > 0
    requires forall j :: 0 <= j < |cs| ==>
               cs[j].o.samplingSize == n && cs[j].o.order > 0 && time < cs[j].o.nbTimeSteps
    requires forall j :: 0 <= j < |cs| ==> RankFinished(clients, servers, cs[j], ess[j], sent, g, field, j)
    ensures forall j :: 0 <= j < |cs| ==> time < cs[j].o.nbTimeSteps && IsRun(cs[j], ess[j])
    ensures IsMean(Flatten(Blocks(FieldMeans(clients, cs, ess, field, time))), g, AllSimus(n), time)
  {
    AllSimusDiffer(n);
    forall j | 0 <= j < |cs|
      ensures RankProcessed(clients, servers, cs[j], ess[j], sent, g, field, time, AllSimus(n), j)
    {
      FinishedIsProcessed(clients, servers, cs[j], ess[j], sent, g, field, time, j);
    }
    hide RankProcessed;
    WrittenMeanIsTheMean(clients, servers, cs, ess, sent, g, field, time, AllSimus(n));
  }
}
