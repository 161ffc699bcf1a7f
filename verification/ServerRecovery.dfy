/** Streams of whole server runs next to each other: without a crash, with any crashes, and in different orders of
    delivery. */
module ServerRecovery {
  import opened StreamStats
  import opened ExactlyOnce
  import opened Checkpoint
  import opened Recovery
  import opened StatServer
  import opened ServerRuns

  // ---- without a crash ----

  /** The messages a run delivers to a stream, in order. */
  ghost function DataOf(es: seq<Event>, k: Key): seq<Data> {
    if es == [] then []
    else
      var e := es[|es| - 1];
      if e.DataMessage? && e.key == k then DataOf(es[..|es| - 1], k) + [e.data] else DataOf(es[..|es| - 1], k)
  }

  ghost predicate NoCrash(es: seq<Event>) {
    forall i :: 0 <= i < |es| ==> !es[i].CrashRestart?
  }

  lemma {:induction false} CrashFreeLife(es: seq<Event>, k: Key)
    requires NoCrash(es)
    ensures var l, h := LifeOf(es, k), DataOf(es, k);
            !l.restarted && l.base == [] && l.since == h && (l.loaded <==> l.alive) && (l.alive <==> h != [])
  {
    if es != [] {
      CrashFreeLife(es[..|es| - 1], k);
    }
  }

  /** Without a crash, a stream is exactly the accumulation of the messages delivered to it. */
  lemma CrashFreeStream(c: Config, es: seq<Event>, k: Key)
    requires c.Valid() && IsRun(c, es) && NoCrash(es) && k in c.sizes
    ensures AllWellFormed(c.o, c.sizes[k], DataOf(es, k))
    ensures Run(c, es).streams[k]
         == if DataOf(es, k) == [] then NoStream else Accumulated(c.o, c.sizes[k], DataOf(es, k))
  {
    CrashFreeLife(es, k);
    StreamFollowsLife(c, es, k);
    RestoredFresh(c.o, c.sizes[k]);
  }

  // ---- with any crashes ----

  /** The central moments of a stream's time step are those of its log, as far as the events tell. */
  ghost predicate ThetasFollow(c: Config, es: seq<Event>, k: Key, t: nat)
    requires k in c.sizes && AllWellFormed(c.o, c.sizes[k], LifeOf(es, k).base)
  {
    ThetasWhole(c.o, c.sizes[k], LifeOf(es, k).base, LifeOf(es, k).since, t)
  }

  /** Main result: next to an uninterrupted run over its log, a stream that is alive has the bits, counts, raw moments,
      extrema and threshold counts; its central moments at a time step are right if and only if the step got a new
      message since the stream was read back, or what it had then was constant, or they are not computed. */
  lemma RecoveredStream(c: Config, es: seq<Event>, k: Key, t: nat)
    requires c.Valid() && IsRun(c, es) && k in c.sizes && LifeOf(es, k).alive && t < c.o.nbTimeSteps
    ensures AllWellFormed(c.o, c.sizes[k], LifeOf(es, k).base)
    ensures AllWellFormed(c.o, c.sizes[k], LifeOf(es, k).Log())
    ensures var a, b := Run(c, es).streams[k], Accumulated(c.o, c.sizes[k], LifeOf(es, k).Log());
            && SameRun(c.o, a, b) && |a.steps[t].cells| == |b.steps[t].cells| == c.sizes[k]
            && (a.steps[t].cells == b.steps[t].cells <==> ThetasFollow(c, es, k, t))
            && ((forall i :: 0 <= i < c.sizes[k] ==> a.steps[t].cells[i].theta2 == b.steps[t].cells[i].theta2)
                <==> ThetasFollow(c, es, k, t))
  {
    StreamFollowsLife(c, es, k);
    var l := LifeOf(es, k);
    hide LifeOf;
    hide Run;
    hide IsRun;
    hide SameRun;
    hide ThetasWhole;
    RecoveryAgrees(c.o, c.sizes[k], l.base, l.since, t);
  }

  /** Main result: two runs whose streams hold the same set of messages, in any order and with any duplicates, timeouts,
      checkpoints, crashes and restarts, end with the same bits, counts, raw moments, extrema and threshold counts. If
      the central moments follow the log in one of them, they are the same exactly if they do in the other. */
  lemma RunsAgree(c: Config, es: seq<Event>, fs: seq<Event>, k: Key, t: nat)
    requires c.Valid() && IsRun(c, es) && IsRun(c, fs) && k in c.sizes && t < c.o.nbTimeSteps
    requires LifeOf(es, k).alive && LifeOf(fs, k).alive
    requires Consistent(LifeOf(es, k).Log()) && Consistent(LifeOf(fs, k).Log())
    requires SameMessages(LifeOf(es, k).Log(), LifeOf(fs, k).Log())
    ensures AllWellFormed(c.o, c.sizes[k], LifeOf(es, k).base) && AllWellFormed(c.o, c.sizes[k], LifeOf(fs, k).base)
    ensures var a, b := Run(c, es).streams[k], Run(c, fs).streams[k];
            && Shaped(c.o, a) && Shaped(c.o, b) && a.received == b.received
            && a.steps[t].increment == b.steps[t].increment && a.steps[t].exceed == b.steps[t].exceed
            && (c.o.minMaxOp && a.steps[t].increment > 0 ==> a.steps[t].minMax == b.steps[t].minMax)
            && |a.steps[t].cells| == |b.steps[t].cells|
            && (forall i :: 0 <= i < |a.steps[t].cells| ==>
                 SameRaw(a.steps[t].cells[i], b.steps[t].cells[i], c.o.order))
            && (ThetasFollow(c, es, k, t) ==>
                 (a.steps[t].cells == b.steps[t].cells <==> ThetasFollow(c, fs, k, t)))
  {
    RecoveredStream(c, es, k, t);
    RecoveredStream(c, fs, k, t);
    var h, g := LifeOf(es, k).Log(), LifeOf(fs, k).Log();
    RunReflects(c.o, c.sizes[k], h);
    RunReflects(c.o, c.sizes[k], g);
    OrderIndependence(c.o, Accumulated(c.o, c.sizes[k], h), Accumulated(c.o, c.sizes[k], g), h, g);
    hide *;
    AgreeThrough(c.o, Run(c, es).streams[k], Run(c, fs).streams[k], Accumulated(c.o, c.sizes[k], h),
                 Accumulated(c.o, c.sizes[k], g), t);
  }

  /** Two streams that hold what x and y hold, which agree. */
  lemma AgreeThrough(o: Options, a: Stream, b: Stream, x: Stream, y: Stream, t: nat)
    requires SameRun(o, a, x) && SameRun(o, b, y) && t < o.nbTimeSteps && x.received == y.received
    requires x.steps[t].increment == y.steps[t].increment && x.steps[t].exceed == y.steps[t].exceed
    requires x.steps[t].cells == y.steps[t].cells
    requires o.minMaxOp && x.steps[t].increment > 0 ==> x.steps[t].minMax == y.steps[t].minMax
    ensures Shaped(o, a) && Shaped(o, b) && a.received == b.received
    ensures a.steps[t].increment == b.steps[t].increment && a.steps[t].exceed == b.steps[t].exceed
    ensures o.minMaxOp && a.steps[t].increment > 0 ==> a.steps[t].minMax == b.steps[t].minMax
    ensures |a.steps[t].cells| == |b.steps[t].cells|
    ensures forall i :: 0 <= i < |a.steps[t].cells| ==> SameRaw(a.steps[t].cells[i], b.steps[t].cells[i], o.order)
  {
    assert SameRawStats(o, a.steps[t], x.steps[t]) && SameRawStats(o, b.steps[t], y.steps[t]);
  }

  /** Without a crash, everything agrees. */
  lemma DeliveryOrderDoesNotMatter(c: Config, es: seq<Event>, fs: seq<Event>, k: Key, t: nat)
    requires c.Valid() && IsRun(c, es) && IsRun(c, fs) && NoCrash(es) && NoCrash(fs) && k in c.sizes
    requires Consistent(DataOf(es, k)) && Consistent(DataOf(fs, k)) && SameMessages(DataOf(es, k), DataOf(fs, k))
    requires Run(c, es).streams[k].Stream? && t < c.o.nbTimeSteps
    ensures Run(c, fs).streams[k].Stream?
    ensures var a, b := Run(c, es).streams[k], Run(c, fs).streams[k];
            && a.received == b.received
            && a.steps[t].increment == b.steps[t].increment && a.steps[t].cells == b.steps[t].cells
            && a.steps[t].exceed == b.steps[t].exceed
            && (c.o.minMaxOp && a.steps[t].increment > 0 ==> a.steps[t].minMax == b.steps[t].minMax)
  {
    var h, g := DataOf(es, k), DataOf(fs, k);
    CrashFreeStream(c, es, k);
    CrashFreeStream(c, fs, k);
    assert h[0] in g;
    RunReflects(c.o, c.sizes[k], h);
    RunReflects(c.o, c.sizes[k], g);
    OrderIndependence(c.o, Run(c, es).streams[k], Run(c, fs).streams[k], h, g);
  }

  // ---- central moments are lost in a run ----

  const TWO_SIMULATIONS := Config(SECOND_MOMENTS, map[(0, 0) := 1], 100.0)

  function ValueMessage(m: Data): Event {
    DataMessage((0, 0), m, 0.0)
  }

  lemma LifeAppend(es: seq<Event>, e: Event, k: Key)
    ensures LifeOf(es + [e], k) == LifeStep(LifeOf(es, k), e, k)
  {
    assert (es + [e])[..|es|] == es;
  }

  lemma AppendValue(es: seq<Event>, time: nat, simu: nat, x: real)
    requires IsRun(TWO_SIMULATIONS, es) && time < 2 && simu < 2
    ensures var run := es + [ValueMessage(ValueOf(time, simu, x))];
            IsRun(TWO_SIMULATIONS, run) && IsRun(TWO_SIMULATIONS, run + [SaveCheckpoint(false)])
  {
    var e := ValueMessage(ValueOf(time, simu, x));
    assert WellFormed(SECOND_MOMENTS, 1, e.data);
    AppendEvent(TWO_SIMULATIONS, es, e);
    assert Run(TWO_SIMULATIONS, es + [e]).streams[e.key].Stream?;
    AppendEvent(TWO_SIMULATIONS, es + [e], SaveCheckpoint(false));
  }

  /** Two simulations send their first time step, a checkpoint, a crash, and the second time step of one of them. */
  function LossyRun(): seq<Event> {
    UpToTheCrash() + [ValueMessage(ValueOf(1, 0, 0.0))]
  }

  function UpToTheCrash(): seq<Event> {
    [] + [ValueMessage(ValueOf(0, 0, 0.0))] + [ValueMessage(ValueOf(0, 1, 2.0))] + [SaveCheckpoint(false)]
    + [NobodyFinished(TWO_SIMULATIONS)]
  }

  lemma LossyRunIsRun()
    ensures IsRun(TWO_SIMULATIONS, LossyRun())
  {
    hide IsRun;
    hide ValueMessage;
    hide NobodyFinished;
    EmptyIsRun(TWO_SIMULATIONS);
    AppendValue([], 0, 0, 0.0);
    AppendValue([] + [ValueMessage(ValueOf(0, 0, 0.0))], 0, 1, 2.0);
    AppendCrash(TWO_SIMULATIONS, [] + [ValueMessage(ValueOf(0, 0, 0.0))] + [ValueMessage(ValueOf(0, 1, 2.0))]);
    AppendValue(UpToTheCrash(), 1, 0, 0.0);
  }

  lemma LossyLife()
    ensures var l := LifeOf(LossyRun(), (0, 0));
            l.alive && l.base == TwoValues() && l.since == [ValueOf(1, 0, 0.0)]
  {
    var k: Key, e0, e1 := (0, 0), ValueMessage(ValueOf(0, 0, 0.0)), ValueMessage(ValueOf(0, 1, 2.0));
    LifeAppend([], e0, k);
    LifeAppend([] + [e0], e1, k);
    LifeAppend([] + [e0] + [e1], SaveCheckpoint(false), k);
    LifeAppend([] + [e0] + [e1] + [SaveCheckpoint(false)], NobodyFinished(TWO_SIMULATIONS), k);
    LifeAppend(UpToTheCrash(), ValueMessage(ValueOf(1, 0, 0.0)), k);
    var first := LifeOf([] + [e0], k);
    assert LifeOf([], k) == UNBORN;
    hide LifeOf;
    assert first.since == [ValueOf(0, 0, 0.0)];
    assert LifeOf([] + [e0] + [e1], k).Log() == TwoValues();
  }

  /** A run whose second central moments at the first time step are wrong at its end: they are written as zero. */
  lemma VarianceIsLost()
    ensures TWO_SIMULATIONS.Valid() && IsRun(TWO_SIMULATIONS, LossyRun()) && LifeOf(LossyRun(), (0, 0)).alive
    ensures AllWellFormed(SECOND_MOMENTS, 1, LifeOf(LossyRun(), (0, 0)).base)
    ensures !ThetasFollow(TWO_SIMULATIONS, LossyRun(), (0, 0), 0)
  {
    hide LifeOf;
    hide IsRun;
    hide LossyRun;
    hide TwoValues;
    hide ValueOf;
    hide ThetasWhole;
    hide AllWellFormed;
    LossyRunIsRun();
    LossyLife();
    ThetasAreLost([ValueOf(1, 0, 0.0)]);
  }
}
