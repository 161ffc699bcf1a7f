/** What every run of the statistics server keeps: exactly-once statistics across checkpoints and crashes,
    and the finished-simulation count that ends the main loop. */
module ServerRuns {
  import opened Samples
  import opened GeneralMoments
  import opened StreamStats
  import opened ExactlyOnce
  import opened Checkpoint
  import opened Recovery
  import opened StatServer

  // ---- the life of a stream, from the events alone ----

  /** What the events so far mean for one stream. loaded: a message initialised it in the running process. alive: it can
      hold data. base was read back from a file, since came afterwards. saved: the file of the last checkpoint has its
      data, which is that of savedLog. restarted: the process started from files. */
  datatype Life = Life(loaded: bool, alive: bool, base: seq<Data>, since: seq<Data>, saved: bool, savedLog: seq<Data>,
                       restarted: bool)
  {
    /** All messages whose effect the stream holds. */
    function Log(): seq<Data> {
      base + since
    }
  }

  const UNBORN := Life(false, false, [], [], false, [], false)

  function OneMore(l: Life, m: Data): Life {
    if l.loaded then l.(since := l.since + [m])
    else if l.restarted then l.(loaded := true, alive := l.saved, base := l.savedLog, since := [m])
    else l.(loaded := true, alive := true, since := [m])
  }

  /** A checkpoint writes a size of zero over the file of a stream that is not in memory. */
  function LifeStep(l: Life, e: Event, k: Key): Life {
    match e
    case DataMessage(key, m, _) => if key == k then OneMore(l, m) else l
    case SaveCheckpoint(_) => l.(saved := l.alive, savedLog := if l.alive then l.Log() else [])
    case CrashRestart(_) => UNBORN.(saved := l.saved, savedLog := l.savedLog, restarted := true)
    case _ => l
  }

  function LifeOf(es: seq<Event>, k: Key): Life {
    if es == [] then UNBORN else LifeStep(LifeOf(es[..|es| - 1], k), es[|es| - 1], k)
  }

  // ---- a stream is what its life says ----

  ghost predicate MemoryFollows(c: Config, st: Stream, l: Life, k: Key)
    requires k in c.sizes
  {
    && AllWellFormed(c.o, c.sizes[k], l.base) && AllWellFormed(c.o, c.sizes[k], l.since)
    && (st.Stream? <==> l.loaded)
    && (l.alive <==> st.Stream? && st.vectSize > 0)
    && (!l.alive ==> l.base == [])
    && (l.alive ==> st == Continued(c.o, c.sizes[k], l.base, l.since))
  }

  ghost predicate FileFollows(c: Config, st: Stream, l: Life, k: Key)
    requires k in c.sizes
  {
    && AllWellFormed(c.o, c.sizes[k], l.savedLog)
    && (l.saved <==> st.Stream? && st.vectSize > 0)
    && (!l.saved ==> l.savedLog == [])
    && (l.saved ==> SameRun(c.o, st, Accumulated(c.o, c.sizes[k], l.savedLog)))
  }

  ghost predicate Follows(c: Config, s: State, l: Life, k: Key)
    requires Shape(c, s) && k in c.sizes
  {
    && l.restarted == s.restarted
    && MemoryFollows(c, s.streams[k], l, k)
    && FileFollows(c, if s.disc.Disc? then s.disc.streams[k] else NoStream, l, k)
  }

  /** Streams with the same data are read back as the same stream. */
  lemma RestoredSame(o: Options, a: Stream, b: Stream, alloc: nat)
    requires SameRun(o, a, b) && a.vectSize > 0
    ensures Restored(o, a, alloc) == Restored(o, b, alloc)
  {
    forall t | 0 <= t < o.nbTimeSteps ensures RestoredStep(o, a.steps[t]) == RestoredStep(o, b.steps[t]) {
      assert SameRawStats(o, a.steps[t], b.steps[t]);
      assert RestoredCells(a.steps[t].cells) == RestoredCells(b.steps[t].cells);
    }
    assert RestoredSteps(o, a.steps) == RestoredSteps(o, b.steps);
  }

  lemma RestoredFresh(o: Options, vectSize: nat)
    ensures AllWellFormed(o, vectSize, [])
    ensures Restored(o, Accumulated(o, vectSize, []), vectSize) == FreshStream(o, vectSize)
  {
    var blank := FreshStats(o, vectSize);
    assert RestoredCells(blank.cells) == blank.cells;
    assert RestoredSteps(o, FreshStream(o, vectSize).steps) == FreshStream(o, vectSize).steps;
  }

  /** The stream that a first message finds. */
  lemma LoadedFollows(c: Config, s: State, l: Life, k: Key)
    requires c.Valid() && Shape(c, s) && k in c.sizes && Follows(c, s, l, k) && !l.loaded
    ensures var alive, base := if l.restarted then l.saved else true, if l.restarted then l.savedLog else [];
            && (alive <==> Loaded(c, s, k).vectSize > 0)
            && AllWellFormed(c.o, c.sizes[k], base)
            && (alive ==> Loaded(c, s, k) == Restored(c.o, Accumulated(c.o, c.sizes[k], base), c.sizes[k]))
  {
    hide Accumulated;
    RestoredFresh(c.o, c.sizes[k]);
    if l.restarted && l.saved {
      RestoredSame(c.o, s.disc.streams[k], Accumulated(c.o, c.sizes[k], l.savedLog), c.sizes[k]);
    }
  }

  lemma MessageFollows(c: Config, s: State, l: Life, k: Key, m: Data)
    requires c.Valid() && Shape(c, s) && k in c.sizes && Follows(c, s, l, k) && WellFormed(c.o, c.sizes[k], m)
    ensures WellFormed(c.o, Loaded(c, s, k).vectSize, m)
    ensures MemoryFollows(c, Receive(c.o, Loaded(c, s, k), m), OneMore(l, m), k)
  {
    SmallerVectors(c.o, c.sizes[k], Loaded(c, s, k).vectSize, m);
    if l.loaded {
      ContinuedStep(c.o, c.sizes[k], l.base, l.since, m);
    } else {
      LoadedFollows(c, s, l, k);
      var base := if l.restarted then l.savedLog else [];
      ContinuedStep(c.o, c.sizes[k], base, [], m);
      assert [] + [m] == [m];
    }
    hide Continued;
    hide Receive;
    hide Loaded;
  }

  lemma ContinuedStep(o: Options, vectSize: nat, h: seq<Data>, g: seq<Data>, m: Data)
    requires AllWellFormed(o, vectSize, h) && AllWellFormed(o, vectSize, g) && WellFormed(o, vectSize, m)
    ensures AllWellFormed(o, vectSize, g + [m])
    ensures Continued(o, vectSize, h, g + [m]) == Receive(o, Continued(o, vectSize, h, g), m)
    ensures Continued(o, vectSize, h, []) == Restored(o, Accumulated(o, vectSize, h), vectSize)
  {
    assert (g + [m])[..|g|] == g;
  }

  lemma ReceiveTogether(o: Options, a: Stream, b: Stream, m: Data)
    requires SameRun(o, a, b) && WellFormed(o, a.vectSize, m)
    ensures SameRun(o, Receive(o, a, m), Receive(o, b, m))
  {
    AddVectorsRecover(o, a.steps[m.time], b.steps[m.time], Folded(o, m), a.vectSize);
  }

  lemma {:induction false} ReceiveAllTogether(o: Options, a: Stream, b: Stream, h: seq<Data>)
    requires SameRun(o, a, b) && AllWellFormed(o, a.vectSize, h)
    ensures SameRun(o, ReceiveAll(o, a, h), ReceiveAll(o, b, h))
  {
    assert Shaped(o, a) && Shaped(o, b) && a.vectSize == b.vectSize;
    hide SameRun;
    if h != [] {
      ReceiveAllTogether(o, a, b, h[..|h| - 1]);
      ReceiveTogether(o, ReceiveAll(o, a, h[..|h| - 1]), ReceiveAll(o, b, h[..|h| - 1]), h[|h| - 1]);
    }
  }

  /** A stream in memory holds the data of its log. */
  lemma ContinuedTogether(o: Options, vectSize: nat, h: seq<Data>, g: seq<Data>)
    requires o.Valid() && vectSize > 0 && AllWellFormed(o, vectSize, h) && AllWellFormed(o, vectSize, g)
    ensures AllWellFormed(o, vectSize, h + g)
    ensures SameRun(o, Continued(o, vectSize, h, g), Accumulated(o, vectSize, h + g))
  {
    RestoredTogether(o, vectSize, h);
    ReceiveAllTogether(o, Restored(o, Accumulated(o, vectSize, h), vectSize), Accumulated(o, vectSize, h), g);
    RunsCompose(o, FreshStream(o, vectSize), h, g);
  }

  lemma StepFollows(c: Config, s: State, l: Life, e: Event, k: Key)
    requires c.Valid() && Shape(c, s) && Enabled(c, s, e) && k in c.sizes && Follows(c, s, l, k)
    ensures Follows(c, Step(c, s, e), LifeStep(l, e, k), k)
  {
    hide MemoryFollows;
    hide Receive;
    match e
    case DataMessage(key, m, _) =>
      SmallerVectors(c.o, c.sizes[key], Loaded(c, s, key).vectSize, m);
      if key == k {
        MessageFollows(c, s, l, k, m);
      }
    case SaveCheckpoint(_) =>
      SavedFollows(c, s.streams[k], l, k);
    case CrashRestart(_) =>
      UnbornFollows(c, k, LifeStep(l, e, k));
    case _ =>
  }

  lemma SavedFollows(c: Config, st: Stream, l: Life, k: Key)
    requires c.Valid() && k in c.sizes && MemoryFollows(c, st, l, k)
    ensures FileFollows(c, st, LifeStep(l, SaveCheckpoint(false), k), k)
    ensures MemoryFollows(c, st, LifeStep(l, SaveCheckpoint(false), k), k)
  {
    if l.alive {
      ContinuedTogether(c.o, c.sizes[k], l.base, l.since);
    }
  }

  lemma UnbornFollows(c: Config, k: Key, l: Life)
    requires k in c.sizes && !l.loaded && !l.alive && l.base == l.since == []
    ensures MemoryFollows(c, NoStream, l, k)
  {
  }

  lemma {:induction false} RunFollows(c: Config, es: seq<Event>, k: Key)
    requires c.Valid() && IsRun(c, es) && k in c.sizes
    ensures Follows(c, Run(c, es), LifeOf(es, k), k)
  {
    if es == [] {
      UnbornFollows(c, k, UNBORN);
    } else {
      RunFollows(c, es[..|es| - 1], k);
      hide Follows;
      hide LifeStep;
      StepFollows(c, Run(c, es[..|es| - 1]), LifeOf(es[..|es| - 1], k), es[|es| - 1], k);
    }
  }

  /** Main result, recovery in every run: whatever the messages, timeouts, checkpoints, crashes and restarts were, the
      events alone decide whether a stream has data, and then it is exactly what was read back from the last file it
      was loaded from, continued with the messages since. */
  lemma StreamFollowsLife(c: Config, es: seq<Event>, k: Key)
    requires c.Valid() && IsRun(c, es) && k in c.sizes
    ensures var st, l := Run(c, es).streams[k], LifeOf(es, k);
            && AllWellFormed(c.o, c.sizes[k], l.base) && AllWellFormed(c.o, c.sizes[k], l.since)
            && (st.Stream? <==> l.loaded)
            && (st.Stream? && st.vectSize > 0 <==> l.alive)
            && (l.alive ==> st == Continued(c.o, c.sizes[k], l.base, l.since))
  {
    RunFollows(c, es, k);
  }

  // ---- lost streams ----

  /** A restarted process has not loaded the stream and the file is empty, or it has loaded the empty file. */
  predicate IsLost(l: Life) {
    l.restarted && !l.saved && !l.alive
  }

  lemma {:induction false} LostStaysLost(es: seq<Event>, fs: seq<Event>, k: Key)
    requires IsLost(LifeOf(es, k))
    ensures IsLost(LifeOf(es + fs, k))
    decreases |fs|
  {
    if fs == [] {
      assert es + fs == es;
    } else {
      assert (es + fs)[..|es + fs| - 1] == es + fs[..|fs| - 1];
      LostStaysLost(es, fs[..|fs| - 1], k);
    }
  }

  predicate HasData(st: Stream) {
    st.Stream? && st.vectSize > 0
  }

  /** Main result: one checkpoint after a restart and before the stream's first new message destroys its data, without a
      second crash: in every continuation of the run the stream is empty. */
  lemma CheckpointBeforeReloadLoses(c: Config, es: seq<Event>, signal: bool, fs: seq<Event>, k: Key)
    requires c.Valid() && k in c.sizes && IsRun(c, es + [SaveCheckpoint(signal)] + fs)
    requires LifeOf(es, k).restarted && !LifeOf(es, k).alive
    ensures !HasData(Run(c, es + [SaveCheckpoint(signal)] + fs).streams[k])
  {
    assert (es + [SaveCheckpoint(signal)])[..|es|] == es;
    LostStaysLost(es + [SaveCheckpoint(signal)], fs, k);
    StreamFollowsLife(c, es + [SaveCheckpoint(signal)] + fs, k);
  }

  /** It does so exactly if the stream has no data in memory when the checkpoint is taken. */
  lemma CheckpointLosesExactly(c: Config, es: seq<Event>, signal: bool, k: Key)
    requires c.Valid() && k in c.sizes && IsRun(c, es + [SaveCheckpoint(signal)]) && LifeOf(es, k).restarted
    ensures (forall fs :: IsRun(c, es + [SaveCheckpoint(signal)] + fs) ==>
               !HasData(Run(c, es + [SaveCheckpoint(signal)] + fs).streams[k]))
       <==> !LifeOf(es, k).alive
  {
    if LifeOf(es, k).alive {
      assert es + [SaveCheckpoint(signal)] + [] == es + [SaveCheckpoint(signal)];
      assert (es + [SaveCheckpoint(signal)])[..|es|] == es;
      StreamFollowsLife(c, es + [SaveCheckpoint(signal)] + [], k);
    } else {
      forall fs | IsRun(c, es + [SaveCheckpoint(signal)] + fs)
        ensures !HasData(Run(c, es + [SaveCheckpoint(signal)] + fs).streams[k])
      {
        CheckpointBeforeReloadLoses(c, es, signal, fs, k);
      }
    }
  }

  lemma {:induction false} UnloadedIsNotAlive(es: seq<Event>, k: Key)
    ensures LifeOf(es, k).alive ==> LifeOf(es, k).loaded
    ensures LifeOf(es, k).saved ==> LifeOf(es, k).savedLog != []
    ensures LifeOf(es, k).alive ==> LifeOf(es, k).since != []
  {
    if es != [] {
      UnloadedIsNotAlive(es[..|es| - 1], k);
    }
  }

  const TWO_CLIENTS := Config(Options(2, 1, 0, false, [], false), map[(0, 0) := 1, (0, 1) := 1], 100.0)

  function MessageOf(clientRank: nat, time: nat): Event {
    DataMessage((0, clientRank), Data(time, 0, [[0.0]]), 0.0)
  }

  lemma AppendEvent(c: Config, es: seq<Event>, e: Event)
    requires IsRun(c, es) && Enabled(c, Run(c, es), e)
    ensures IsRun(c, es + [e]) && Run(c, es + [e]) == Step(c, Run(c, es), e)
  {
    assert (es + [e])[..|es|] == es;
  }

  /** A message of one of the two clients, and the checkpoint that may follow it. */
  lemma AppendMessage(es: seq<Event>, clientRank: nat, time: nat)
    requires IsRun(TWO_CLIENTS, es) && clientRank < 2 && time < 2
    ensures IsRun(TWO_CLIENTS, es + [MessageOf(clientRank, time)])
    ensures IsRun(TWO_CLIENTS, es + [MessageOf(clientRank, time)] + [SaveCheckpoint(false)])
  {
    var e := MessageOf(clientRank, time);
    assert WellFormed(TWO_CLIENTS.o, 1, e.data);
    AppendEvent(TWO_CLIENTS, es, e);
    assert Run(TWO_CLIENTS, es + [e]).streams[e.key].Stream?;
    AppendEvent(TWO_CLIENTS, es + [e], SaveCheckpoint(false));
  }

  /** After a checkpoint, the ranks may restart and agree that nobody is finished. */
  lemma AppendCrash(c: Config, es: seq<Event>)
    requires IsRun(c, es + [SaveCheckpoint(false)])
    ensures IsRun(c, es + [SaveCheckpoint(false)] + [NobodyFinished(c)])
  {
    assert (es + [SaveCheckpoint(false)])[..|es|] == es;
    AppendEvent(c, es + [SaveCheckpoint(false)], NobodyFinished(c));
  }

  function NobodyFinished(c: Config): Event {
    CrashRestart(seq(c.o.samplingSize, _ => IDLE))
  }

  lemma EmptyIsRun(c: Config)
    ensures IsRun(c, [])
  {
  }

  /** Both clients send, a checkpoint, a crash; then client 0 sends, and a checkpoint comes before client 1 does. */
  function LosingRun(): seq<Event> {
    BeforeTheLoss() + [SaveCheckpoint(false)] + [MessageOf(1, 1)]
  }

  function BeforeTheLoss(): seq<Event> {
    [] + [MessageOf(0, 0)] + [MessageOf(1, 0)] + [SaveCheckpoint(false)] + [NobodyFinished(TWO_CLIENTS)]
    + [MessageOf(0, 1)]
  }

  lemma LosingRunIsRun()
    ensures IsRun(TWO_CLIENTS, LosingRun())
  {
    hide IsRun;
    hide MessageOf;
    EmptyIsRun(TWO_CLIENTS);
    AppendMessage([], 0, 0);
    AppendMessage([] + [MessageOf(0, 0)], 1, 0);
    AppendCrash(TWO_CLIENTS, [] + [MessageOf(0, 0)] + [MessageOf(1, 0)]);
    AppendMessage([] + [MessageOf(0, 0)] + [MessageOf(1, 0)] + [SaveCheckpoint(false)] + [NobodyFinished(TWO_CLIENTS)],
                  0, 1);
    AppendMessage(BeforeTheLoss() + [SaveCheckpoint(false)], 1, 1);
  }

  lemma ClientOneIsMissing()
    ensures var l := LifeOf(BeforeTheLoss(), (0, 1)); l.restarted && !l.loaded
  {
    var es := [] + [MessageOf(0, 0)] + [MessageOf(1, 0)] + [SaveCheckpoint(false)];
    LifeOfRestart(es, NobodyFinished(TWO_CLIENTS));
    assert BeforeTheLoss()[..|es| + 1] == es + [NobodyFinished(TWO_CLIENTS)];
  }

  /** The run loses what client 1 sent before the crash. */
  lemma DataIsLost()
    ensures TWO_CLIENTS.Valid() && IsRun(TWO_CLIENTS, LosingRun())
    ensures var st := Run(TWO_CLIENTS, LosingRun()).streams[(0, 1)]; st.Stream? && st.vectSize == 0
  {
    LosingRunIsRun();
    ClientOneIsMissing();
    hide IsRun;
    hide Run;
    UnloadedIsNotAlive(BeforeTheLoss(), (0, 1));
    CheckpointBeforeReloadLoses(TWO_CLIENTS, BeforeTheLoss(), false, [MessageOf(1, 1)], (0, 1));
    StreamFollowsLife(TWO_CLIENTS, LosingRun(), (0, 1));
    LastMessageLoads(BeforeTheLoss() + [SaveCheckpoint(false)]);
  }

  lemma LastMessageLoads(es: seq<Event>)
    ensures LifeOf(es + [MessageOf(1, 1)], (0, 1)).loaded
  {
    assert (es + [MessageOf(1, 1)])[..|es|] == es;
  }

  lemma LifeOfRestart(es: seq<Event>, e: Event)
    requires e.CrashRestart?
    ensures forall k :: var l := LifeOf(es + [e], k); l.restarted && !l.loaded
  {
    assert (es + [e])[..|es|] == es;
  }

  // ---- exactly once ----

  /** A stream with data holds that of an uninterrupted run over its log. */
  ghost predicate Holds(c: Config, k: Key, st: Stream, log: seq<Data>)
    requires k in c.sizes
  {
    && AllWellFormed(c.o, c.sizes[k], log) && Shaped(c.o, st) && st.vectSize == c.sizes[k]
    && SameRun(c.o, st, Accumulated(c.o, c.sizes[k], log))
  }

  /** In every reachable state, every stream that is alive holds the data of its log. */
  lemma RunHolds(c: Config, es: seq<Event>, k: Key)
    requires c.Valid() && IsRun(c, es) && k in c.sizes && LifeOf(es, k).alive
    ensures Holds(c, k, Run(c, es).streams[k], LifeOf(es, k).Log())
  {
    StreamFollowsLife(c, es, k);
    var l := LifeOf(es, k);
    hide LifeOf;
    hide Run;
    hide IsRun;
    ContinuedTogether(c.o, c.sizes[k], l.base, l.since);
  }

  /** Time step `time` of a stream counts the simulations of its log exactly once each: the increment is the
      number of simulations whose bit is set (twice that with Sobol groups), and those are the senders in the log. */
  ghost predicate CountsOnce(o: Options, st: Stream, log: seq<Data>, time: nat)
    requires st.Stream? && time < |st.steps|
  {
    && Senders(FirstArrivals(log, time)) == Contributors(st, time)
    && |FirstArrivals(log, time)| == |Contributors(st, time)|
    && st.steps[time].increment == |Contributors(st, time)| * if o.sobol then 2 else 1
  }

  /** At every mesh point, the mean times the increment is the sum of the first messages of those simulations. */
  ghost predicate MeansOfFirstArrivals(o: Options, st: Stream, log: seq<Data>, time: nat)
    requires st.Stream? && time < |st.steps| && AllWellFormed(o, st.vectSize, log)
  {
    && |st.steps[time].cells| == st.vectSize
    && forall i :: 0 <= i < st.vectSize ==>
         st.steps[time].cells[i].m1 * st.steps[time].increment as real
         == CentralSum(Column(Expected(o, st.vectSize, log, time), i), 0.0, 1)
  }

  lemma HeldCountsOnce(c: Config, k: Key, st: Stream, log: seq<Data>, time: nat)
    requires k in c.sizes && time < c.o.nbTimeSteps
    requires Holds(c, k, st, log)
    ensures Shaped(c.o, st) && CountsOnce(c.o, st, log, time)
  {
    var ideal := Accumulated(c.o, st.vectSize, log);
    RunReflects(c.o, st.vectSize, log);
    ExactlyOnceCount(c.o, ideal, log, time);
    assert SameRawStats(c.o, st.steps[time], ideal.steps[time]);
    hide ReceiveAll;
    hide FirstArrivals;
    assert Contributors(ideal, time) == Contributors(st, time);
  }

  /** The statistics of the uninterrupted run that a stream agrees with. */
  lemma IdealStep(c: Config, k: Key, st: Stream, log: seq<Data>, time: nat) returns (s: StepStats)
    requires k in c.sizes && time < c.o.nbTimeSteps && Holds(c, k, st, log)
    ensures Shaped(c.o, st) && AllWellFormed(c.o, st.vectSize, log) && SameRawStats(c.o, st.steps[time], s)
    ensures Summarises(c.o, s, Expected(c.o, st.vectSize, log, time), st.vectSize)
  {
    var ideal := Accumulated(c.o, st.vectSize, log);
    RunReflects(c.o, st.vectSize, log);
    s := ideal.steps[time];
  }

  lemma HeldMeans(c: Config, k: Key, st: Stream, log: seq<Data>, time: nat)
    requires c.o.Valid() && c.o.order > 0 && k in c.sizes && time < c.o.nbTimeSteps
    requires Holds(c, k, st, log)
    ensures Shaped(c.o, st) && AllWellFormed(c.o, st.vectSize, log) && MeansOfFirstArrivals(c.o, st, log, time)
  {
    hide Holds;
    hide Summarises;
    hide SameRawStats;
    hide CentralSum;
    hide Column;
    hide Expected;
    var s := IdealStep(c, k, st, log, time);
    var v, xs := st.vectSize, Expected(c.o, st.vectSize, log, time);
    SizesAgree(c.o, st.steps[time], s, xs, v);
    forall i | 0 <= i < v
      ensures st.steps[time].cells[i].m1 * st.steps[time].increment as real == CentralSum(Column(xs, i), 0.0, 1)
    {
      MeanAt(c.o, st.steps[time], s, xs, v, i);
    }
  }

  lemma SizesAgree(o: Options, a: StepStats, s: StepStats, xs: seq<seq<real>>, vectSize: nat)
    requires AllSized(xs, vectSize) && Summarises(o, s, xs, vectSize) && SameRawStats(o, a, s)
    ensures |a.cells| == |s.cells| == vectSize
  {
  }

  /** The mean of a recovered time step is that of the samples. */
  lemma MeanAt(o: Options, a: StepStats, s: StepStats, xs: seq<seq<real>>, vectSize: nat, i: nat)
    requires o.Valid() && o.order > 0 && AllSized(xs, vectSize) && i < vectSize
    requires Summarises(o, s, xs, vectSize) && SameRawStats(o, a, s)
    ensures i < |a.cells| && a.cells[i].m1 * a.increment as real == CentralSum(Column(xs, i), 0.0, 1)
  {
    hide CentralSum;
    hide FoldCell;
    MeanTimesCount(o, s, xs, vectSize, i);
    assert SameRaw(a.cells[i], s.cells[i], o.order);
  }

  /** Main result: in every reachable state, with any number of checkpoints, crashes and duplicate messages, every
      time step of every stream that is alive counts each simulation of its log exactly once. */
  lemma ExactlyOnceAlways(c: Config, es: seq<Event>, k: Key, time: nat)
    requires c.Valid() && IsRun(c, es) && k in c.sizes && time < c.o.nbTimeSteps && LifeOf(es, k).alive
    ensures var st, log := Run(c, es).streams[k], LifeOf(es, k).Log();
            && Shaped(c.o, st) && st.vectSize == c.sizes[k] && AllWellFormed(c.o, st.vectSize, log)
            && CountsOnce(c.o, st, log, time)
            && (c.o.order > 0 ==> MeansOfFirstArrivals(c.o, st, log, time))
  {
    RunHolds(c, es, k);
    var st, log := Run(c, es).streams[k], LifeOf(es, k).Log();
    hide Run;
    hide LifeOf;
    hide IsRun;
    hide CountsOnce;
    hide MeansOfFirstArrivals;
    HeldCountsOnce(c, k, st, log, time);
    if c.o.order > 0 {
      HeldMeans(c, k, st, log, time);
    }
  }
}
