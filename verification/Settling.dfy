/** A condition on the events alone under which the stream set is settled (see Completion): every stream gets its first
    message in time, after the start and after every restart, and checkpoints wait for that. */
module Settling {
  import opened StreamStats
  import opened ExactlyOnce
  import opened Checkpoint
  import opened Recovery
  import opened StatServer
  import opened ServerRuns
  import opened Completion

  /** Messages for all time steps of simulation q. */
  ghost predicate HasAll(o: Options, log: seq<Data>, q: nat) {
    forall t :: 0 <= t < o.nbTimeSteps ==> Arrived(log, q, t)
  }

  ghost predicate AllLoaded(c: Config, es: seq<Event>) {
    forall k :: k in c.sizes ==> LifeOf(es, k).loaded
  }

  ghost predicate AllSaved(c: Config, es: seq<Event>) {
    forall k :: k in c.sizes ==> LifeOf(es, k).saved
  }

  ghost predicate Restarted(c: Config, es: seq<Event>) {
    forall k :: k in c.sizes ==> LifeOf(es, k).restarted
  }

  /** The files have all time steps of simulation q. */
  ghost predicate SavedWhole(c: Config, es: seq<Event>, q: nat) {
    forall k :: k in c.sizes ==> HasAll(c.o, LifeOf(es, k).savedLog, q)
  }

  /** The last event of es is in time. A message that brings the last time step of a simulation to a stream finds every
      stream loaded, unless the simulation is whole in the files the process started from. A restarted process saves
      only when every stream is loaded. A restart finds data of every stream. */
  ghost predicate InTime(c: Config, es: seq<Event>)
    requires es != []
  {
    var e, before := es[|es| - 1], es[..|es| - 1];
    match e
    case DataMessage(k, m, _) =>
      AllLoaded(c, es) || !HasAll(c.o, LifeOf(es, k).Log(), m.simu)
      || (Restarted(c, before) && SavedWhole(c, before, m.simu))
    case SaveCheckpoint(_) => forall k :: k in c.sizes && LifeOf(before, k).restarted ==> AllLoaded(c, before)
    case CrashRestart(_) => AllSaved(c, before)
    case _ => true
  }

  ghost predicate Prompt(c: Config, es: seq<Event>) {
    es == [] || (Prompt(c, es[..|es| - 1]) && InTime(c, es))
  }

  // ---- bits and logs ----

  lemma FullIsHasAll(o: Options, vectSize: nat, st: Stream, log: seq<Data>, q: nat)
    requires AllWellFormed(o, vectSize, log) && SameRun(o, st, Accumulated(o, vectSize, log)) && q < o.samplingSize
    ensures Full(o, st.received[q]) <==> HasAll(o, log, q)
  {
    RunReflects(o, vectSize, log);
    assert st.received == Accumulated(o, vectSize, log).received;
  }

  lemma LoadedBits(c: Config, es: seq<Event>, k: Key, q: nat)
    requires c.Valid() && IsRun(c, es) && k in c.sizes && LifeOf(es, k).alive && q < c.o.samplingSize
    ensures var st := Run(c, es).streams[k];
            st.Stream? && (Full(c.o, st.received[q]) <==> HasAll(c.o, LifeOf(es, k).Log(), q))
  {
    RunHolds(c, es, k);
    FullIsHasAll(c.o, c.sizes[k], Run(c, es).streams[k], LifeOf(es, k).Log(), q);
  }

  /** What a restarted process reads back. */
  lemma ReadBackBits(c: Config, es: seq<Event>, k: Key, q: nat)
    requires c.Valid() && IsRun(c, es) && k in c.sizes && q < c.o.samplingSize
    requires var l := LifeOf(es, k); !l.loaded && l.restarted && l.saved
    ensures Full(c.o, Loaded(c, Run(c, es), k).received[q]) <==> HasAll(c.o, LifeOf(es, k).savedLog, q)
  {
    RunFollows(c, es, k);
    var l, s := LifeOf(es, k), Run(c, es);
    LoadedFollows(c, s, l, k);
    FullIsHasAll(c.o, c.sizes[k], s.disc.streams[k], l.savedLog, q);
  }

  // ---- the invariant ----

  /** Loaded streams have data; a restarted process has the files of all of them. */
  ghost predicate NoneLost(c: Config, es: seq<Event>) {
    forall k :: k in c.sizes ==>
      && (LifeOf(es, k).loaded <==> LifeOf(es, k).alive)
      && (LifeOf(es, k).restarted ==> LifeOf(es, k).saved && Restarted(c, es))
  }

  /** Finished simulations: everything was loaded when they finished, or they were whole in the files; and the files
      know no finished simulation that is not whole in them. */
  ghost predicate FinishedInTime(c: Config, es: seq<Event>)
    requires IsRun(c, es)
  {
    var s := Run(c, es);
    && (forall q :: 0 <= q < |s.simus| && s.simus[q].status == FINISHED ==>
         AllLoaded(c, es) || (Restarted(c, es) && SavedWhole(c, es, q)))
    && (s.disc.Disc? && AllSaved(c, es) ==>
         forall q :: 0 <= q < |s.disc.statuses| && s.disc.statuses[q] == FINISHED ==> SavedWhole(c, es, q))
  }

  lemma LivesStep(c: Config, es: seq<Event>)
    requires es != [] && InTime(c, es) && NoneLost(c, es[..|es| - 1])
    ensures NoneLost(c, es)
    ensures !es[|es| - 1].CrashRestart? && AllLoaded(c, es[..|es| - 1]) ==> AllLoaded(c, es)
    ensures es[|es| - 1].CrashRestart? ==> Restarted(c, es) && AllSaved(c, es)
    ensures !es[|es| - 1].SaveCheckpoint? ==>
              forall k :: LifeOf(es, k).saved == LifeOf(es[..|es| - 1], k).saved
                          && LifeOf(es, k).savedLog == LifeOf(es[..|es| - 1], k).savedLog
    ensures Restarted(c, es[..|es| - 1]) ==> Restarted(c, es)
  {
    var before := es[..|es| - 1];
    forall k | k in c.sizes && LifeOf(es, k).restarted ensures Restarted(c, es) {
      if !es[|es| - 1].CrashRestart? {
        assert LifeOf(before, k).restarted;
      }
    }
  }

  /** A settled step: a stream that is initialised finds the finished simulations in its file. */
  lemma InTimeIsSettled(c: Config, es: seq<Event>, e: Event)
    requires c.Valid() && IsRun(c, es) && Enabled(c, Run(c, es), e) && NoneLost(c, es) && FinishedInTime(c, es)
    ensures Settled(c, Run(c, es), e)
  {
    var s := Run(c, es);
    hide Run;
    hide IsRun;
    hide LifeOf;
    hide Loaded;
    forall q | 0 <= q < |s.simus| && s.simus[q].status == FINISHED ensures LoadsFull(c, s, e, q) {
      if e.DataMessage? && s.streams[e.key].NoStream? {
        StreamFollowsLife(c, es, e.key);
        assert !AllLoaded(c, es);
        ReadBackBits(c, es, e.key, q);
      }
    }
  }

  lemma MessageInTime(c: Config, es: seq<Event>, q: nat)
    requires es != [] && c.Valid() && IsRun(c, es) && InTime(c, es) && es[|es| - 1].DataMessage?
    requires IsRun(c, es[..|es| - 1]) && NoneLost(c, es[..|es| - 1]) && FinishedInTime(c, es[..|es| - 1])
    requires q < c.o.samplingSize && Run(c, es).simus[q].status == FINISHED
    ensures AllLoaded(c, es) || (Restarted(c, es) && SavedWhole(c, es, q))
  {
    var e, before := es[|es| - 1], es[..|es| - 1];
    LivesStep(c, es);
    var s, r := Run(c, before), Run(c, es);
    assert r == Step(c, s, e);
    if q == e.data.simu {
      assert LifeOf(es, e.key).loaded;
      LoadedBits(c, es, e.key, q);
      assert r.simus[q].status == CheckSimuState(c, r.streams, q);
      assert Complete(c, r.streams, q);
      assert Full(c.o, r.streams[e.key].received[q]);
    }
  }

  lemma SaveInTime(c: Config, es: seq<Event>, q: nat)
    requires es != [] && c.Valid() && IsRun(c, es) && InTime(c, es) && es[|es| - 1].SaveCheckpoint?
    requires IsRun(c, es[..|es| - 1]) && NoneLost(c, es[..|es| - 1])
    requires FinishedAreComplete(c, Run(c, es[..|es| - 1])) && AllSaved(c, es)
    requires q < c.o.samplingSize && Run(c, es[..|es| - 1]).simus[q].status == FINISHED
    ensures SavedWhole(c, es, q)
  {
    var before := es[..|es| - 1];
    var s := Run(c, before);
    forall k | k in c.sizes ensures HasAll(c.o, LifeOf(es, k).savedLog, q) {
      assert LifeOf(es, k).saved;
      assert LifeOf(before, k).alive;
      LoadedBits(c, before, k, q);
      assert Complete(c, s.streams, q);
    }
  }

  /** What stays the same if the event is no message: the finished simulations come from before, or from the file. */
  lemma FinishedBefore(c: Config, s: State, e: Event, q: nat)
    requires Shape(c, s) && Enabled(c, s, e) && !e.DataMessage? && q < c.o.samplingSize
    requires Step(c, s, e).simus[q].status == FINISHED
    ensures !e.CrashRestart? ==> s.simus[q].status == FINISHED
    ensures e.CrashRestart? ==> s.disc.statuses[q] == FINISHED
  {
  }

  lemma DiscAfter(c: Config, s: State, e: Event)
    requires Shape(c, s) && Enabled(c, s, e)
    ensures !e.SaveCheckpoint? ==> Step(c, s, e).disc == s.disc
    ensures e.SaveCheckpoint? ==> Step(c, s, e).disc == Disc(s.streams, Statuses(s.simus))
  {
  }

  lemma RunLast(c: Config, es: seq<Event>)
    requires es != [] && IsRun(c, es)
    ensures IsRun(c, es[..|es| - 1]) && Enabled(c, Run(c, es[..|es| - 1]), es[|es| - 1])
    ensures Run(c, es) == Step(c, Run(c, es[..|es| - 1]), es[|es| - 1])
  {
    hide Step;
    hide Enabled;
  }

  /** The first half of the invariant, for one simulation. */
  lemma RunningInTime(c: Config, es: seq<Event>, q: nat)
    requires es != [] && c.Valid() && IsRun(c, es) && InTime(c, es) && IsRun(c, es[..|es| - 1])
    requires NoneLost(c, es[..|es| - 1]) && FinishedInTime(c, es[..|es| - 1])
    requires q < c.o.samplingSize && Run(c, es).simus[q].status == FINISHED
    ensures AllLoaded(c, es) || (Restarted(c, es) && SavedWhole(c, es, q))
  {
    hide LifeOf;
    hide Run;
    hide IsRun;
    hide Step;
    hide HasAll;
    hide InTime;
    hide NoneLost;
    var e, before := es[|es| - 1], es[..|es| - 1];
    LivesStep(c, es);
    RunLast(c, es);
    if e.DataMessage? {
      MessageInTime(c, es, q);
    } else {
      FinishedBefore(c, Run(c, before), e, q);
      if e.SaveCheckpoint? {
        SavedEarly(c, es);
      }
    }
  }

  /** The second half: the files. */
  lemma FilesInTime(c: Config, es: seq<Event>, q: nat)
    requires es != [] && c.Valid() && IsRun(c, es) && InTime(c, es) && IsRun(c, es[..|es| - 1])
    requires NoneLost(c, es[..|es| - 1]) && FinishedInTime(c, es[..|es| - 1])
    requires FinishedAreComplete(c, Run(c, es[..|es| - 1])) && AllSaved(c, es)
    requires Run(c, es).disc.Disc? && q < c.o.samplingSize && Run(c, es).disc.statuses[q] == FINISHED
    ensures SavedWhole(c, es, q)
  {
    hide LifeOf;
    hide Run;
    hide IsRun;
    hide Step;
    hide Enabled;
    hide InTime;
    hide HasAll;
    var e, before := es[|es| - 1], es[..|es| - 1];
    LivesStep(c, es);
    RunLast(c, es);
    DiscAfter(c, Run(c, before), e);
    if e.SaveCheckpoint? {
      SaveInTime(c, es, q);
    }
  }

  lemma StepInTime(c: Config, es: seq<Event>)
    requires es != [] && c.Valid() && IsRun(c, es) && InTime(c, es) && IsRun(c, es[..|es| - 1])
    requires NoneLost(c, es[..|es| - 1]) && FinishedInTime(c, es[..|es| - 1])
    requires FinishedAreComplete(c, Run(c, es[..|es| - 1]))
    ensures FinishedInTime(c, es)
  {
    var s := Run(c, es);
    hide Run;
    hide InTime;
    hide NoneLost;
    forall q | 0 <= q < |s.simus| && s.simus[q].status == FINISHED
      ensures AllLoaded(c, es) || (Restarted(c, es) && SavedWhole(c, es, q))
    {
      RunningInTime(c, es, q);
    }
    if s.disc.Disc? && AllSaved(c, es) {
      forall q | 0 <= q < |s.disc.statuses| && s.disc.statuses[q] == FINISHED ensures SavedWhole(c, es, q) {
        FilesInTime(c, es, q);
      }
    }
  }

  lemma SavedEarly(c: Config, es: seq<Event>)
    requires es != [] && InTime(c, es) && es[|es| - 1].SaveCheckpoint?
    ensures Restarted(c, es[..|es| - 1]) ==> AllLoaded(c, es[..|es| - 1])
  {
  }

  /** Main result: if the events are in time, the stream set is settled throughout the run. */
  lemma {:induction false} PromptIsSettled(c: Config, es: seq<Event>)
    requires c.Valid() && IsRun(c, es) && Prompt(c, es)
    ensures SettledRun(c, es) && NoneLost(c, es) && FinishedInTime(c, es)
  {
    if es != [] {
      var before := es[..|es| - 1];
      PromptIsSettled(c, before);
      RunCompletes(c, before);
      hide FinishedInTime;
      hide NoneLost;
      hide Run;
      hide InTime;
      LivesStep(c, es);
      InTimeIsSettled(c, before, es[|es| - 1]);
      StepInTime(c, es);
    }
  }

  /** Main result: then the main loop ends only when every bit of every stream is set for every simulation, and no
      stream was lost on the way; without a restart, no stream is missing. */
  lemma PromptExit(c: Config, es: seq<Event>)
    requires c.Valid() && IsRun(c, es) && Prompt(c, es) && ExitTest(c, Run(c, es))
    ensures forall q, k, t ::
              (0 <= q < c.o.samplingSize && k in c.sizes && Run(c, es).streams[k].Stream? && 0 <= t < c.o.nbTimeSteps)
              ==> t in Run(c, es).streams[k].received[q]
    ensures forall k :: k in c.sizes ==> (LifeOf(es, k).loaded <==> LifeOf(es, k).alive)
    ensures forall k :: k in c.sizes && !LifeOf(es, k).restarted ==> LifeOf(es, k).alive
  {
    PromptIsSettled(c, es);
    RunCompletes(c, es);
    ExitMeansAllComplete(c, es);
    var s := Run(c, es);
    hide Run;
    hide LifeOf;
    hide SettledRun;
    CountBound(Statuses(s.simus));
    assert Statuses(s.simus)[0] == FINISHED;
    forall k | k in c.sizes && !LifeOf(es, k).restarted ensures LifeOf(es, k).alive {
      assert AllLoaded(c, es);
    }
  }
}
