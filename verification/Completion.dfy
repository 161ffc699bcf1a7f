/** Completion of simulations and the exit test of the server's main loop
    (check_simu_state, server/server_helper.c:102-134; server/server.cxx:735-760, 881-885). */
module Completion {
  import opened StreamStats
  import opened ExactlyOnce
  import opened StatServer

  /** A finished simulation has all its time steps on every initialised stream. */
  ghost predicate FinishedAreComplete(c: Config, s: State)
    requires Shape(c, s)
  {
    forall q :: 0 <= q < |s.simus| && s.simus[q].status == FINISHED ==> Complete(c, s.streams, q)
  }

  /** nb_finished_simulations counts the finished simulations. */
  ghost predicate CountIsExact(c: Config, s: State) {
    s.nbFinished == CountFinished(Statuses(s.simus))
  }

  /** A message that initialises a stream finds all time steps of q on it already. */
  ghost predicate LoadsFull(c: Config, s: State, e: Event, q: nat)
    requires Shape(c, s) && Enabled(c, s, e) && q < |s.simus|
  {
    e.DataMessage? && s.streams[e.key].NoStream? ==> Full(c.o, Loaded(c, s, e.key).received[q])
  }

  /** The stream set is settled: no stream is initialised behind a finished simulation's back. */
  ghost predicate Settled(c: Config, s: State, e: Event)
    requires Shape(c, s) && Enabled(c, s, e)
  {
    forall q :: 0 <= q < |s.simus| && s.simus[q].status == FINISHED ==> LoadsFull(c, s, e, q)
  }

  // ---- counting ----

  lemma {:induction false} CountUpdate(xs: seq<nat>, q: nat, x: nat)
    requires q < |xs|
    ensures CountFinished(xs[q := x]) + (if xs[q] == FINISHED then 1 else 0)
         == CountFinished(xs) + (if x == FINISHED then 1 else 0)
  {
    var n := |xs| - 1;
    if q == n {
      assert xs[q := x][..n] == xs[..n];
    } else {
      assert xs[q := x][..n] == xs[..n][q := x];
      CountUpdate(xs[..n], q, x);
    }
  }

  lemma {:induction false} CountBound(xs: seq<nat>)
    ensures CountFinished(xs) <= |xs|
    ensures CountFinished(xs) == |xs| ==> forall q :: 0 <= q < |xs| ==> xs[q] == FINISHED
  {
    if xs != [] {
      CountBound(xs[..|xs| - 1]);
      assert forall q :: 0 <= q < |xs| - 1 ==> xs[..|xs| - 1][q] == xs[q];
    }
  }

  lemma {:induction false} CountSame(xs: seq<nat>, ys: seq<nat>)
    requires |xs| == |ys| && forall q :: 0 <= q < |xs| ==> (xs[q] == FINISHED <==> ys[q] == FINISHED)
    ensures CountFinished(xs) == CountFinished(ys)
  {
    if xs != [] {
      CountSame(xs[..|xs| - 1], ys[..|ys| - 1]);
    }
  }

  // ---- one data message ----

  /** Receiving adds one bit for one simulation. */
  lemma ReceivedBits(o: Options, st: Stream, m: Data, q: nat)
    requires Shaped(o, st) && WellFormed(o, st.vectSize, m) && q < o.samplingSize
    ensures Receive(o, st, m).received[q] == st.received[q] + if q == m.simu then {m.time} else {}
  {
  }

  /** For every simulation but the sender: complete after the message iff complete before it and the stream,
      if it had to be initialised, was loaded with all of its time steps. */
  lemma OthersComplete(c: Config, s: State, e: Event, q: nat)
    requires Shape(c, s) && Enabled(c, s, e) && e.DataMessage? && q < |s.simus| && q != e.data.simu
    ensures Complete(c, Step(c, s, e).streams, q) <==> Complete(c, s.streams, q) && LoadsFull(c, s, e, q)
  {
    var k, m, loaded := e.key, e.data, Loaded(c, s, e.key);
    SmallerVectors(c.o, c.sizes[k], loaded.vectSize, m);
    ReceivedBits(c.o, loaded, m, q);
    var streams := Step(c, s, e).streams;
    assert streams == s.streams[k := Receive(c.o, loaded, m)];
    hide Receive;
    hide Loaded;
    assert streams[k].received[q] == loaded.received[q];
    if Complete(c, streams, q) {
      assert Full(c.o, streams[k].received[q]);
      forall j | j in s.streams && s.streams[j].Stream? ensures Full(c.o, s.streams[j].received[q]) {
        assert j != k ==> streams[j] == s.streams[j];
        assert j == k ==> loaded == s.streams[k] by { KnownIsLoaded(c, s, k); }
      }
    }
    if Complete(c, s.streams, q) && LoadsFull(c, s, e, q) {
      KnownIsLoaded(c, s, k);
    }
  }

  lemma KnownIsLoaded(c: Config, s: State, k: Key)
    requires Shape(c, s) && k in c.sizes
    ensures s.streams[k].Stream? ==> Loaded(c, s, k) == s.streams[k]
  {
  }

  /** The exact condition for a data message to keep the two invariants: no simulation that is already finished
      misses a time step on a stream that this message initialises. */
  lemma DataKeepsCompletion(c: Config, s: State, e: Event)
    requires Shape(c, s) && Enabled(c, s, e) && e.DataMessage? && FinishedAreComplete(c, s)
    ensures FinishedAreComplete(c, Step(c, s, e))
       <==> forall q :: 0 <= q < |s.simus| && q != e.data.simu && s.simus[q].status == FINISHED ==>
              LoadsFull(c, s, e, q)
  {
    var r := Step(c, s, e);
    forall q | 0 <= q < |s.simus| && q != e.data.simu
      ensures r.simus[q] == s.simus[q]
      ensures Complete(c, r.streams, q) <==> Complete(c, s.streams, q) && LoadsFull(c, s, e, q)
    {
      OthersComplete(c, s, e, q);
    }
    assert r.simus[e.data.simu].status == CheckSimuState(c, r.streams, e.data.simu);
  }

  /** The sender is complete after the message if and only if it has all other streams, and this one with the step
      that the message brings. */
  lemma SenderAfter(c: Config, s: State, e: Event)
    requires Shape(c, s) && Enabled(c, s, e) && e.DataMessage? && Complete(c, s.streams, e.data.simu)
    ensures Complete(c, Step(c, s, e).streams, e.data.simu)
       <==> (s.streams[e.key].NoStream? ==> Full(c.o, Loaded(c, s, e.key).received[e.data.simu] + {e.data.time}))
  {
    var k, m, loaded := e.key, e.data, Loaded(c, s, e.key);
    SmallerVectors(c.o, c.sizes[k], loaded.vectSize, m);
    ReceivedBits(c.o, loaded, m, m.simu);
    KnownIsLoaded(c, s, k);
    assert Step(c, s, e).streams == s.streams[k := Receive(c.o, loaded, m)];
  }

  /** The exact condition for the count: a finished simulation must not send the message that initialises a stream on
      which other time steps of it are missing. */
  lemma DataKeepsCount(c: Config, s: State, e: Event)
    requires Shape(c, s) && Enabled(c, s, e) && e.DataMessage? && CountIsExact(c, s) && FinishedAreComplete(c, s)
    ensures var q := e.data.simu;
            (CountIsExact(c, Step(c, s, e))
             <==> (s.simus[q].status == FINISHED && s.streams[e.key].NoStream? ==>
                    Full(c.o, Loaded(c, s, e.key).received[q] + {e.data.time})))
  {
    var r, q := Step(c, s, e), e.data.simu;
    assert Statuses(r.simus) == Statuses(s.simus)[q := r.simus[q].status];
    CountUpdate(Statuses(s.simus), q, r.simus[q].status);
    assert r.simus[q].status == CheckSimuState(c, r.streams, q);
    if s.simus[q].status == FINISHED {
      SenderAfter(c, s, e);
    }
  }

  // ---- timeouts and restarts ----

  /** The notices of a step: the outbox only grows, but for a restart. */
  function Sent(s: State, r: State): seq<Notice> {
    if |s.outbox| <= |r.outbox| then r.outbox[|s.outbox|..] else []
  }

  predicate IsAbout(n: Notice, q: nat) {
    (n.SimuStatus? || n.Timeout?) && n.simu == q
  }

  lemma SentByCheck(c: Config, s: State, now: real)
    requires Shape(c, s)
    ensures var r, ts := Step(c, s, TimeoutCheck(now)), Timeouts(c, s.simus, now, |s.simus|);
            && Sent(s, r) == (if ts == [] then [Alive] else ts)
            && forall q :: 0 <= q < |s.simus| ==>
                 if TimedOut(c, s.simus[q], now) then r.simus[q].status == IDLE else r.simus[q] == s.simus[q]
  {
  }

  /** The notices of a check name exactly the running simulations whose job has sent data and whose last message is
      older than the limit, each once and in order. */
  ghost predicate NamesLate(c: Config, simus: seq<Simu>, now: real, sent: seq<Notice>) {
    && (forall q: nat ::
         Timeout(q) in sent
         <==> q < |simus| && simus[q].status == RUNNING && simus[q].jobStatus > 0
              && simus[q].lastMessage + c.timeoutSimu < now)
    && (forall i, k :: 0 <= i < k < |sent| ==> sent[i].Timeout? && sent[k].Timeout? && sent[i].simu < sent[k].simu)
  }

  lemma CheckNamesLate(c: Config, simus: seq<Simu>, now: real)
    ensures var ts := Timeouts(c, simus, now, |simus|);
            NamesLate(c, simus, now, if ts == [] then [Alive] else ts) && Alive !in ts
  {
    TimeoutsAreLate(c, simus, now, |simus|);
    forall q: nat | q < |simus| && TimedOut(c, simus[q], now) ensures Timeout(q) in Timeouts(c, simus, now, |simus|) {
      LateAreListed(c, simus, now, |simus|, q);
    }
    var ts := Timeouts(c, simus, now, |simus|);
    forall i, k | 0 <= i < k < |ts| ensures ts[i].Timeout? && ts[k].Timeout? && ts[i].simu < ts[k].simu {
      TimeoutsIncrease(c, simus, now, |simus|, i, k);
    }
    hide Timeouts;
  }

  /** A timeout check reports exactly the running simulations that are late, each once and in order, and takes them back
      to idle; nobody else changes. It sends an alive message, alone, exactly if there are none. */
  lemma TimeoutCheckReports(c: Config, s: State, now: real)
    requires Shape(c, s)
    ensures var r := Step(c, s, TimeoutCheck(now));
            && NamesLate(c, s.simus, now, Sent(s, r))
            && (Sent(s, r) == [Alive] <==> forall q :: 0 <= q < |s.simus| ==> Timeout(q) !in Sent(s, r))
            && (Sent(s, r) != [Alive] ==> forall n :: n in Sent(s, r) ==> n.Timeout? && n.simu < |s.simus|)
            && forall q :: 0 <= q < |s.simus| ==>
                 if Timeout(q) in Sent(s, r) then r.simus[q].status == IDLE else r.simus[q] == s.simus[q]
  {
    hide Step;
    hide Shape;
    hide Sent;
    hide Timeouts;
    TimeoutsAreLate(c, s.simus, now, |s.simus|);
    SentByCheck(c, s, now);
    CheckNamesLate(c, s.simus, now);
    NoneAreLate(c, s.simus, now, |s.simus|);
  }

  /** A restarted server has no stream in memory and no running simulation; it knows exactly the simulations as finished
      that the ranks agree on, which its own file has as finished, counts them, and reports every simulation once. */
  lemma RestartReports(c: Config, s: State, agreed: seq<nat>)
    requires Shape(c, s) && Enabled(c, s, CrashRestart(agreed))
    ensures var r := Step(c, s, CrashRestart(agreed));
            && (forall k :: k in c.sizes ==> r.streams[k].NoStream?)
            && (forall q :: 0 <= q < |r.simus| ==>
                 && r.simus[q].status != RUNNING && (r.simus[q].status == FINISHED <==> agreed[q] == FINISHED)
                 && (r.simus[q].status == FINISHED ==> s.disc.statuses[q] == FINISHED)
                 && (forall n: nat :: SimuStatus(q, n) in r.outbox <==> n == r.simus[q].status))
            && |r.outbox| == |r.simus| && CountIsExact(c, r)
  {
    var r := Step(c, s, CrashRestart(agreed));
    CountSame(agreed, Statuses(r.simus));
    forall q, n: nat | 0 <= q < |r.simus| ensures SimuStatus(q, n) in r.outbox <==> n == r.simus[q].status {
      assert r.outbox[q] == SimuStatus(q, r.simus[q].status);
    }
  }

  /** A checkpoint and a restart right after it keep a finished simulation if and only if the ranks agree on it. */
  lemma FinishedSurvive(c: Config, s: State, signal: bool, agreed: seq<nat>)
    requires Shape(c, s) && Enabled(c, s, SaveCheckpoint(signal)) && MayAgree(Statuses(s.simus), agreed)
    ensures var r := Step(c, Step(c, s, SaveCheckpoint(signal)), CrashRestart(agreed));
            && (forall q :: 0 <= q < |s.simus| ==>
                 (r.simus[q].status == FINISHED <==> s.simus[q].status == FINISHED && agreed[q] == FINISHED))
            && r.nbFinished == CountFinished(agreed)
  {
    RestartReports(c, Step(c, s, SaveCheckpoint(signal)), agreed);
  }

  /** All ranks restart together. */
  ghost predicate AllOnDisc(cs: seq<Config>, ss: seq<State>, n: nat) {
    && |cs| == |ss| > 0
    && forall j :: 0 <= j < |cs| ==> Shape(cs[j], ss[j]) && cs[j].o.samplingSize == n && ss[j].disc.Disc?
  }

  function SavedStatuses(ss: seq<State>): (saved: seq<seq<nat>>)
    requires forall j :: 0 <= j < |ss| ==> ss[j].disc.Disc?
    ensures |saved| == |ss| && forall j :: 0 <= j < |ss| ==> saved[j] == ss[j].disc.statuses
  {
    seq(|ss|, j requires 0 <= j < |ss| => ss[j].disc.statuses)
  }

  /** Main result, the restart of all ranks with the least statuses over their files: it is possible on every rank; then
      all ranks know the same simulations as finished, exactly those that every rank's checkpoint had, and count the
      same number. A simulation that some rank had not seen finish is taken back on all of them. */
  lemma RanksAgree(cs: seq<Config>, ss: seq<State>, n: nat, j: nat, q: nat)
    requires AllOnDisc(cs, ss, n) && j < |cs| && q < n
    ensures SameSize(SavedStatuses(ss), n)
    ensures var agreed := LeastStatuses(SavedStatuses(ss), n);
            && Enabled(cs[j], ss[j], CrashRestart(agreed))
            && var r := Step(cs[j], ss[j], CrashRestart(agreed));
               && r.nbFinished == CountFinished(agreed)
               && (r.simus[q].status == FINISHED
                   <==> forall i :: 0 <= i < |ss| ==> ss[i].disc.statuses[q] == FINISHED)
  {
    var saved := SavedStatuses(ss);
    assert forall i :: 0 <= i < |cs| ==> Shape(cs[i], ss[i]);
    AgreedFits(saved, n);
    hide LeastStatuses;
    RestartReports(cs[j], ss[j], LeastStatuses(saved, n));
    hide Step;
    hide Shape;
    assert LeastStatuses(saved, n)[q] == FINISHED <==> forall i :: 0 <= i < |saved| ==> saved[i][q] == FINISHED;
  }

  // ---- runs ----

  lemma StepCompletes(c: Config, s: State, e: Event)
    requires Shape(c, s) && Enabled(c, s, e) && Settled(c, s, e)
    requires FinishedAreComplete(c, s) && CountIsExact(c, s)
    ensures FinishedAreComplete(c, Step(c, s, e)) && CountIsExact(c, Step(c, s, e))
    ensures !e.CrashRestart? ==> forall q :: 0 <= q < |s.simus| && s.simus[q].status == FINISHED ==>
              Step(c, s, e).simus[q].status == FINISHED
  {
    var r := Step(c, s, e);
    if e.DataMessage? {
      DataKeepsCompletion(c, s, e);
      if s.simus[e.data.simu].status == FINISHED {
        SenderAfter(c, s, e);
      }
      DataKeepsCount(c, s, e);
    } else if e.CrashRestart? {
      RestartReports(c, s, e.agreed);
    } else {
      CountSame(Statuses(s.simus), Statuses(r.simus));
    }
  }

  ghost predicate SettledRun(c: Config, es: seq<Event>)
    requires IsRun(c, es)
  {
    es == [] || (SettledRun(c, es[..|es| - 1]) && Settled(c, Run(c, es[..|es| - 1]), es[|es| - 1]))
  }

  lemma {:induction false} CountIdle(c: Config, n: nat)
    ensures CountFinished(Statuses(seq(n, _ => NewSimu()))) == 0
  {
    if n > 0 {
      CountIdle(c, n - 1);
      assert Statuses(seq(n, _ => NewSimu()))[..n - 1] == Statuses(seq(n - 1, _ => NewSimu()));
    }
  }

  lemma {:induction false} RunCompletes(c: Config, es: seq<Event>)
    requires IsRun(c, es) && SettledRun(c, es)
    ensures FinishedAreComplete(c, Run(c, es)) && CountIsExact(c, Run(c, es))
  {
    if es == [] {
      CountIdle(c, c.o.samplingSize);
    } else {
      RunCompletes(c, es[..|es| - 1]);
      StepCompletes(c, Run(c, es[..|es| - 1]), es[|es| - 1]);
    }
  }

  /** The test that ends the main loop. */
  predicate ExitTest(c: Config, s: State) {
    s.nbFinished >= c.o.samplingSize && s.nbFinished > 0
  }

  /** Main result: on a settled run, with any timeouts, checkpoints and restarts, the loop ends only when every
      bit of every initialised stream is set for every simulation. */
  lemma ExitMeansAllComplete(c: Config, es: seq<Event>)
    requires IsRun(c, es) && SettledRun(c, es) && ExitTest(c, Run(c, es))
    ensures forall q, k, t ::
              (0 <= q < c.o.samplingSize && k in c.sizes && Run(c, es).streams[k].Stream? && 0 <= t < c.o.nbTimeSteps)
              ==> t in Run(c, es).streams[k].received[q]
  {
    RunCompletes(c, es);
    var s := Run(c, es);
    CountBound(Statuses(s.simus));
    forall q, k, t | 0 <= q < c.o.samplingSize && k in c.sizes && s.streams[k].Stream? && 0 <= t < c.o.nbTimeSteps
      ensures t in s.streams[k].received[q]
    {
      assert Statuses(s.simus)[q] == FINISHED;
      assert Complete(c, s.streams, q) && Full(c.o, s.streams[k].received[q]);
    }
  }

  // ---- a run that is not settled ----

  const TWO_STREAMS := Config(Options(2, 2, 0, false, [], false), map[(0, 0) := 1, (0, 1) := 1], 100.0)

  function FromSimuZero(clientRank: nat, time: nat): Event {
    DataMessage((0, clientRank), Data(time, 0, [[0.0]]), 0.0)
  }

  /** The effect of such a message, as far as completion is concerned. */
  lemma SimuZeroStep(s: State, i: nat, time: nat)
    requires Shape(TWO_STREAMS, s) && !s.restarted && i < 2 && time < 2
    ensures var e, k := FromSimuZero(i, time), (0, i);
            && Enabled(TWO_STREAMS, s, e)
            && var r := Step(TWO_STREAMS, s, e);
               && !r.restarted
               && r.streams[(0, 1 - i)] == s.streams[(0, 1 - i)]
               && r.streams[k].Stream?
               && r.streams[k].received[0] == (if s.streams[k].Stream? then s.streams[k].received[0] else {}) + {time}
               && r.streams[k].received[1] == (if s.streams[k].Stream? then s.streams[k].received[1] else {})
               && r.simus[0].status == CheckSimuState(TWO_STREAMS, r.streams, 0)
               && r.nbFinished == s.nbFinished
                  + if r.simus[0].status == FINISHED && s.simus[0].status != FINISHED then 1 else 0
  {
    var e, k := FromSimuZero(i, time), (0, i);
    assert WellFormed(TWO_STREAMS.o, 1, e.data);
    var loaded := Loaded(TWO_STREAMS, s, k);
    SmallerVectors(TWO_STREAMS.o, 1, loaded.vectSize, e.data);
    ReceivedBits(TWO_STREAMS.o, loaded, e.data, 0);
    ReceivedBits(TWO_STREAMS.o, loaded, e.data, 1);
  }

  /** Bits of simulation 0 on the two streams (none if the stream is not initialised), its status, and the count. */
  ghost predicate At(s: State, a: set<nat>, b: set<nat>, status: nat, nbFinished: nat) {
    && Shape(TWO_STREAMS, s) && !s.restarted
    && s.simus[0].status == status && s.nbFinished == nbFinished
    && BitsAre(s, 0, a) && BitsAre(s, 1, b)
  }

  ghost predicate BitsAre(s: State, i: nat, bits: set<nat>)
    requires Shape(TWO_STREAMS, s) && i < 2
  {
    if bits == {} then s.streams[(0, i)].NoStream?
    else s.streams[(0, i)].Stream? && s.streams[(0, i)].received[0] == bits && s.streams[(0, i)].received[1] == {}
  }

  lemma StatusIs(s: State, a: set<nat>, b: set<nat>)
    requires Shape(TWO_STREAMS, s) && BitsAre(s, 0, a) && BitsAre(s, 1, b)
    ensures CheckSimuState(TWO_STREAMS, s.streams, 0) == FINISHED
       <==> (a == {} || (0 in a && 1 in a)) && (b == {} || (0 in b && 1 in b))
  {
    assert (0, 0) in s.streams && (0, 1) in s.streams;
    if CheckSimuState(TWO_STREAMS, s.streams, 0) == FINISHED {
      assert a != {} ==> Full(TWO_STREAMS.o, a);
      assert b != {} ==> Full(TWO_STREAMS.o, b);
    } else {
      var k :| k in s.streams && s.streams[k].Stream? && !Full(TWO_STREAMS.o, s.streams[k].received[0]);
      assert k == (0, 0) || k == (0, 1);
    }
  }

  lemma MessageAt(s: State, a: set<nat>, b: set<nat>, status: nat, n: nat, i: nat, time: nat)
    requires At(s, a, b, status, n) && i < 2 && time < 2
    ensures var e := FromSimuZero(i, time);
            var x, y := if i == 0 then a + {time} else a, if i == 1 then b + {time} else b;
            var done := (x == {} || (0 in x && 1 in x)) && (y == {} || (0 in y && 1 in y));
            && Enabled(TWO_STREAMS, s, e)
            && At(Step(TWO_STREAMS, s, e), x, y, if done then FINISHED else RUNNING,
                  n + if done && status != FINISHED then 1 else 0)
  {
    var e := FromSimuZero(i, time);
    SimuZeroStep(s, i, time);
    var r := Step(TWO_STREAMS, s, e);
    hide Step;
    var x, y := if i == 0 then a + {time} else a, if i == 1 then b + {time} else b;
    assert BitsAre(r, 0, x) && BitsAre(r, 1, y);
    StatusIs(r, x, y);
  }

  lemma RunAppend(c: Config, es: seq<Event>, e: Event)
    requires IsRun(c, es) && Enabled(c, Run(c, es), e)
    ensures IsRun(c, es + [e]) && Run(c, es + [e]) == Step(c, Run(c, es), e)
  {
    assert (es + [e])[..|es|] == es;
  }

  ghost predicate RunAt(es: seq<Event>, a: set<nat>, b: set<nat>, status: nat, n: nat) {
    IsRun(TWO_STREAMS, es) && At(Run(TWO_STREAMS, es), a, b, status, n)
  }

  lemma StartAt()
    ensures RunAt([], {}, {}, IDLE, 0)
  {
  }

  lemma ExtendRun(es: seq<Event>, a: set<nat>, b: set<nat>, status: nat, n: nat, i: nat, time: nat)
    requires RunAt(es, a, b, status, n) && i < 2 && time < 2
    ensures var x, y := if i == 0 then a + {time} else a, if i == 1 then b + {time} else b;
            var done := (x == {} || (0 in x && 1 in x)) && (y == {} || (0 in y && 1 in y));
            && (done ==> RunAt(es + [FromSimuZero(i, time)], x, y, FINISHED, n + if status != FINISHED then 1 else 0))
            && (!done ==> RunAt(es + [FromSimuZero(i, time)], x, y, RUNNING, n))
  {
    hide At;
    hide Step;
    hide IsRun;
    hide Run;
    MessageAt(Run(TWO_STREAMS, es), a, b, status, n, i, time);
    RunAppend(TWO_STREAMS, es, FromSimuZero(i, time));
  }

  /** What At says at the end of the run below. */
  lemma NothingOfSimuOne(es: seq<Event>)
    requires RunAt(es, {} + {0} + {1}, {} + {0} + {1}, FINISHED, 2)
    ensures IsRun(TWO_STREAMS, es) && ExitTest(TWO_STREAMS, Run(TWO_STREAMS, es))
    ensures forall k :: k in TWO_STREAMS.sizes ==>
              Run(TWO_STREAMS, es).streams[k].Stream? && Run(TWO_STREAMS, es).streams[k].received[1] == {}
  {
    hide Run;
    hide IsRun;
  }

  /** The hypothesis is needed: here the second stream is initialised after simulation 0 was counted as finished.
      It is counted again, and the loop ends although nothing of simulation 1 has arrived. */
  lemma EarlyExit(es: seq<Event>)
    requires es == [FromSimuZero(0, 0), FromSimuZero(0, 1), FromSimuZero(1, 0), FromSimuZero(1, 1)]
    ensures IsRun(TWO_STREAMS, es) && ExitTest(TWO_STREAMS, Run(TWO_STREAMS, es))
    ensures forall k :: k in TWO_STREAMS.sizes ==>
              Run(TWO_STREAMS, es).streams[k].Stream? && Run(TWO_STREAMS, es).streams[k].received[1] == {}
  {
    hide RunAt;
    hide Run;
    hide IsRun;
    hide FromSimuZero;
    hide ExitTest;
    var none: set<nat>, one: set<nat> := {}, {} + {0};
    var both := one + {1};
    assert 0 in both && 1 in both && 1 !in one;
    StartAt();
    ExtendRun([], none, none, IDLE, 0, 0, 0);
    ExtendRun([] + [es[0]], one, none, RUNNING, 0, 0, 1);
    ExtendRun([] + [es[0]] + [es[1]], both, none, FINISHED, 1, 1, 0);
    ExtendRun([] + [es[0]] + [es[1]] + [es[2]], both, one, RUNNING, 1, 1, 1);
    assert [] + [es[0]] + [es[1]] + [es[2]] + [es[3]] == es;
    NothingOfSimuOne(es);
  }
}
