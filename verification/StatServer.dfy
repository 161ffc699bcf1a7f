/** The statistics server of one rank as a state machine: data messages, timeout checks, checkpoints,
    crash and restart (server/server.cxx, server/server_helper.c, server/fault_tolerance.c). */
module StatServer {
  import opened StreamStats
  import opened ExactlyOnce
  import opened Checkpoint

  /** A stream is named by its field and its client rank. */
  type Key = (nat, nat)

  /** Sizes of the streams that clients send; the keys are all (field, client rank) pairs. */
  datatype Config = Config(o: Options, sizes: map<Key, nat>, timeoutSimu: real)
  {
    predicate Valid() {
      o.Valid() && forall k :: k in sizes ==> sizes[k] > 0
    }
  }

  const IDLE: nat := 0
  const RUNNING: nat := 1
  const FINISHED: nat := 2

  datatype Simu = Simu(status: nat, jobStatus: int, timeout: bool, lastMessage: real)

  /** Messages to the launcher. */
  datatype Notice = SimuStatus(simu: nat, status: nat) | Timeout(simu: nat) | Alive

  /** What a checkpoint leaves on disc: one file per stream and the simulation states. */
  datatype Disc = NoDisc | Disc(streams: map<Key, Stream>, statuses: seq<nat>)

  datatype State = State(streams: map<Key, Stream>, simus: seq<Simu>, nbFinished: nat, outbox: seq<Notice>,
                         disc: Disc, restarted: bool)

  datatype Event =
    | DataMessage(key: Key, data: Data, now: real)
    | TimeoutCheck(now: real)
    | JobMessage(simu: nat)
    | SaveCheckpoint(signal: bool)
    | CrashRestart(agreed: seq<nat>)

  function NewSimu(): Simu {
    Simu(IDLE, -1, false, 0.0)
  }

  function NoStreams(c: Config): map<Key, Stream> {
    map k | k in c.sizes :: NoStream
  }

  ghost function Init(c: Config): State {
    State(NoStreams(c), seq(c.o.samplingSize, _ => NewSimu()), 0, [], NoDisc, false)
  }

  /** Statuses that the ranks may agree on at a restart: the least over all ranks, this one's file included. */
  predicate MayAgree(saved: seq<nat>, agreed: seq<nat>) {
    |agreed| == |saved| && forall q :: 0 <= q < |saved| ==> agreed[q] <= saved[q]
  }

  /** A periodic checkpoint waits until the process has initialised a stream; one on a signal does not. */
  predicate Enabled(c: Config, s: State, e: Event) {
    match e
    case DataMessage(k, m, _) => k in c.sizes && WellFormed(c.o, c.sizes[k], m)
    case JobMessage(q) => q < c.o.samplingSize
    case SaveCheckpoint(signal) => signal || exists k :: k in s.streams && s.streams[k].Stream?
    case CrashRestart(agreed) => s.disc.Disc? && MayAgree(s.disc.statuses, agreed)
    case _ => true
  }

  /** Shapes that every step keeps. */
  predicate Shape(c: Config, s: State) {
    && s.streams.Keys == c.sizes.Keys
    && (forall k :: k in s.streams && s.streams[k].Stream? ==>
         Shaped(c.o, s.streams[k]) && s.streams[k].vectSize <= c.sizes[k])
    && |s.simus| == c.o.samplingSize
    && (forall q :: 0 <= q < |s.simus| ==> !s.simus[q].timeout && s.simus[q].status <= FINISHED)
    && (s.disc.Disc? ==>
         && s.disc.streams.Keys == c.sizes.Keys && |s.disc.statuses| == c.o.samplingSize
         && (forall q :: 0 <= q < |s.disc.statuses| ==> s.disc.statuses[q] <= FINISHED)
         && forall k :: k in s.disc.streams && s.disc.streams[k].Stream? ==>
              Shaped(c.o, s.disc.streams[k]) && s.disc.streams[k].vectSize <= c.sizes[k])
    && (s.restarted ==> s.disc.Disc?)
  }

  // ---- steps ----

  /** The stream a first message finds: fresh, or read back after a restart. */
  function Loaded(c: Config, s: State, k: Key): (st: Stream)
    requires Shape(c, s) && k in c.sizes
    ensures Shaped(c.o, st) && st.vectSize <= c.sizes[k]
  {
    if s.streams[k].Stream? then s.streams[k]
    else if s.restarted then Restored(c.o, s.disc.streams[k], c.sizes[k])
    else FreshStream(c.o, c.sizes[k])
  }

  ghost predicate Full(o: Options, bits: set<nat>) {
    forall t :: 0 <= t < o.nbTimeSteps ==> t in bits
  }

  /** All time steps of simulation q have arrived on every initialised stream. */
  ghost predicate Complete(c: Config, streams: map<Key, Stream>, q: nat)
    requires forall k :: k in streams && streams[k].Stream? ==> q < |streams[k].received|
  {
    forall k :: k in streams && streams[k].Stream? ==> Full(c.o, streams[k].received[q])
  }

  /** check_simu_state */
  ghost function CheckSimuState(c: Config, streams: map<Key, Stream>, q: nat): nat
    requires forall k :: k in streams && streams[k].Stream? ==> q < |streams[k].received|
  {
    if Complete(c, streams, q) then FINISHED else RUNNING
  }

  lemma SmallerVectors(o: Options, big: nat, small: nat, m: Data)
    requires WellFormed(o, big, m) && small <= big
    ensures WellFormed(o, small, m)
  {
  }

  ghost function OnData(c: Config, s: State, k: Key, m: Data, now: real): (r: State)
    requires Shape(c, s) && k in c.sizes && WellFormed(c.o, c.sizes[k], m)
    ensures Shape(c, r)
  {
    var loaded := Loaded(c, s, k);
    SmallerVectors(c.o, c.sizes[k], loaded.vectSize, m);
    var streams := s.streams[k := Receive(c.o, loaded, m)];
    var before, status := s.simus[m.simu].status, CheckSimuState(c, streams, m.simu);
    s.(streams := streams,
       simus := s.simus[m.simu := s.simus[m.simu].(status := status, jobStatus := 1, lastMessage := now)],
       nbFinished := s.nbFinished + if status == FINISHED && before != FINISHED then 1 else 0,
       outbox := s.outbox + if status != before then [SimuStatus(m.simu, status)] else [])
  }

  predicate TimedOut(c: Config, x: Simu, now: real) {
    x.status == RUNNING && x.jobStatus > 0 && x.lastMessage + c.timeoutSimu < now
  }

  function AfterTimeout(c: Config, x: Simu, now: real): Simu {
    if TimedOut(c, x, now) then x.(lastMessage := 0.0, status := IDLE) else x
  }

  /** Notices of the simulations that time out among the first n, in order. */
  function Timeouts(c: Config, simus: seq<Simu>, now: real, n: nat): seq<Notice>
    requires n <= |simus|
  {
    if n == 0 then []
    else Timeouts(c, simus, now, n - 1) + if TimedOut(c, simus[n - 1], now) then [Timeout(n - 1)] else []
  }

  /** The notices are about simulations that time out. */
  lemma {:induction false} TimeoutsAreLate(c: Config, simus: seq<Simu>, now: real, n: nat)
    requires n <= |simus|
    ensures forall k :: 0 <= k < |Timeouts(c, simus, now, n)| ==>
              var notice := Timeouts(c, simus, now, n)[k];
              notice.Timeout? && notice.simu < n && TimedOut(c, simus[notice.simu], now)
  {
    if n > 0 {
      TimeoutsAreLate(c, simus, now, n - 1);
    }
  }

  lemma {:induction false} TimeoutsIncrease(c: Config, simus: seq<Simu>, now: real, n: nat, i: nat, k: nat)
    requires n <= |simus| && i < k < |Timeouts(c, simus, now, n)|
    ensures var ts := Timeouts(c, simus, now, n);
            ts[i].Timeout? && ts[k].Timeout? && ts[i].simu < ts[k].simu
  {
    TimeoutsAreLate(c, simus, now, n);
    TimeoutsAreLate(c, simus, now, n - 1);
    if k < |Timeouts(c, simus, now, n - 1)| {
      TimeoutsIncrease(c, simus, now, n - 1, i, k);
    }
  }

  /** Every simulation that times out gets one. */
  lemma {:induction false} LateAreListed(c: Config, simus: seq<Simu>, now: real, n: nat, q: nat)
    requires n <= |simus| && q < n && TimedOut(c, simus[q], now)
    ensures Timeout(q) in Timeouts(c, simus, now, n)
  {
    if q < n - 1 {
      LateAreListed(c, simus, now, n - 1, q);
    } else {
      assert Timeouts(c, simus, now, n)[|Timeouts(c, simus, now, n - 1)|] == Timeout(q);
    }
  }

  lemma NoneAreLate(c: Config, simus: seq<Simu>, now: real, n: nat)
    requires n <= |simus|
    ensures Timeouts(c, simus, now, n) == [] <==> forall q :: 0 <= q < n ==> !TimedOut(c, simus[q], now)
  {
    TimeoutsAreLate(c, simus, now, n);
    var ts := Timeouts(c, simus, now, n);
    forall q: nat | q < n && TimedOut(c, simus[q], now) ensures ts != [] {
      LateAreListed(c, simus, now, n, q);
    }
    if ts != [] {
      assert TimedOut(c, simus[ts[0].simu], now);
    }
  }

  /** check_timeouts followed by send_timeouts, or an alive message when nothing timed out. */
  function OnTimeoutCheck(c: Config, s: State, now: real): (r: State)
    requires Shape(c, s)
    ensures Shape(c, r)
  {
    var notices := Timeouts(c, s.simus, now, |s.simus|);
    s.(simus := seq(|s.simus|, q requires 0 <= q < |s.simus| => AfterTimeout(c, s.simus[q], now)),
       outbox := s.outbox + if notices == [] then [Alive] else notices)
  }

  function CountFinished(statuses: seq<nat>): nat {
    if statuses == [] then 0
    else CountFinished(statuses[..|statuses| - 1]) + if statuses[|statuses| - 1] == FINISHED then 1 else 0
  }

  function Statuses(simus: seq<Simu>): seq<nat> {
    seq(|simus|, q requires 0 <= q < |simus| => simus[q].status)
  }

  // ---- several ranks ----

  function Least(xs: seq<nat>): (x: nat)
    requires xs != []
    ensures x in xs && forall y :: y in xs ==> x <= y
  {
    var n := |xs| - 1;
    if n == 0 then xs[0]
    else
      var x := Least(xs[..n]);
      assert xs == xs[..n] + [xs[n]];
      if x < xs[n] then x else xs[n]
  }

  /** What all ranks read for simulation q. */
  function ReadOf(saved: seq<seq<nat>>, q: nat): (xs: seq<nat>)
    requires forall j :: 0 <= j < |saved| ==> q < |saved[j]|
    ensures |xs| == |saved| && forall j :: 0 <= j < |xs| ==> xs[j] == saved[j][q]
  {
    seq(|saved|, j requires 0 <= j < |saved| => saved[j][q])
  }

  predicate SameSize(saved: seq<seq<nat>>, n: nat) {
    forall j :: 0 <= j < |saved| ==> |saved[j]| == n
  }

  /** The reduction of read_simu_states: for every simulation the least status over all ranks. */
  function LeastStatuses(saved: seq<seq<nat>>, n: nat): (agreed: seq<nat>)
    requires saved != [] && SameSize(saved, n)
    ensures |agreed| == n
  {
    seq(n, q requires 0 <= q < n => Least(ReadOf(saved, q)))
  }

  /** The least statuses fit every rank; a simulation is finished in them exactly if it is in the files of all ranks. */
  lemma AgreedFits(saved: seq<seq<nat>>, n: nat)
    requires saved != [] && SameSize(saved, n)
    requires forall j, q :: 0 <= j < |saved| && 0 <= q < n ==> saved[j][q] <= FINISHED
    ensures forall j :: 0 <= j < |saved| ==> MayAgree(saved[j], LeastStatuses(saved, n))
    ensures forall q :: 0 <= q < n ==>
              (LeastStatuses(saved, n)[q] == FINISHED <==> forall j :: 0 <= j < |saved| ==> saved[j][q] == FINISHED)
  {
    forall j, q | 0 <= j < |saved| && 0 <= q < n ensures LeastStatuses(saved, n)[q] <= saved[j][q] {
      assert ReadOf(saved, q)[j] in ReadOf(saved, q);
    }
    forall q | 0 <= q < n
      ensures LeastStatuses(saved, n)[q] == FINISHED <==> forall j :: 0 <= j < |saved| ==> saved[j][q] == FINISHED
    {
      var j :| 0 <= j < |saved| && ReadOf(saved, q)[j] == Least(ReadOf(saved, q));
      assert saved[j][q] == LeastStatuses(saved, n)[q];
    }
  }

  /** Running simulations start over. */
  function RestartStatus(status: nat): nat {
    if status == RUNNING then IDLE else status
  }

  function RestartedSimus(statuses: seq<nat>): (r: seq<Simu>)
    ensures |r| == |statuses|
    ensures forall q :: 0 <= q < |r| ==> r[q] == NewSimu().(status := RestartStatus(statuses[q]))
  {
    seq(|statuses|, q requires 0 <= q < |statuses| => NewSimu().(status := RestartStatus(statuses[q])))
  }

  function RestartNotices(statuses: seq<nat>): (r: seq<Notice>)
    ensures |r| == |statuses|
    ensures forall q :: 0 <= q < |r| ==> r[q] == SimuStatus(q, RestartStatus(statuses[q]))
  {
    seq(|statuses|, q requires 0 <= q < |statuses| => SimuStatus(q, RestartStatus(statuses[q])))
  }

  /** The restart block of melissa_server_init, on one rank. */
  ghost function OnCrashRestart(c: Config, s: State, agreed: seq<nat>): (r: State)
    requires Shape(c, s) && s.disc.Disc? && MayAgree(s.disc.statuses, agreed)
    ensures Shape(c, r)
  {
    State(NoStreams(c), RestartedSimus(agreed), CountFinished(agreed), RestartNotices(agreed), s.disc, true)
  }

  ghost function Step(c: Config, s: State, e: Event): (r: State)
    requires Shape(c, s) && Enabled(c, s, e)
    ensures Shape(c, r)
  {
    match e
    case DataMessage(k, m, now) => OnData(c, s, k, m, now)
    case TimeoutCheck(now) => OnTimeoutCheck(c, s, now)
    case JobMessage(q) => s.(simus := s.simus[q := s.simus[q].(jobStatus := 0)])
    case SaveCheckpoint(_) => s.(disc := Disc(s.streams, Statuses(s.simus)))
    case CrashRestart(agreed) => OnCrashRestart(c, s, agreed)
  }

  // ---- runs ----

  /** All events of the run are enabled when they happen. */
  ghost predicate IsRun(c: Config, es: seq<Event>)
    decreases |es|, 0
  {
    es == [] || (IsRun(c, es[..|es| - 1]) && Enabled(c, Run(c, es[..|es| - 1]), es[|es| - 1]))
  }

  ghost function Run(c: Config, es: seq<Event>): (s: State)
    requires IsRun(c, es)
    ensures Shape(c, s)
    decreases |es|, 1
  {
    if es == [] then Init(c) else Step(c, Run(c, es[..|es| - 1]), es[|es| - 1])
  }
}
