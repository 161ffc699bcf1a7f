/** The imperative form of the statistics server: melissa_server_run on one rank (server/server.cxx),
    check_simu_state (server/server_helper.c), check_timeouts and send_timeouts (server/fault_tolerance.c).
    Each method takes one step of the state machine in StatServer. */
module ServerProcess {
  import opened Bitset
  import opened StreamStats
  import opened ExactlyOnce
  import opened Checkpoint
  import opened StatServer

  /** melissa_data_t; step_simu holds one packed set of time steps per simulation. */
  datatype StreamRecord =
    | Absent
    | Record(vectSize: nat, stepSimu: seq<seq<bv32>>, steps: seq<StepStats>)

  predicate Packed(o: Options, r: StreamRecord) {
    r.Record? ==> |r.stepSimu| == o.samplingSize
                  && forall q :: 0 <= q < |r.stepSimu| ==> |r.stepSimu[q]| == WordsFor(o.nbTimeSteps)
  }

  /** The stream a record stands for. */
  ghost function Unpacked(o: Options, r: StreamRecord): Stream
    requires Packed(o, r)
  {
    match r
    case Absent => NoStream
    case Record(v, words, steps) =>
      Stream(v, seq(|words|, q requires 0 <= q < |words| => Members(words[q], o.nbTimeSteps)), steps)
  }

  ghost function UnpackedAll(o: Options, rs: map<Key, StreamRecord>): map<Key, Stream>
    requires forall k :: k in rs ==> Packed(o, rs[k])
  {
    map k | k in rs :: Unpacked(o, rs[k])
  }

  lemma ZeroWordsAreEmpty(words: seq<bv32>, n: nat)
    requires |words| == WordsFor(n) && forall i :: 0 <= i < |words| ==> words[i] == 0
    ensures Members(words, n) == {}
  {
    forall p: nat | p < n ensures !TestBit(words, p) {
      ZeroMeetsNothing(Mask(p % WORD_BITS));
    }
  }

  lemma ZeroMeetsNothing(m: bv32)
    ensures !Meets(0, m)
  {
  }

  function BlankRecord(o: Options, vectSize: nat, alloc: nat): (r: StreamRecord)
    ensures Packed(o, r)
  {
    Record(vectSize, seq(o.samplingSize, _ => seq(WordsFor(o.nbTimeSteps), _ => 0)), FreshStream(o, alloc).steps)
  }

  lemma BlankIsFresh(o: Options, vectSize: nat, alloc: nat)
    ensures Unpacked(o, BlankRecord(o, vectSize, alloc))
         == Stream(vectSize, FreshStream(o, alloc).received, FreshStream(o, alloc).steps)
  {
    ZeroWordsAreEmpty(seq(WordsFor(o.nbTimeSteps), _ => 0), o.nbTimeSteps);
    var r := BlankRecord(o, vectSize, alloc);
    assert Unpacked(o, r).received == FreshStream(o, alloc).received;
  }

  /** read_saved_stats, on the record a checkpoint saved. */
  function ReadBack(o: Options, saved: StreamRecord, alloc: nat): (r: StreamRecord)
    requires Packed(o, saved)
    ensures Packed(o, r)
  {
    if saved.Absent? || saved.vectSize == 0 then BlankRecord(o, 0, alloc)
    else
      saved.(steps := seq(|saved.steps|, t requires 0 <= t < |saved.steps| => RestoredStep(o, saved.steps[t])))
  }

  lemma ReadBackIsRestored(o: Options, saved: StreamRecord, alloc: nat)
    requires Packed(o, saved) && (saved.Record? ==> Shaped(o, Unpacked(o, saved)))
    ensures Unpacked(o, ReadBack(o, saved, alloc)) == Restored(o, Unpacked(o, saved), alloc)
  {
    BlankIsFresh(o, 0, alloc);
  }

  /** One message on a record: test the bit, fold the data in, set the bit. */
  function ReceiveRecord(o: Options, r: StreamRecord, m: Data): StreamRecord
    requires r.Record? && Packed(o, r) && |r.steps| == o.nbTimeSteps && WellFormed(o, r.vectSize, m)
    requires forall t :: 0 <= t < |r.steps| ==> |r.steps[t].exceed| == |o.thresholds|
  {
    WordFor(o.nbTimeSteps, m.time);
    if TestBit(r.stepSimu[m.simu], m.time) then r
    else
      r.(stepSimu := r.stepSimu[m.simu := SetBit(r.stepSimu[m.simu], m.time)],
         steps := r.steps[m.time := AddVectors(o, r.steps[m.time], Folded(o, m), r.vectSize)])
  }

  lemma WordFor(n: nat, pos: nat)
    requires pos < n
    ensures pos / WORD_BITS < WordsFor(n)
  {
  }

  lemma ReceiveRecordIsReceive(o: Options, r: StreamRecord, m: Data)
    requires r.Record? && Packed(o, r) && Shaped(o, Unpacked(o, r)) && WellFormed(o, r.vectSize, m)
    ensures Packed(o, ReceiveRecord(o, r, m))
    ensures Unpacked(o, ReceiveRecord(o, r, m)) == Receive(o, Unpacked(o, r), m)
  {
    hide TestBit;
    hide SetBit;
    hide AddVectors;
    BitsetRefinesSet(r.stepSimu[m.simu], o.nbTimeSteps, m.time);
    SetBitKeepsLength(r.stepSimu[m.simu], o.nbTimeSteps, m.time);
    var next := ReceiveRecord(o, r, m);
    assert Unpacked(o, next).received == Receive(o, Unpacked(o, r), m).received;
  }

  lemma SetBitKeepsLength(words: seq<bv32>, n: nat, pos: nat)
    requires |words| == WordsFor(n) && pos < n
    ensures pos / WORD_BITS < |words| && |SetBit(words, pos)| == |words|
  {
  }

  ghost predicate AllPacked(c: Config, rs: map<Key, StreamRecord>) {
    && rs.Keys == c.sizes.Keys
    && forall k :: k in rs ==> Packed(c.o, rs[k])
  }

  lemma UpdateUnpacked(c: Config, rs: map<Key, StreamRecord>, k: Key, r: StreamRecord)
    requires AllPacked(c, rs) && k in rs && Packed(c.o, r)
    ensures AllPacked(c, rs[k := r])
    ensures UnpackedAll(c.o, rs[k := r]) == UnpackedAll(c.o, rs)[k := Unpacked(c.o, r)]
  {
  }

  function NoRecords(c: Config): map<Key, StreamRecord> {
    map k | k in c.sizes :: Absent
  }

  lemma AbsentIsNoStream(c: Config)
    ensures AllPacked(c, NoRecords(c)) && UnpackedAll(c.o, NoRecords(c)) == NoStreams(c)
  {
  }

  lemma RestartedState(c: Config, s: State, agreed: seq<nat>)
    requires Shape(c, s) && Enabled(c, s, CrashRestart(agreed))
    ensures Step(c, s, CrashRestart(agreed))
         == State(NoStreams(c), RestartedSimus(agreed), CountFinished(agreed), RestartNotices(agreed), s.disc, true)
  {
  }

  lemma UpdateShape(c: Config, s: State, k: Key, st: Stream)
    requires Shape(c, s) && k in c.sizes && Shaped(c.o, st) && st.vectSize <= c.sizes[k]
    ensures Shape(c, s.(streams := s.streams[k := st]))
  {
  }

  lemma LeastPrefix(xs: seq<nat>, j: nat)
    requires j < |xs|
    ensures Least(xs[..j + 1]) == if j == 0 || xs[j] <= Least(xs[..j]) then xs[j] else Least(xs[..j])
  {
    assert xs[..j + 1][..j] == xs[..j];
  }

  /** The reduction of one status over all ranks; this rank's own comes first. */
  method ReduceStatus(read: seq<nat>) returns (status: nat)
    requires read != []
    ensures status == Least(read)
  {
    hide Least;
    status := read[0];
    LeastPrefix(read, 0);
    for j := 1 to |read|
      invariant status == Least(read[..j])
    {
      LeastPrefix(read, j);
      if read[j] <= status {
        status := read[j];
      }
    }
    assert read[..|read|] == read;
  }

  /** What this rank and the others read can be agreed on. */
  lemma FilesFit(c: Config, s: State, others: seq<seq<nat>>)
    requires Shape(c, s) && s.disc.Disc? && SameSize(others, c.o.samplingSize)
    requires forall j, q :: 0 <= j < |others| && 0 <= q < c.o.samplingSize ==> others[j][q] <= FINISHED
    ensures var saved := [s.disc.statuses] + others;
            SameSize(saved, c.o.samplingSize) && Enabled(c, s, CrashRestart(LeastStatuses(saved, c.o.samplingSize)))
  {
    var saved := [s.disc.statuses] + others;
    AgreedFits(saved, c.o.samplingSize);
    assert saved[0] == s.disc.statuses;
  }

  lemma StatusRange(c: Config, s: State, q: nat)
    requires Shape(c, s) && q < c.o.samplingSize
    ensures CheckSimuState(c, s.streams, q) <= FINISHED
  {
  }

  lemma CheckpointEnabled(c: Config, rs: map<Key, StreamRecord>, s: State, signal: bool)
    requires AllPacked(c, rs) && s.streams == UnpackedAll(c.o, rs)
    requires signal || exists k :: k in rs && rs[k].Record?
    ensures Enabled(c, s, SaveCheckpoint(signal))
  {
    if !signal {
      var k :| k in rs && rs[k].Record?;
      assert s.streams[k].Stream?;
    }
  }

  lemma StatusShape(c: Config, s: State, q: nat, x: Simu, nbFinished: nat, outbox: seq<Notice>)
    requires Shape(c, s) && q < |s.simus| && !x.timeout && x.status <= FINISHED
    ensures Shape(c, s.(simus := s.simus[q := x], nbFinished := nbFinished, outbox := outbox))
  {
  }

  class Server {
    const c: Config
    const nbFields: nat
    const clientCommSize: nat
    var streams: map<Key, StreamRecord>
    var simulations: seq<Simu>
    var nbFinishedSimulations: nat
    var outbox: seq<Notice>
    var files: map<Key, StreamRecord>
    var savedStates: seq<nat>
    var hasFiles: bool
    var restarted: bool

    /** The state of the state machine this object is in. */
    ghost function Abs(): State
      reads this
      requires AllPacked(c, streams) && AllPacked(c, files)
    {
      State(UnpackedAll(c.o, streams), simulations, nbFinishedSimulations, outbox,
            if hasFiles then Disc(UnpackedAll(c.o, files), savedStates) else NoDisc, restarted)
    }

    ghost predicate Valid()
      reads this
    {
      && AllPacked(c, streams) && AllPacked(c, files) && Shape(c, Abs())
      && forall j, i :: (j, i) in c.sizes ==> 0 <= j < nbFields && 0 <= i < clientCommSize
    }

    /** melissa_server_init without a restart. A client may share no points with this rank, and then has no stream. */
    constructor (config: Config, fields: nat, clients: nat)
      requires forall j, i :: (j, i) in config.sizes ==> 0 <= j < fields && 0 <= i < clients
      ensures Valid() && c == config && Abs() == Init(config)
    {
      c, nbFields, clientCommSize := config, fields, clients;
      streams, files := NoRecords(config), NoRecords(config);
      simulations := [];
      nbFinishedSimulations, outbox, savedStates, hasFiles, restarted := 0, [], [], false, false;
      new;
      for i := 0 to c.o.samplingSize
        invariant simulations == seq(i, _ => NewSimu())
        invariant c == config && nbFields == fields && clientCommSize == clients
        invariant streams == files == NoRecords(config)
        invariant nbFinishedSimulations == 0 && outbox == [] && !hasFiles && !restarted
      {
        simulations := simulations + [NewSimu()];
      }
      AbsentIsNoStream(config);
    }

    /** The innermost loop of check_simu_state, over the time steps of one stream. */
    method AllStepsSet(key: Key, q: nat) returns (all: bool)
      requires Valid() && key in c.sizes && q < c.o.samplingSize && streams[key].Record?
      ensures all == Full(c.o, Abs().streams[key].received[q])
    {
      var words := streams[key].stepSimu[q];
      assert Abs().streams[key].received[q] == Members(words, c.o.nbTimeSteps);
      for t := 0 to c.o.nbTimeSteps
        invariant forall u :: 0 <= u < t ==> u in Members(words, c.o.nbTimeSteps)
      {
        WordFor(c.o.nbTimeSteps, t);
        hide Meets;
        assert TestBit(words, t) <==> t in Members(words, c.o.nbTimeSteps);
        if !TestBit(words, t) {
          return false;
        }
      }
      return true;
    }

    /** Its middle loop, over the client ranks of one field; it stops at the first stream with a missing step. */
    method FieldDone(j: nat, q: nat) returns (done: bool)
      requires Valid() && q < c.o.samplingSize
      ensures done ==> forall i :: 0 <= i < clientCommSize ==> StreamDone((j, i), q)
      ensures !done ==> exists i :: 0 <= i < clientCommSize && !StreamDone((j, i), q)
    {
      for i := 0 to clientCommSize
        invariant forall k :: 0 <= k < i ==> StreamDone((j, k), q)
      {
        if (j, i) in streams && streams[(j, i)].Record? {
          var all := AllStepsSet((j, i), q);
          if !all {
            assert !StreamDone((j, i), q);
            return false;
          }
        }
      }
      return true;
    }

    /** check_simu_state: scan fields and client ranks; stop at the first stream with a missing step. */
    method CheckState(q: nat) returns (status: nat)
      requires Valid() && q < c.o.samplingSize
      ensures status == CheckSimuState(c, Abs().streams, q)
    {
      hide Packed;
      for j := 0 to nbFields
        invariant forall f, i :: 0 <= f < j && 0 <= i < clientCommSize ==> StreamDone((f, i), q)
      {
        var done := FieldDone(j, q);
        if !done {
          ghost var i :| 0 <= i < clientCommSize && !StreamDone((j, i), q);
          assert (j, i) in Abs().streams;
          return RUNNING;
        }
      }
      status := FINISHED;
      forall k: Key | k in Abs().streams ensures StreamDone(k, q) {
        var (f, i) := k;
        assert k == (f, i);
      }
    }

    ghost predicate StreamDone(k: Key, q: nat)
      requires Valid() && q < c.o.samplingSize
      reads this
    {
      k in c.sizes && Abs().streams[k].Stream? ==> Full(c.o, Abs().streams[k].received[q])
    }

    /** The record a message works on: allocated, and read back after a restart, on first contact. */
    method LoadRecord(key: Key) returns (r: StreamRecord)
      requires Valid() && key in c.sizes
      ensures r.Record? && Packed(c.o, r) && Unpacked(c.o, r) == Loaded(c, Abs(), key)
    {
      r := streams[key];
      if r.Absent? {
        if restarted {
          ReadBackIsRestored(c.o, files[key], c.sizes[key]);
          r := ReadBack(c.o, files[key], c.sizes[key]);
        } else {
          BlankIsFresh(c.o, c.sizes[key], c.sizes[key]);
          r := BlankRecord(c.o, c.sizes[key], c.sizes[key]);
        }
      }
    }

    /** Test the bit, fold the data into the statistics, set the bit. */
    method UpdateRecord(rec: StreamRecord, m: Data) returns (r: StreamRecord)
      requires rec.Record? && Packed(c.o, rec) && Shaped(c.o, Unpacked(c.o, rec)) && WellFormed(c.o, rec.vectSize, m)
      ensures Packed(c.o, r) && Unpacked(c.o, r) == Receive(c.o, Unpacked(c.o, rec), m)
    {
      ReceiveRecordIsReceive(c.o, rec, m);
      WordFor(c.o.nbTimeSteps, m.time);
      r := rec;
      if !TestBit(r.stepSimu[m.simu], m.time) {
        var stats := AddVectors(c.o, r.steps[m.time], Folded(c.o, m), r.vectSize);
        var bits := SetBit(r.stepSimu[m.simu], m.time);
        r := r.(stepSimu := r.stepSimu[m.simu := bits], steps := r.steps[m.time := stats]);
      }
    }

    /** Data reception: one message for one time step of one simulation on one stream. */
    method ReceiveData(key: Key, m: Data, now: real)
      requires Valid() && key in c.sizes && WellFormed(c.o, c.sizes[key], m)
      modifies this`streams, this`simulations, this`nbFinishedSimulations, this`outbox
      ensures Valid() && Abs() == Step(c, old(Abs()), DataMessage(key, m, now))
    {
      ghost var s, e := Abs(), DataMessage(key, m, now);
      hide Shape;
      hide Receive;
      hide Loaded;
      hide UnpackedAll;
      hide CheckSimuState;
      Accumulate(key, m);
      UpdateStatus(m.simu, now);
      assert Abs() == Step(c, s, e);
    }

    method Accumulate(key: Key, m: Data)
      requires Valid() && key in c.sizes && WellFormed(c.o, c.sizes[key], m)
      modifies this`streams
      ensures Valid() && WellFormed(c.o, Loaded(c, old(Abs()), key).vectSize, m)
      ensures Abs() == old(Abs()).(streams := old(Abs()).streams[key := Receive(c.o, Loaded(c, old(Abs()), key), m)])
    {
      var r := LoadRecord(key);
      SmallerVectors(c.o, c.sizes[key], r.vectSize, m);
      r := UpdateRecord(r, m);
      UpdateUnpacked(c, streams, key, r);
      UpdateShape(c, Abs(), key, Unpacked(c.o, r));
      hide Shape;
      hide Receive;
      hide Loaded;
      hide UnpackedAll;
      hide Packed;
      streams := streams[key := r];
    }

    /** Recompute the simulation's status, count it when it finishes, tell the launcher when it changes. */
    method UpdateStatus(q: nat, now: real)
      requires Valid() && q < c.o.samplingSize
      modifies this`simulations, this`nbFinishedSimulations, this`outbox
      ensures Valid()
      ensures var s, status := old(Abs()), CheckSimuState(c, old(Abs()).streams, q);
              Abs() == s.(simus := s.simus[q := s.simus[q].(status := status, jobStatus := 1, lastMessage := now)],
                          nbFinished := s.nbFinished
                            + if status == FINISHED && s.simus[q].status != FINISHED then 1 else 0,
                          outbox := s.outbox + if status != s.simus[q].status then [SimuStatus(q, status)] else [])
    {
      ghost var s := Abs();
      assert q < |s.simus| && !s.simus[q].timeout;
      hide Shape;
      hide UnpackedAll;
      var oldState := simulations[q].status;
      var status := CheckState(q);
      StatusRange(c, s, q);
      hide CheckSimuState;
      ghost var x := s.simus[q].(status := status, jobStatus := 1, lastMessage := now);
      simulations := simulations[q := simulations[q].(status := status, jobStatus := 1, lastMessage := now)];
      if status == FINISHED && oldState != FINISHED {
        nbFinishedSimulations := nbFinishedSimulations + 1;
      }
      if oldState != status {
        outbox := outbox + [SimuStatus(q, status)];
      }
      StatusShape(c, s, q, x, nbFinishedSimulations, outbox);
      assert Abs() == s.(simus := s.simus[q := x], nbFinished := nbFinishedSimulations, outbox := outbox);
    }

    /** The timeout part of the main loop: check_timeouts, then send_timeouts or an alive message. */
    method TimeoutStep(now: real)
      requires Valid()
      modifies this`simulations, this`outbox
      ensures Valid() && Abs() == Step(c, old(Abs()), TimeoutCheck(now))
    {
      ghost var s := Abs();
      ghost var r := Step(c, s, TimeoutCheck(now));
      assert forall q :: 0 <= q < |s.simus| ==> !s.simus[q].timeout;
      hide Shape;
      hide UnpackedAll;
      var detected := CheckTimeouts(now);
      if detected > 0 {
        SendTimeouts(s.simus, now);
      } else {
        NoneAreLate(c, s.simus, now, |s.simus|);
        outbox := outbox + [Alive];
      }
      hide Timeouts;
      assert simulations == r.simus && outbox == r.outbox;
      hide Step;
      assert Abs() == r;
    }

    /** check_timeouts: flag the simulations that are late and take them back to the initial status. */
    method CheckTimeouts(now: real) returns (detected: nat)
      requires Valid()
      modifies this`simulations
      ensures |simulations| == |old(simulations)|
      ensures forall q :: 0 <= q < |simulations| ==>
                simulations[q]
                == AfterTimeout(c, old(simulations)[q], now).(timeout := TimedOut(c, old(simulations)[q], now))
      ensures detected == |Timeouts(c, old(simulations), now, |simulations|)|
    {
      ghost var before := simulations;
      assert forall q :: 0 <= q < |before| ==> !Abs().simus[q].timeout;
      detected := 0;
      for i := 0 to |simulations|
        invariant |simulations| == |before|
        invariant forall q :: i <= q < |before| ==> simulations[q] == before[q]
        invariant forall q :: 0 <= q < i ==>
                    simulations[q] == AfterTimeout(c, before[q], now).(timeout := TimedOut(c, before[q], now))
        invariant detected == |Timeouts(c, before, now, i)|
      {
        var simu := simulations[i];
        if simu.status == RUNNING && simu.jobStatus > 0 {
          if simu.lastMessage + c.timeoutSimu < now {
            simulations := simulations[i := simu.(timeout := true, lastMessage := 0.0, status := IDLE)];
            detected := detected + 1;
          }
        }
      }
    }

    /** send_timeouts: one notice per flagged simulation, in order, clearing the flags. */
    method SendTimeouts(ghost before: seq<Simu>, now: real)
      requires |before| == |simulations|
      requires forall q :: 0 <= q < |simulations| ==>
                 simulations[q] == AfterTimeout(c, before[q], now).(timeout := TimedOut(c, before[q], now))
      requires forall q :: 0 <= q < |before| ==> !before[q].timeout
      modifies this`simulations, this`outbox
      ensures simulations == seq(|before|, q requires 0 <= q < |before| => AfterTimeout(c, before[q], now))
      ensures outbox == old(outbox) + Timeouts(c, before, now, |before|)
    {
      for i := 0 to |simulations|
        invariant |simulations| == |before|
        invariant forall q :: i <= q < |before| ==>
                    simulations[q] == AfterTimeout(c, before[q], now).(timeout := TimedOut(c, before[q], now))
        invariant forall q :: 0 <= q < i ==> simulations[q] == AfterTimeout(c, before[q], now)
        invariant outbox == old(outbox) + Timeouts(c, before, now, i)
      {
        if simulations[i].timeout {
          outbox := outbox + [Timeout(i)];
          simulations := simulations[i := simulations[i].(timeout := false)];
        }
      }
    }

    /** The checkpoint of the main loop: every stream's statistics and bits, and the simulation states. It is guarded by
        a time that the initialisation of the first stream sets, unless a signal ends the loop. */
    method Checkpoint(signal: bool)
      requires Valid() && (signal || exists k :: k in streams && streams[k].Record?)
      modifies this`files, this`savedStates, this`hasFiles
      ensures Valid() && Abs() == Step(c, old(Abs()), SaveCheckpoint(signal))
    {
      var states := [];
      for i := 0 to |simulations|
        invariant states == Statuses(simulations)[..i]
      {
        states := states + [simulations[i].status];
      }
      assert states == Statuses(simulations);
      CheckpointEnabled(c, streams, Abs(), signal);
      hide UnpackedAll;
      hide Enabled;
      files, savedStates, hasFiles := streams, states, true;
    }

    /** A new server process on the files of the last checkpoint (restart block of melissa_server_init); others is what
        the other ranks read. */
    method Restart(others: seq<seq<nat>>)
      requires Valid() && hasFiles && SameSize(others, c.o.samplingSize)
      requires forall j, q :: 0 <= j < |others| && 0 <= q < c.o.samplingSize ==> others[j][q] <= FINISHED
      modifies this
      ensures Valid() && SameSize([old(savedStates)] + others, c.o.samplingSize)
      ensures var e := CrashRestart(LeastStatuses([old(savedStates)] + others, c.o.samplingSize));
              Enabled(c, old(Abs()), e) && Abs() == Step(c, old(Abs()), e)
    {
      ghost var s, saved := Abs(), [savedStates] + others;
      ghost var e := CrashRestart(LeastStatuses(saved, c.o.samplingSize));
      FilesFit(c, s, others);
      RestartedState(c, s, e.agreed);
      ghost var r := Step(c, s, e);
      hide LeastStatuses;
      hide Enabled;
      hide UnpackedAll;
      hide Shape;
      hide Step;
      hide RestartedSimus;
      hide RestartNotices;
      hide NoRecords;
      hide NoStreams;
      hide CountFinished;
      var agreed := ReadSimuStates(others);
      CountAndReport(agreed);
      AbsentIsNoStream(c);
      streams := NoRecords(c);
      restarted := true;
      assert Abs() == r;
    }

    /** read_simu_states: every rank reads its file, and the least status over all ranks is kept. */
    method ReadSimuStates(others: seq<seq<nat>>) returns (agreed: seq<nat>)
      requires |savedStates| == c.o.samplingSize && SameSize(others, c.o.samplingSize)
      ensures SameSize([savedStates] + others, c.o.samplingSize)
      ensures agreed == LeastStatuses([savedStates] + others, c.o.samplingSize)
    {
      hide Least;
      agreed := [];
      for i := 0 to c.o.samplingSize
        invariant |agreed| == i
        invariant forall q :: 0 <= q < i ==> agreed[q] == Least(ReadOf([savedStates] + others, q))
      {
        var status := ReduceStatus(ReadOf([savedStates] + others, i));
        agreed := agreed + [status];
      }
    }

    /** The loops behind it: count the finished ones, take running ones back, report all. */
    method CountAndReport(agreed: seq<nat>)
      modifies this`simulations, this`nbFinishedSimulations, this`outbox
      ensures nbFinishedSimulations == CountFinished(agreed)
      ensures simulations == RestartedSimus(agreed) && outbox == RestartNotices(agreed)
    {
      var simus: seq<Simu> := [];
      for i := 0 to |agreed|
        invariant |simus| == i && forall q :: 0 <= q < i ==> simus[q] == NewSimu().(status := agreed[q])
      {
        simus := simus + [NewSimu().(status := agreed[i])];
      }
      var nbFinished := 0;
      for i := 0 to |agreed|
        invariant nbFinished == CountFinished(agreed[..i])
      {
        assert agreed[..i + 1][..i] == agreed[..i];
        if simus[i].status == FINISHED {
          nbFinished := nbFinished + 1;
        }
      }
      assert agreed[..|agreed|] == agreed;
      nbFinishedSimulations := nbFinished;
      var notices: seq<Notice> := [];
      for i := 0 to |agreed|
        invariant |simus| == |agreed| && |notices| == i
        invariant forall q :: i <= q < |agreed| ==> simus[q] == NewSimu().(status := agreed[q])
        invariant forall q :: 0 <= q < i ==>
                    var status := RestartStatus(agreed[q]);
                    simus[q] == NewSimu().(status := status) && notices[q] == SimuStatus(q, status)
      {
        if simus[i].status == RUNNING {
          simus := simus[i := simus[i].(status := IDLE)];
        }
        notices := notices + [SimuStatus(i, simus[i].status)];
      }
      simulations, outbox := simus, notices;
    }
  }
}
