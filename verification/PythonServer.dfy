/** The Python server's record of simulations (utility/melissa4py/melissa4py/server.py, fault_tolerance.py): every
    (field, time step) is accepted once in the life of a simulation, and its end is reported once. */
module PythonServer {

  /** Simulation.timesteps: one row of marks per field. */
  type Marks = seq<seq<bool>>

  datatype Report = Running(id: int) | Finished(id: int)

  /** field is the index of a known field; an unknown name is out of range. */
  datatype Message =
    | Job(id: int)
    | Drop(id: int)
    | SimulationData(id: int, field: int, timestep: int, dataSize: int)

  datatype Ledger = Ledger(simulations: map<int, Marks>, sampleSize: int, pushed: seq<Report>)

  datatype StudyOptions = StudyOptions(nbFields: nat, nbTimeSteps: nat, sampleSize: int)

  function NewMarks(y: StudyOptions): Marks {
    seq(y.nbFields, _ => seq(y.nbTimeSteps, _ => false))
  }

  predicate Sized(y: StudyOptions, marks: Marks) {
    |marks| == y.nbFields && forall f :: 0 <= f < |marks| ==> |marks[f]| == y.nbTimeSteps
  }

  predicate IsMarked(y: StudyOptions, s: Ledger) {
    forall id :: id in s.simulations ==> Sized(y, s.simulations[id])
  }

  function CountRow(row: seq<bool>): nat {
    if row == [] then 0 else CountRow(row[..|row| - 1]) + if row[|row| - 1] then 1 else 0
  }

  function CountMarks(marks: Marks): nat {
    if marks == [] then 0 else CountMarks(marks[..|marks| - 1]) + CountRow(marks[|marks| - 1])
  }

  /** Simulation.finished: the marks add up to the number of cells. */
  predicate IsFinished(y: StudyOptions, marks: Marks) {
    CountMarks(marks) == |marks| * y.nbTimeSteps
  }

  predicate AllSet(marks: Marks) {
    forall f, t :: 0 <= f < |marks| && 0 <= t < |marks[f]| ==> marks[f][t]
  }

  lemma {:induction false} RowBound(row: seq<bool>)
    ensures CountRow(row) <= |row|
    ensures CountRow(row) == |row| <==> forall t :: 0 <= t < |row| ==> row[t]
  {
    if row != [] {
      var n := |row| - 1;
      RowBound(row[..n]);
      assert forall t :: 0 <= t < n ==> row[..n][t] == row[t];
    }
  }

  lemma {:induction false} MarksBound(y: StudyOptions, marks: Marks)
    requires forall f :: 0 <= f < |marks| ==> |marks[f]| == y.nbTimeSteps
    ensures CountMarks(marks) <= |marks| * y.nbTimeSteps
    ensures CountMarks(marks) == |marks| * y.nbTimeSteps <==> AllSet(marks)
  {
    if marks != [] {
      var n := |marks| - 1;
      MarksBound(y, marks[..n]);
      RowBound(marks[n]);
      assert |marks| * y.nbTimeSteps == n * y.nbTimeSteps + y.nbTimeSteps;
      AllSetSplit(marks);
    }
  }

  lemma AllSetSplit(marks: Marks)
    requires marks != []
    ensures var n := |marks| - 1;
            AllSet(marks) <==> AllSet(marks[..n]) && forall t :: 0 <= t < |marks[n]| ==> marks[n][t]
  {
    var n := |marks| - 1;
    if AllSet(marks[..n]) && forall t :: 0 <= t < |marks[n]| ==> marks[n][t] {
      forall f, t | 0 <= f < |marks| && 0 <= t < |marks[f]| ensures marks[f][t] {
        assert f < n ==> marks[..n][f] == marks[f];
      }
    }
    if AllSet(marks) {
      forall f, t | 0 <= f < n && 0 <= t < |marks[..n][f]| ensures marks[..n][f][t] {
        assert marks[..n][f] == marks[f];
      }
    }
  }

  /** The sum test of the code says exactly that every mark is set. */
  lemma FinishedIsAllSet(y: StudyOptions, marks: Marks)
    requires Sized(y, marks)
    ensures IsFinished(y, marks) <==> AllSet(marks)
  {
    MarksBound(y, marks);
  }

  // ---- the handlers ----

  /** A data message with a known field and a time step of the study. */
  predicate InRange(y: StudyOptions, m: Message) {
    m.SimulationData? && 0 <= m.timestep < y.nbTimeSteps && 0 <= m.field < y.nbFields
  }

  /** The record a data message finds, or creates. */
  function MarksOf(y: StudyOptions, s: Ledger, id: int): (marks: Marks)
    requires IsMarked(y, s)
    ensures Sized(y, marks)
  {
    if id in s.simulations then s.simulations[id] else NewMarks(y)
  }

  predicate Accepts(y: StudyOptions, s: Ledger, m: Message)
    requires IsMarked(y, s)
  {
    InRange(y, m) && !MarksOf(y, s, m.id)[m.field][m.timestep]
  }

  function Mark(marks: Marks, f: nat, t: nat): Marks
    requires f < |marks| && t < |marks[f]|
  {
    marks[f := marks[f][t := true]]
  }

  /** handle_launcher_message and handle_simulation_data */
  function Handle(y: StudyOptions, s: Ledger, m: Message): (r: Ledger)
    requires IsMarked(y, s)
    ensures IsMarked(y, r)
  {
    match m
    case Job(id) => s.(simulations := s.simulations[id := MarksOf(y, s, id)])
    case Drop(id) => s.(simulations := s.simulations - {id}, sampleSize := s.sampleSize - 1)
    case SimulationData(id, f, t, _) =>
      if !InRange(y, m) then s
      else
        var connected := if id in s.simulations then [] else [Running(id)];
        var marks := MarksOf(y, s, id);
        if marks[f][t] then s.(simulations := s.simulations[id := marks], pushed := s.pushed + connected)
        else
          var marked := Mark(marks, f, t);
          s.(simulations := s.simulations[id := marked],
             pushed := s.pushed + connected + if IsFinished(y, marked) then [Finished(id)] else [])
  }

  function Run(y: StudyOptions, ms: seq<Message>): (s: Ledger)
    ensures IsMarked(y, s)
  {
    if ms == [] then Ledger(map[], y.sampleSize, []) else Handle(y, Run(y, ms[..|ms| - 1]), ms[|ms| - 1])
  }

  // ---- one life of a simulation ----

  /** Accepted messages for a (field, time step) of a simulation since it was last dropped. */
  function AcceptedSince(y: StudyOptions, ms: seq<Message>, id: int, f: nat, t: nat): nat {
    if ms == [] then 0
    else
      var n := |ms| - 1;
      if ms[n] == Drop(id) then 0
      else
        AcceptedSince(y, ms[..n], id, f, t)
        + if ms[n].SimulationData? && ms[n].id == id && ms[n].field == f && ms[n].timestep == t
             && Accepts(y, Run(y, ms[..n]), ms[n]) then 1 else 0
  }

  function CountReport(notices: seq<Report>, n: Report): nat {
    multiset(notices)[n]
  }

  /** Finished notices about a simulation since it was last dropped. */
  function FinishedSince(y: StudyOptions, ms: seq<Message>, id: int): nat {
    if ms == [] then 0
    else
      var n := |ms| - 1;
      if ms[n] == Drop(id) then 0
      else
        FinishedSince(y, ms[..n], id)
        + (CountReport(Run(y, ms).pushed, Finished(id)) - CountReport(Run(y, ms[..n]).pushed, Finished(id)))
  }

  lemma HandlePushes(y: StudyOptions, s: Ledger, m: Message, id: int)
    requires IsMarked(y, s)
    ensures var more := if Accepts(y, s, m) && m.id == id && AllSet(Mark(MarksOf(y, s, id), m.field, m.timestep))
                        then 1 else 0;
            CountReport(Handle(y, s, m).pushed, Finished(id)) == CountReport(s.pushed, Finished(id)) + more
  {
    if Accepts(y, s, m) {
      var marked := Mark(MarksOf(y, s, m.id), m.field, m.timestep);
      FinishedIsAllSet(y, marked);
      hide IsFinished;
      hide AllSet;
    }
  }

  /** Main result: between creation and drop, a (field, time step) of a simulation is accepted at most once, whatever
      the messages; the mark says whether it was. */
  lemma {:induction false} AcceptedOnce(y: StudyOptions, ms: seq<Message>, id: int, f: nat, t: nat)
    requires f < y.nbFields && t < y.nbTimeSteps
    ensures AcceptedSince(y, ms, id, f, t) == if MarksOf(y, Run(y, ms), id)[f][t] then 1 else 0
  {
    if ms != [] {
      var n := |ms| - 1;
      var s, m := Run(y, ms[..n]), ms[n];
      AcceptedOnce(y, ms[..n], id, f, t);
      MarkStep(y, s, m, id, f, t);
      assert Run(y, ms) == Handle(y, s, m);
      hide Run;
      hide Handle;
      hide MarksOf;
      hide Accepts;
    }
  }

  /** What one message does to one mark. */
  lemma MarkStep(y: StudyOptions, s: Ledger, m: Message, id: int, f: nat, t: nat)
    requires IsMarked(y, s) && f < y.nbFields && t < y.nbTimeSteps
    ensures var before, after := MarksOf(y, s, id)[f][t], MarksOf(y, Handle(y, s, m), id)[f][t];
            var hit := m.SimulationData? && m.id == id && m.field == f && m.timestep == t && Accepts(y, s, m);
            && (m == Drop(id) ==> !after)
            && (m != Drop(id) ==> (after <==> before || hit) && !(before && hit))
  {
    hide IsFinished;
  }

  lemma MarkSets(marks: Marks, f: nat, t: nat)
    requires f < |marks| && t < |marks[f]| && !marks[f][t]
    ensures !AllSet(marks)
    ensures |Mark(marks, f, t)| == |marks|
  {
  }

  /** Main result: the end of a simulation is reported exactly once, when the last mark of all its fields and time
      steps is set. */
  lemma {:induction false} FinishedOnce(y: StudyOptions, ms: seq<Message>, id: int)
    ensures var s := Run(y, ms);
            FinishedSince(y, ms, id)
            == if id in s.simulations && AllSet(s.simulations[id]) && y.nbFields > 0 && y.nbTimeSteps > 0 then 1 else 0
  {
    if ms != [] {
      var n := |ms| - 1;
      assert Run(y, ms) == Handle(y, Run(y, ms[..n]), ms[n]);
      hide Run;
      if ms[n] != Drop(id) {
        hide Handle;
        hide CountReport;
        FinishedOnce(y, ms[..n], id);
        HandlePushes(y, Run(y, ms[..n]), ms[n], id);
        FinishedStep(y, Run(y, ms[..n]), ms[n], id);
      }
    }
  }

  /** What one message does to the marks of a simulation, as far as its end is concerned. */
  lemma FinishedStep(y: StudyOptions, s: Ledger, m: Message, id: int)
    requires IsMarked(y, s) && m != Drop(id)
    ensures var r := Handle(y, s, m);
            var before := id in s.simulations && AllSet(s.simulations[id]) && y.nbFields > 0 && y.nbTimeSteps > 0;
            var after := id in r.simulations && AllSet(r.simulations[id]) && y.nbFields > 0 && y.nbTimeSteps > 0;
            var ends := Accepts(y, s, m) && m.id == id && AllSet(Mark(MarksOf(y, s, id), m.field, m.timestep));
            (after <==> before || ends) && !(before && ends)
  {
    if y.nbFields > 0 && y.nbTimeSteps > 0 {
      assert !NewMarks(y)[0][0];
    }
    if Accepts(y, s, m) {
      MarkSets(MarksOf(y, s, m.id), m.field, m.timestep);
    }
    hide IsFinished;
  }

  // ---- the record, from the messages alone ----

  function Drops(ms: seq<Message>): nat {
    if ms == [] then 0 else Drops(ms[..|ms| - 1]) + if ms[|ms| - 1].Drop? then 1 else 0
  }

  /** Message i registers its simulation, and no later one drops it. */
  predicate Registers(y: StudyOptions, ms: seq<Message>, i: nat) {
    && i < |ms| && (ms[i].Job? || InRange(y, ms[i]))
    && forall j :: i < j < |ms| ==> ms[j] != Drop(ms[i].id)
  }

  function Registered(y: StudyOptions, ms: seq<Message>): set<int> {
    set i | 0 <= i < |ms| && Registers(y, ms, i) :: ms[i].id
  }

  /** Data of a simulation for a field and a time step has come, and the simulation was not dropped since. */
  predicate HasCome(ms: seq<Message>, id: int, f: int, t: int) {
    exists i :: 0 <= i < |ms| && IsDataFor(ms[i], id, f, t) && forall j :: i < j < |ms| ==> ms[j] != Drop(id)
  }

  predicate IsDataFor(m: Message, id: int, f: int, t: int) {
    m.SimulationData? && m.id == id && m.field == f && m.timestep == t
  }

  predicate AllCome(y: StudyOptions, ms: seq<Message>, id: int) {
    forall f, t :: 0 <= f < y.nbFields && 0 <= t < y.nbTimeSteps ==> HasCome(ms, id, f, t)
  }

  lemma RegisteredStep(y: StudyOptions, ms: seq<Message>, m: Message, id: int)
    ensures id in Registered(y, ms + [m])
       <==> (id in Registered(y, ms) && m != Drop(id)) || ((m.Job? || InRange(y, m)) && m.id == id)
  {
    var more := ms + [m];
    if id in Registered(y, ms) && m != Drop(id) {
      var i :| 0 <= i < |ms| && Registers(y, ms, i) && ms[i].id == id;
      assert more[i] == ms[i] && Registers(y, more, i);
    }
    if (m.Job? || InRange(y, m)) && m.id == id {
      assert more[|ms|] == m && Registers(y, more, |ms|);
    }
    if id in Registered(y, more) {
      var i :| 0 <= i < |more| && Registers(y, more, i) && more[i].id == id;
      if i < |ms| {
        assert more[|ms|] == m && more[i] == ms[i];
        assert forall j :: 0 <= j < |ms| ==> more[j] == ms[j];
        assert Registers(y, ms, i);
      }
    }
  }

  lemma HasComeStep(ms: seq<Message>, m: Message, id: int, f: int, t: int)
    ensures HasCome(ms + [m], id, f, t) <==> (HasCome(ms, id, f, t) && m != Drop(id)) || IsDataFor(m, id, f, t)
  {
    var more := ms + [m];
    assert more[|ms|] == m && forall j :: 0 <= j < |ms| ==> more[j] == ms[j];
    if HasCome(ms, id, f, t) && m != Drop(id) {
      var i :| 0 <= i < |ms| && IsDataFor(ms[i], id, f, t) && forall j :: i < j < |ms| ==> ms[j] != Drop(id);
      assert IsDataFor(more[i], id, f, t);
    }
    if HasCome(more, id, f, t) {
      var i :| 0 <= i < |more| && IsDataFor(more[i], id, f, t) && forall j :: i < j < |more| ==> more[j] != Drop(id);
      assert i < |ms| ==> IsDataFor(ms[i], id, f, t);
    }
  }

  /** The ledger says of simulation id what the messages say. */
  ghost predicate Records(y: StudyOptions, ms: seq<Message>, s: Ledger, id: int)
    requires IsMarked(y, s)
  {
    && (id in s.simulations <==> id in Registered(y, ms))
    && (forall f, t :: 0 <= f < y.nbFields && 0 <= t < y.nbTimeSteps ==>
         (MarksOf(y, s, id)[f][t] <==> HasCome(ms, id, f, t)))
  }

  lemma RecordsStep(y: StudyOptions, ms: seq<Message>, m: Message, s: Ledger, id: int)
    requires IsMarked(y, s) && Records(y, ms, s, id)
    ensures Records(y, ms + [m], Handle(y, s, m), id)
  {
    hide IsFinished;
    hide Registered;
    hide HasCome;
    RegisteredStep(y, ms, m, id);
    var r := Handle(y, s, m);
    forall f, t | 0 <= f < y.nbFields && 0 <= t < y.nbTimeSteps
      ensures MarksOf(y, r, id)[f][t] <==> HasCome(ms + [m], id, f, t)
    {
      HasComeStep(ms, m, id, f, t);
      MarkStep(y, s, m, id, f, t);
    }
  }

  lemma RunAppend(y: StudyOptions, ms: seq<Message>, m: Message)
    ensures Run(y, ms + [m]) == Handle(y, Run(y, ms), m)
    ensures Drops(ms + [m]) == Drops(ms) + if m.Drop? then 1 else 0
  {
    assert (ms + [m])[..|ms|] == ms;
  }

  /** Main result, for every message sequence: a simulation is known if and only if a job message or an in-range data
      message of it came since it was last dropped, it is marked with exactly the data that came since, and every drop,
      of whatever simulation, takes one from the sample size. */
  lemma {:induction false} RecordFollowsMessages(y: StudyOptions, ms: seq<Message>)
    ensures Run(y, ms).sampleSize == y.sampleSize - Drops(ms)
    ensures forall id :: id in Run(y, ms).simulations <==> id in Registered(y, ms)
    ensures forall id, f, t :: 0 <= f < y.nbFields && 0 <= t < y.nbTimeSteps ==>
              (MarksOf(y, Run(y, ms), id)[f][t] <==> HasCome(ms, id, f, t))
  {
    hide Registered;
    hide HasCome;
    forall id ensures id in Run(y, ms).simulations <==> id in Registered(y, ms) {
      RunRecords(y, ms, id);
    }
    forall id, f, t | 0 <= f < y.nbFields && 0 <= t < y.nbTimeSteps
      ensures MarksOf(y, Run(y, ms), id)[f][t] <==> HasCome(ms, id, f, t)
    {
      RunRecords(y, ms, id);
    }
    SizeFollowsDrops(y, ms);
  }

  lemma {:induction false} RunRecords(y: StudyOptions, ms: seq<Message>, id: int)
    ensures Records(y, ms, Run(y, ms), id)
  {
    if ms != [] {
      hide *;
      var n := |ms| - 1;
      RunRecords(y, ms[..n], id);
      assert ms[..n] + [ms[n]] == ms;
      RunAppend(y, ms[..n], ms[n]);
      RecordsStep(y, ms[..n], ms[n], Run(y, ms[..n]), id);
    }
  }

  lemma {:induction false} SizeFollowsDrops(y: StudyOptions, ms: seq<Message>)
    ensures Run(y, ms).sampleSize == y.sampleSize - Drops(ms)
  {
    if ms != [] {
      SizeFollowsDrops(y, ms[..|ms| - 1]);
    }
  }

  /** The test of all_done. */
  predicate IsDone(s: Ledger, crashed: set<int>) {
    |s.simulations| >= s.sampleSize && forall id :: id in s.simulations && id !in crashed ==> AllSet(s.simulations[id])
  }

  /** Main result: the server is done if and only if at least the sample size less the drops are registered, and of each
      of them that does not count as crashed all data has come since it was last dropped. */
  lemma DoneOnMessages(y: StudyOptions, ms: seq<Message>, crashed: set<int>)
    ensures IsDone(Run(y, ms), crashed)
       <==> |Registered(y, ms)| >= y.sampleSize - Drops(ms)
            && forall id :: id in Registered(y, ms) && id !in crashed ==> AllCome(y, ms, id)
  {
    RecordFollowsMessages(y, ms);
    var s := Run(y, ms);
    assert forall id :: id in s.simulations.Keys <==> id in Registered(y, ms);
    assert s.simulations.Keys == Registered(y, ms);
    assert |s.simulations| == |s.simulations.Keys|;
    hide Registered;
    hide Run;
    hide HasCome;
    forall id | id in s.simulations ensures AllSet(s.simulations[id]) <==> AllCome(y, ms, id) {
      assert Sized(y, s.simulations[id]) && MarksOf(y, s, id) == s.simulations[id];
    }
  }

  /** What one more message makes the server push: a simulation is running when its first data since the last drop comes
      and no job message did, and finished when its last data comes. */
  lemma PushedOnMessage(y: StudyOptions, ms: seq<Message>, m: Message)
    ensures var inRange := InRange(y, m);
            Run(y, ms + [m]).pushed
            == Run(y, ms).pushed + (if inRange && m.id !in Registered(y, ms) then [Running(m.id)] else [])
               + if inRange && !AllCome(y, ms, m.id) && AllCome(y, ms + [m], m.id) then [Finished(m.id)] else []
  {
    RunAppend(y, ms, m);
    if InRange(y, m) {
      PushedOnData(y, ms, m);
    }
  }

  lemma PushedOnData(y: StudyOptions, ms: seq<Message>, m: Message)
    requires InRange(y, m)
    ensures Handle(y, Run(y, ms), m).pushed
         == Run(y, ms).pushed + (if m.id !in Registered(y, ms) then [Running(m.id)] else [])
            + if !AllCome(y, ms, m.id) && AllCome(y, ms + [m], m.id) then [Finished(m.id)] else []
  {
    RecordFollowsMessages(y, ms);
    RecordFollowsMessages(y, ms + [m]);
    RunAppend(y, ms, m);
    HasComeStep(ms, m, m.id, m.field, m.timestep);
    var s, r, id := Run(y, ms), Handle(y, Run(y, ms), m), m.id;
    hide Run;
    hide Registered;
    hide HasCome;
    AllMarked(y, ms, s, id);
    AllMarked(y, ms + [m], r, id);
    if MarksOf(y, s, id)[m.field][m.timestep] {
      assert MarksOf(y, r, id) == MarksOf(y, s, id);
    } else {
      FinishedIsAllSet(y, MarksOf(y, r, id));
    }
    hide IsFinished;
    hide AllCome;
    hide AllSet;
  }

  lemma AllMarked(y: StudyOptions, ms: seq<Message>, s: Ledger, id: int)
    requires IsMarked(y, s)
    requires forall f, t :: 0 <= f < y.nbFields && 0 <= t < y.nbTimeSteps ==>
               (MarksOf(y, s, id)[f][t] <==> HasCome(ms, id, f, t))
    ensures AllSet(MarksOf(y, s, id)) <==> AllCome(y, ms, id)
  {
    hide HasCome;
    assert Sized(y, MarksOf(y, s, id));
  }

  lemma RegisteredSet(y: StudyOptions, ms: seq<Message>, m: Message, ids: set<int>, more: set<int>)
    requires Registered(y, ms) == ids
    requires more == (if m.Drop? then ids - {m.id} else ids) + if m.Job? || InRange(y, m) then {m.id} else {}
    ensures Registered(y, ms + [m]) == more
  {
    hide Registered;
    forall id ensures id in Registered(y, ms + [m]) <==> id in more {
      RegisteredStep(y, ms, m, id);
    }
  }

  const TWO_JOBS := StudyOptions(1, 1, 2)

  function OneSent(): seq<Message> {
    [Job(0)] + [Job(1)] + [SimulationData(0, 0, 0, 1)]
  }

  lemma OneSentCome()
    ensures HasCome(OneSent(), 0, 0, 0) && !HasCome(OneSent(), 1, 0, 0)
  {
    assert IsDataFor(OneSent()[2], 0, 0, 0);
  }

  lemma OneSentRegistered()
    ensures Registered(TWO_JOBS, OneSent()) == {0, 1} && Drops(OneSent()) == 0
  {
    assert Registered(TWO_JOBS, []) == {} && Drops([]) == 0;
    hide Registered;
    hide Run;
    hide Drops;
    assert [] + [Job(0)] == [Job(0)];
    RegisteredSet(TWO_JOBS, [], Job(0), {}, {0});
    RegisteredSet(TWO_JOBS, [Job(0)], Job(1), {0}, {0, 1});
    RegisteredSet(TWO_JOBS, [Job(0)] + [Job(1)], SimulationData(0, 0, 0, 1), {0, 1}, {0, 1});
    RunAppend(TWO_JOBS, [], Job(0));
    RunAppend(TWO_JOBS, [Job(0)], Job(1));
    RunAppend(TWO_JOBS, [Job(0)] + [Job(1)], SimulationData(0, 0, 0, 1));
  }

  /** Two simulations, one of which is dropped: the server is done when all data of the other one has come. */
  lemma DropCompletes()
    ensures !IsDone(Run(TWO_JOBS, OneSent()), {}) && IsDone(Run(TWO_JOBS, OneSent() + [Drop(1)]), {})
  {
    OneSentCome();
    OneSentRegistered();
    hide OneSent;
    hide Registered;
    hide HasCome;
    hide Run;
    hide IsDone;
    hide Drops;
    RegisteredSet(TWO_JOBS, OneSent(), Drop(1), {0, 1}, {0});
    RunAppend(TWO_JOBS, OneSent(), Drop(1));
    HasComeStep(OneSent(), Drop(1), 0, 0, 0);
    DoneOnMessages(TWO_JOBS, OneSent(), {});
    DoneOnMessages(TWO_JOBS, OneSent() + [Drop(1)], {});
  }

  // ---- the object ----

  class MelissaServer {
    const y: StudyOptions
    var simulations: map<int, Marks>
    var sampleSize: int
    var pushed: seq<Report>

    ghost function Abs(): Ledger
      reads this
    {
      Ledger(simulations, sampleSize, pushed)
    }

    ghost predicate Valid()
      reads this
    {
      IsMarked(y, Abs())
    }

    constructor (study: StudyOptions)
      ensures Valid() && y == study && Abs() == Run(study, [])
    {
      y := study;
      simulations, sampleSize, pushed := map[], study.sampleSize, [];
    }

    method HandleLauncherMessage(m: Message)
      requires Valid() && !m.SimulationData?
      modifies this
      ensures Valid() && Abs() == Handle(y, old(Abs()), m)
    {
      match m
      case Job(id) =>
        if id !in simulations {
          simulations := simulations[id := NewMarks(y)];
        }
        assert simulations == old(simulations)[id := MarksOf(y, old(Abs()), id)];
      case Drop(id) =>
        simulations := simulations - {id};
        sampleSize := sampleSize - 1;
    }

    /** accepted says whether the message got past the filters and the duplicate test. */
    method HandleSimulationData(m: Message) returns (accepted: bool)
      requires Valid() && m.SimulationData?
      modifies this
      ensures Valid() && Abs() == Handle(y, old(Abs()), m)
      ensures accepted == old(Accepts(y, Abs(), m))
    {
      if !(0 <= m.timestep < y.nbTimeSteps) || !(0 <= m.field < y.nbFields) {
        return false;
      }
      if m.id !in simulations {
        simulations := simulations[m.id := NewMarks(y)];
        pushed := pushed + [Running(m.id)];
      }
      if simulations[m.id][m.field][m.timestep] {
        return false;
      }
      simulations := simulations[m.id := Mark(simulations[m.id], m.field, m.timestep)];
      var finished := SumMarks(simulations[m.id]);
      if finished {
        pushed := pushed + [Finished(m.id)];
      }
      return true;
    }

    /** Simulation.finished: the sum of all marks, field by field. */
    method SumMarks(marks: Marks) returns (finished: bool)
      ensures finished == IsFinished(y, marks)
    {
      var received := 0;
      for f := 0 to |marks|
        invariant received == CountMarks(marks[..f])
      {
        assert marks[..f + 1][..f] == marks[..f];
        for t := 0 to |marks[f]|
          invariant received == CountMarks(marks[..f]) + CountRow(marks[f][..t])
        {
          assert marks[f][..t + 1][..t] == marks[f][..t];
          if marks[f][t] {
            received := received + 1;
          }
        }
        assert marks[f][..|marks[f]|] == marks[f];
      }
      assert marks[..|marks|] == marks;
      finished := received == |marks| * y.nbTimeSteps;
    }

    /** all_done: order is the traversal order of the dictionary, crashed what the clock test says. */
    method AllDone(order: seq<int>, crashed: set<int>) returns (done: bool)
      requires Valid() && (forall i :: 0 <= i < |order| ==> order[i] in simulations)
      requires forall id :: id in simulations ==> id in order
      ensures done == IsDone(Abs(), crashed)
    {
      if |simulations| < sampleSize {
        return false;
      }
      for i := 0 to |order|
        invariant forall k :: 0 <= k < i && order[k] !in crashed ==> AllSet(simulations[order[k]])
      {
        var id := order[i];
        FinishedIsAllSet(y, simulations[id]);
        var finished := SumMarks(simulations[id]);
        if !(finished || id in crashed) {
          return false;
        }
      }
      return true;
    }
  }

  /** When the server is done and no simulation counts as crashed, every (field, time step) of every known simulation
      was accepted exactly once, and its end was reported exactly once. */
  lemma DoneMeansAcceptedOnce(y: StudyOptions, ms: seq<Message>, id: int, f: nat, t: nat)
    requires f < y.nbFields && t < y.nbTimeSteps
    requires forall q :: q in Run(y, ms).simulations ==> AllSet(Run(y, ms).simulations[q])
    requires id in Run(y, ms).simulations
    ensures AcceptedSince(y, ms, id, f, t) == 1 && FinishedSince(y, ms, id) == 1
  {
    AcceptedOnce(y, ms, id, f, t);
    FinishedOnce(y, ms, id);
  }
}
