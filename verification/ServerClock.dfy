/** When the statistics server takes a simulation for running, and when it reports it as hung, said by the events of a
    run (server/server.cxx:600-670, 734-770; server/fault_tolerance.c:104-128). */
module ServerClock {
  import opened StreamStats
  import opened ExactlyOnce
  import opened StatServer
  import opened Completion
  import opened Settling

  predicate IsDataFrom(e: Event, q: nat) {
    e.DataMessage? && e.data.simu == q
  }

  /** The last event that says anew what simulation q does: a message of it or a restart of the server. */
  predicate Decides(es: seq<Event>, q: nat, i: nat) {
    && i < |es| && (IsDataFrom(es[i], q) || es[i].CrashRestart?)
    && forall j :: i < j < |es| ==> !IsDataFrom(es[j], q) && !es[j].CrashRestart?
  }

  /** The launcher announced a job of q after event i and before event n. */
  predicate HasNewJob(es: seq<Event>, q: nat, i: nat, n: nat)
    requires n <= |es|
  {
    exists j :: i < j < n && es[j] == JobMessage(q)
  }

  /** A check later than the limit after message i, with no new job announced in between. */
  predicate GivenUp(c: Config, es: seq<Event>, q: nat, i: nat)
    requires i < |es| && es[i].DataMessage?
  {
    exists j :: i < j < |es| && es[j].TimeoutCheck? && es[i].now + c.timeoutSimu < es[j].now && !HasNewJob(es, q, i, j)
  }

  /** The status that the events after the deciding one leave. */
  ghost function StatusSince(c: Config, es: seq<Event>, q: nat, i: nat): nat
    requires Decides(es, q, i) && IsRun(c, es[..i + 1]) && q < c.o.samplingSize
    requires es[i].CrashRestart? ==> q < |es[i].agreed|
  {
    if es[i].CrashRestart? then (if es[i].agreed[q] == FINISHED then FINISHED else IDLE)
    else if Complete(c, Run(c, es[..i + 1]).streams, q) then FINISHED
    else if GivenUp(c, es, q, i) then IDLE
    else RUNNING
  }

  /** Simulation q at the end of a run whose deciding event is es[i]. */
  ghost predicate Follows(c: Config, es: seq<Event>, q: nat, i: nat, x: Simu)
    requires Decides(es, q, i) && q < c.o.samplingSize
  {
    && IsRun(c, es[..i + 1]) && (es[i].CrashRestart? ==> q < |es[i].agreed|)
    && x.status == StatusSince(c, es, q, i)
    && (x.status == RUNNING ==> x.lastMessage == es[i].now && (x.jobStatus > 0 <==> !HasNewJob(es, q, i, |es|)))
  }

  // ---- one event more ----

  lemma DecidesBefore(es: seq<Event>, q: nat, i: nat)
    requires Decides(es, q, i) && i < |es| - 1
    ensures Decides(es[..|es| - 1], q, i) && es[..|es| - 1][..i + 1] == es[..i + 1]
    ensures !IsDataFrom(es[|es| - 1], q) && !es[|es| - 1].CrashRestart?
  {
  }

  lemma JobStep(es: seq<Event>, q: nat, i: nat)
    requires es != [] && i < |es| - 1
    ensures var n := |es| - 1;
            && (HasNewJob(es, q, i, n) <==> HasNewJob(es[..n], q, i, n))
            && (HasNewJob(es, q, i, |es|) <==> HasNewJob(es[..n], q, i, n) || es[n] == JobMessage(q))
  {
    var n := |es| - 1;
    if j :| i < j < |es| && es[j] == JobMessage(q) {
      assert j < n ==> es[..n][j] == JobMessage(q);
    }
    if j :| i < j < n && es[..n][j] == JobMessage(q) {
      assert es[j] == JobMessage(q);
    }
  }

  lemma GivenUpStep(c: Config, es: seq<Event>, q: nat, i: nat)
    requires es != [] && i < |es| - 1 && es[i].DataMessage?
    ensures var n, e := |es| - 1, es[|es| - 1];
            GivenUp(c, es, q, i)
            <==> GivenUp(c, es[..n], q, i)
                 || (e.TimeoutCheck? && es[i].now + c.timeoutSimu < e.now && !HasNewJob(es[..n], q, i, n))
  {
    var n := |es| - 1;
    JobStep(es, q, i);
    forall j | i < j < n ensures HasNewJob(es, q, i, j) <==> HasNewJob(es[..n], q, i, j) {
      if HasNewJob(es, q, i, j) {
        var k :| i < k < j && es[k] == JobMessage(q);
        assert es[..n][k] == JobMessage(q);
      }
      if HasNewJob(es[..n], q, i, j) {
        var k :| i < k < j && es[..n][k] == JobMessage(q);
        assert es[k] == JobMessage(q);
      }
    }
    if GivenUp(c, es, q, i) {
      var j :| i < j < |es| && es[j].TimeoutCheck? && es[i].now + c.timeoutSimu < es[j].now && !HasNewJob(es, q, i, j);
      assert j < n ==> es[..n][j].TimeoutCheck?;
    }
    if GivenUp(c, es[..n], q, i) {
      var j :| i < j < n && es[..n][j].TimeoutCheck? && es[i].now + c.timeoutSimu < es[..n][j].now
               && !HasNewJob(es[..n], q, i, j);
      assert es[j].TimeoutCheck?;
    }
  }

  /** What one event does to the record of a simulation. */
  lemma RecordStep(c: Config, s: State, e: Event, q: nat)
    requires Shape(c, s) && Enabled(c, s, e) && q < c.o.samplingSize
    ensures var x, r := s.simus[q], Step(c, s, e);
            var y := r.simus[q];
            && (IsDataFrom(e, q) ==>
                 && y.status == (if Complete(c, r.streams, q) then FINISHED else RUNNING)
                 && y.lastMessage == e.now && y.jobStatus > 0)
            && (e.CrashRestart? ==>
                 q < |e.agreed| && y.status == if e.agreed[q] == FINISHED then FINISHED else IDLE)
            && (e == JobMessage(q) ==> y == x.(jobStatus := 0))
            && (e.TimeoutCheck? ==>
                 if x.status == RUNNING && x.jobStatus > 0 && x.lastMessage + c.timeoutSimu < e.now
                 then y.status == IDLE else y == x)
            && (!IsDataFrom(e, q) && !e.CrashRestart? && e != JobMessage(q) && !e.TimeoutCheck? ==> y == x)
  {
    if e.CrashRestart? {
      assert e.agreed[q] <= s.disc.statuses[q] <= FINISHED;
    }
  }

  /** A deciding event that has just come, and one that came earlier. */
  lemma FollowsNow(c: Config, es: seq<Event>, q: nat)
    requires IsRun(c, es) && q < c.o.samplingSize && es != [] && Decides(es, q, |es| - 1)
    ensures Follows(c, es, q, |es| - 1, Run(c, es).simus[q])
  {
    hide Step;
    hide Run;
    hide IsRun;
    hide Complete;
    hide Enabled;
    hide Shape;
    var n := |es| - 1;
    RunLast(c, es);
    RecordStep(c, Run(c, es[..n]), es[n], q);
    assert es[..n + 1] == es;
  }

  /** How the status said by the events changes with one more of them. */
  lemma StatusStep(c: Config, es: seq<Event>, q: nat, i: nat)
    requires i < |es| - 1 && Decides(es, q, i) && Decides(es[..|es| - 1], q, i) && q < c.o.samplingSize
    requires es[..|es| - 1][..i + 1] == es[..i + 1]
    requires IsRun(c, es[..i + 1]) && (es[i].CrashRestart? ==> q < |es[i].agreed|)
    ensures var before, e := es[..|es| - 1], es[|es| - 1];
            StatusSince(c, es, q, i)
            == if StatusSince(c, before, q, i) == RUNNING && e.TimeoutCheck? && es[i].now + c.timeoutSimu < e.now
                  && !HasNewJob(before, q, i, |before|)
               then IDLE else StatusSince(c, before, q, i)
  {
    hide Run;
    hide IsRun;
    hide GivenUp;
    hide HasNewJob;
    hide Complete;
    hide Shape;
    if es[i].DataMessage? {
      GivenUpStep(c, es, q, i);
    }
  }

  lemma FollowsStill(c: Config, es: seq<Event>, q: nat, i: nat)
    requires IsRun(c, es) && q < c.o.samplingSize && i < |es| - 1 && Decides(es, q, i)
    requires Decides(es[..|es| - 1], q, i)
    requires Follows(c, es[..|es| - 1], q, i, Run(c, es[..|es| - 1]).simus[q])
    ensures Follows(c, es, q, i, Run(c, es).simus[q])
  {
    hide Step;
    hide Run;
    hide IsRun;
    hide HasNewJob;
    hide Enabled;
    hide Shape;
    hide StatusSince;
    hide Decides;
    var n := |es| - 1;
    RunLast(c, es);
    DecidesBefore(es, q, i);
    RecordStep(c, Run(c, es[..n]), es[n], q);
    JobStep(es, q, i);
    StatusStep(c, es, q, i);
    DecidedByData(c, es, q, i);
  }

  lemma DecidedByData(c: Config, es: seq<Event>, q: nat, i: nat)
    requires Decides(es, q, i) && IsRun(c, es[..i + 1]) && q < c.o.samplingSize
    requires es[i].CrashRestart? ==> q < |es[i].agreed|
    ensures StatusSince(c, es, q, i) == RUNNING ==> es[i].DataMessage?
  {
  }

  /** Main result, in every run, with timeouts, checkpoints, crashes and restarts: the events say what the server takes
      a simulation for, and when it last heard of a running one. */
  lemma {:induction false} StatusFollowsEvents(c: Config, es: seq<Event>, q: nat)
    requires IsRun(c, es) && q < c.o.samplingSize
    ensures (forall i :: 0 <= i < |es| ==> !IsDataFrom(es[i], q) && !es[i].CrashRestart?) ==>
              Run(c, es).simus[q].status == IDLE
    ensures forall i :: Decides(es, q, i) ==> Follows(c, es, q, i, Run(c, es).simus[q])
  {
    if es != [] {
      var n := |es| - 1;
      hide *;
      RunLast(c, es);
      StatusFollowsEvents(c, es[..n], q);
      RecordStep(c, Run(c, es[..n]), es[n], q);
      forall i | Decides(es, q, i) ensures Follows(c, es, q, i, Run(c, es).simus[q]) {
        if i == n {
          FollowsNow(c, es, q);
        } else {
          DecidesBefore(es, q, i);
          FollowsStill(c, es, q, i);
        }
      }
    }
  }

  // ---- what a timeout check sends ----

  predicate IsLastData(es: seq<Event>, q: nat, i: nat) {
    i < |es| && IsDataFrom(es[i], q) && forall j :: i < j < |es| ==> !IsDataFrom(es[j], q)
  }

  /** The last message of q is older than the limit at time t, and the launcher has announced no job of it since. */
  ghost predicate IsSilent(c: Config, es: seq<Event>, q: nat, t: real) {
    exists i: nat :: IsLastData(es, q, i) && !HasNewJob(es, q, i, |es|) && es[i].now + c.timeoutSimu < t
  }

  /** The event that decides about q, if there is one. */
  lemma {:induction false} FindDecider(es: seq<Event>, q: nat)
    requires exists i :: 0 <= i < |es| && (IsDataFrom(es[i], q) || es[i].CrashRestart?)
    ensures exists i :: Decides(es, q, i)
  {
    var n := |es| - 1;
    if IsDataFrom(es[n], q) || es[n].CrashRestart? {
      assert Decides(es, q, n);
    } else {
      var k :| 0 <= k < |es| && (IsDataFrom(es[k], q) || es[k].CrashRestart?);
      assert es[..n][k] == es[k];
      FindDecider(es[..n], q);
      var i :| Decides(es[..n], q, i);
      assert forall j :: 0 <= j < n ==> es[..n][j] == es[j];
      assert Decides(es, q, i);
    }
  }

  /** A running simulation has sent data, after the last restart of the server; its last message is on record. */
  lemma RunningHasSent(c: Config, es: seq<Event>, q: nat) returns (i: nat)
    requires IsRun(c, es) && q < c.o.samplingSize && Run(c, es).simus[q].status == RUNNING
    ensures Decides(es, q, i) && IsLastData(es, q, i)
    ensures Run(c, es).simus[q].lastMessage == es[i].now
    ensures Run(c, es).simus[q].jobStatus > 0 <==> !HasNewJob(es, q, i, |es|)
  {
    hide Run;
    hide IsRun;
    hide Complete;
    hide GivenUp;
    hide HasNewJob;
    assert |Run(c, es).simus| == c.o.samplingSize;
    hide Shape;
    StatusFollowsEvents(c, es, q);
    FindDecider(es, q);
    i :| Decides(es, q, i);
    assert Follows(c, es, q, i, Run(c, es).simus[q]);
  }

  lemma LateIsSilent(c: Config, es: seq<Event>, q: nat, t: real)
    requires IsRun(c, es) && q < c.o.samplingSize
    ensures var x := Run(c, es).simus[q];
            x.status == RUNNING ==>
              (x.jobStatus > 0 && x.lastMessage + c.timeoutSimu < t <==> IsSilent(c, es, q, t))
  {
    hide Run;
    hide IsRun;
    hide HasNewJob;
    assert |Run(c, es).simus| == c.o.samplingSize;
    hide Shape;
    if Run(c, es).simus[q].status == RUNNING {
      var i := RunningHasSent(c, es, q);
      assert forall j :: IsLastData(es, q, j) ==> j == i;
    }
  }

  /** Main result: after any run, a timeout check at time t reports a simulation if and only if it is running and
      silent; reported simulations come once each and in order, are idle afterwards, and nobody else changes. Without
      any, and only then, the server says that it is alive. */
  lemma CheckReports(c: Config, es: seq<Event>, t: real)
    requires IsRun(c, es)
    ensures IsRun(c, es + [TimeoutCheck(t)])
    ensures var s, r := Run(c, es), Run(c, es + [TimeoutCheck(t)]);
            var sent := Sent(s, r);
            && (forall q :: 0 <= q < c.o.samplingSize ==>
                 && (Timeout(q) in sent <==> s.simus[q].status == RUNNING && IsSilent(c, es, q, t))
                 && if Timeout(q) in sent then r.simus[q].status == IDLE else r.simus[q] == s.simus[q])
            && (sent == [Alive] <==> forall q :: 0 <= q < c.o.samplingSize ==> Timeout(q) !in sent)
            && (sent != [Alive] ==>
                 && (forall n :: n in sent ==> n.Timeout? && n.simu < c.o.samplingSize)
                 && forall i, k :: 0 <= i < k < |sent| ==> sent[i].simu < sent[k].simu)
  {
    hide Step;
    hide Sent;
    hide IsSilent;
    RunAppend(c, es, TimeoutCheck(t));
    var s := Run(c, es);
    TimeoutCheckReports(c, s, t);
    hide Run;
    hide IsRun;
    forall q | 0 <= q < c.o.samplingSize
      ensures s.simus[q].status == RUNNING ==>
                (s.simus[q].jobStatus > 0 && s.simus[q].lastMessage + c.timeoutSimu < t <==> IsSilent(c, es, q, t))
    {
      LateIsSilent(c, es, q, t);
    }
  }

  /** A simulation is never reported within the limit after its last message. */
  lemma NeverTooEarly(c: Config, es: seq<Event>, t: real, q: nat, i: nat)
    requires IsRun(c, es) && q < c.o.samplingSize && IsLastData(es, q, i) && t <= es[i].now + c.timeoutSimu
    ensures IsRun(c, es + [TimeoutCheck(t)])
    ensures Timeout(q) !in Sent(Run(c, es), Run(c, es + [TimeoutCheck(t)]))
    ensures Run(c, es + [TimeoutCheck(t)]).simus[q] == Run(c, es).simus[q]
  {
    hide *;
    CheckReports(c, es, t);
    OnlyOneIsLast(c, es, t, q, i);
  }

  lemma OnlyOneIsLast(c: Config, es: seq<Event>, t: real, q: nat, i: nat)
    requires IsLastData(es, q, i) && t <= es[i].now + c.timeoutSimu
    ensures !IsSilent(c, es, q, t)
  {
  }

  // ---- the notices and the record ----

  /** What a notice says: a timeout takes a simulation back to idle. */
  function Said(n: Notice): nat {
    if n.SimuStatus? then n.status else IDLE
  }

  function LastSaid(notices: seq<Notice>, q: nat): nat {
    if notices == [] then IDLE
    else
      var n := notices[|notices| - 1];
      if IsAbout(n, q) then Said(n) else LastSaid(notices[..|notices| - 1], q)
  }

  lemma {:induction false} LastSaidAppend(notices: seq<Notice>, more: seq<Notice>, q: nat, status: nat)
    requires forall n :: n in more && IsAbout(n, q) ==> Said(n) == status
    ensures (exists n :: n in more && IsAbout(n, q)) ==> LastSaid(notices + more, q) == status
    ensures (forall n :: n in more ==> !IsAbout(n, q)) ==> LastSaid(notices + more, q) == LastSaid(notices, q)
  {
    if more == [] {
      assert notices + more == notices;
    } else {
      var n := |more| - 1;
      assert (notices + more)[..|notices + more| - 1] == notices + more[..n];
      assert more == more[..n] + [more[n]];
      LastSaidAppend(notices, more[..n], q, status);
    }
  }

  lemma CheckGrows(c: Config, s: State, now: real)
    requires Shape(c, s)
    ensures Step(c, s, TimeoutCheck(now)).outbox == s.outbox + Sent(s, Step(c, s, TimeoutCheck(now)))
    ensures |s.simus| == |Step(c, s, TimeoutCheck(now)).simus| == c.o.samplingSize
  {
  }

  lemma CheckSays(c: Config, s: State, now: real, q: nat)
    requires Shape(c, s) && q < c.o.samplingSize
    ensures |s.simus| == |Step(c, s, TimeoutCheck(now)).simus| == c.o.samplingSize
    ensures LastSaid(s.outbox, q) == s.simus[q].status ==>
              LastSaid(Step(c, s, TimeoutCheck(now)).outbox, q) == Step(c, s, TimeoutCheck(now)).simus[q].status
  {
    hide Step;
    hide Sent;
    hide Shape;
    hide LastSaid;
    hide NamesLate;
    CheckGrows(c, s, now);
    TimeoutCheckReports(c, s, now);
    SilentNotices(s.outbox, Sent(s, Step(c, s, TimeoutCheck(now))), q);
  }

  /** Timeouts, or an alive message alone. */
  lemma SilentNotices(outbox: seq<Notice>, sent: seq<Notice>, q: nat)
    requires sent == [Alive] || forall n :: n in sent ==> n.Timeout?
    ensures LastSaid(outbox + sent, q) == if Timeout(q) in sent then IDLE else LastSaid(outbox, q)
  {
    LastSaidAppend(outbox, sent, q, IDLE);
    if Timeout(q) in sent {
      assert IsAbout(Timeout(q), q);
    }
  }

  lemma RestartSays(c: Config, s: State, agreed: seq<nat>, q: nat)
    requires Shape(c, s) && Enabled(c, s, CrashRestart(agreed)) && q < c.o.samplingSize
    ensures LastSaid(Step(c, s, CrashRestart(agreed)).outbox, q)
         == Step(c, s, CrashRestart(agreed)).simus[q].status
  {
    var r := Step(c, s, CrashRestart(agreed));
    assert [] + r.outbox == r.outbox && |r.simus| == c.o.samplingSize;
    assert forall n :: n in r.outbox ==> n.SimuStatus?;
    RestartReports(c, s, agreed);
    hide Step;
    hide Shape;
    var status := r.simus[q].status;
    assert SimuStatus(q, status) in r.outbox && IsAbout(SimuStatus(q, status), q);
    LastSaidAppend([], r.outbox, q, status);
  }

  lemma StepSays(c: Config, s: State, e: Event, q: nat)
    requires Shape(c, s) && Enabled(c, s, e) && q < c.o.samplingSize && LastSaid(s.outbox, q) == s.simus[q].status
    ensures LastSaid(Step(c, s, e).outbox, q) == Step(c, s, e).simus[q].status
  {
    if e.TimeoutCheck? {
      CheckSays(c, s, e.now, q);
    } else if e.CrashRestart? {
      RestartSays(c, s, e.agreed, q);
    } else if e.DataMessage? {
      var r, m := Step(c, s, e), e.data;
      var status := r.simus[m.simu].status;
      var more := if status != s.simus[m.simu].status then [SimuStatus(m.simu, status)] else [];
      assert r.outbox == s.outbox + more && (q != m.simu ==> r.simus[q] == s.simus[q]);
      hide Step;
      LastSaidAppend(s.outbox, more, q, status);
      assert IsAbout(SimuStatus(m.simu, status), m.simu);
    }
  }

  /** Main result, in every run: the last thing the server has said about a simulation since it was started is what it
      takes it for. */
  lemma {:induction false} SaysItsStatus(c: Config, es: seq<Event>, q: nat)
    requires IsRun(c, es) && q < c.o.samplingSize
    ensures LastSaid(Run(c, es).outbox, q) == Run(c, es).simus[q].status
  {
    if es != [] {
      hide *;
      var n := |es| - 1;
      RunLast(c, es);
      SaysItsStatus(c, es[..n], q);
      StepSays(c, Run(c, es[..n]), es[n], q);
    }
  }

  // ---- both sides of the limit ----

  /** One simulation of two time steps and a limit of 100 seconds. */
  const CLOCKED := Config(Options(2, 1, 0, false, [], false), map[(0, 0) := 1], 100.0)

  function FirstStepAt(now: real): Event {
    DataMessage((0, 0), Data(0, 0, [[0.0]]), now)
  }

  /** After its first time step the simulation is running. */
  lemma FirstStepRuns(now: real)
    ensures IsRun(CLOCKED, [FirstStepAt(now)]) && Run(CLOCKED, [FirstStepAt(now)]).simus[0].status == RUNNING
  {
    var s, e := Init(CLOCKED), FirstStepAt(now);
    assert WellFormed(CLOCKED.o, 1, e.data);
    ReceivedBits(CLOCKED.o, Loaded(CLOCKED, s, e.key), e.data, 0);
    RunAppend(CLOCKED, [], e);
    assert [] + [e] == [e];
    var r := Step(CLOCKED, s, e);
    assert r.streams[e.key].received[0] == {0};
    assert 1 < CLOCKED.o.nbTimeSteps && 1 !in r.streams[e.key].received[0];
    assert !Full(CLOCKED.o, r.streams[e.key].received[0]);
  }

  /** At a check at time t it is reported exactly if more than 100 seconds have passed: a message at 1000.0 is in time
      for 1001.0, one at 0.0 for 1.0 and for 100.0, but not for 1000.0. */
  lemma ReportedAfterTheLimit(now: real, t: real)
    ensures var es := [FirstStepAt(now)];
            && IsRun(CLOCKED, es) && IsRun(CLOCKED, es + [TimeoutCheck(t)])
            && Sent(Run(CLOCKED, es), Run(CLOCKED, es + [TimeoutCheck(t)]))
               == if t > now + 100.0 then [Timeout(0)] else [Alive]
  {
    hide *;
    var es := [FirstStepAt(now)];
    FirstStepRuns(now);
    CheckReports(CLOCKED, es, t);
    OneMessage(now, t);
    OneSimulation(Sent(Run(CLOCKED, es), Run(CLOCKED, es + [TimeoutCheck(t)])));
  }

  lemma OneMessage(now: real, t: real)
    ensures IsSilent(CLOCKED, [FirstStepAt(now)], 0, t) <==> t > now + 100.0
    ensures CLOCKED.o.samplingSize == 1
  {
    assert IsLastData([FirstStepAt(now)], 0, 0);
  }

  /** Notices about the only simulation. */
  lemma OneSimulation(sent: seq<Notice>)
    requires sent == [Alive] <==> Timeout(0) !in sent
    requires sent != [Alive] ==> forall n :: n in sent ==> n.Timeout? && n.simu < 1
    requires sent != [Alive] ==> forall i, k :: 0 <= i < k < |sent| ==> sent[i].simu < sent[k].simu
    ensures sent == if Timeout(0) in sent then [Timeout(0)] else [Alive]
  {
    if sent != [Alive] {
      assert sent[0] == Timeout(0) by {
        assert sent[0] in sent;
      }
      assert sent[|sent| - 1] == Timeout(0) by {
        assert sent[|sent| - 1] in sent;
      }
    }
  }
}
