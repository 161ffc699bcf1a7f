/** The fault-tolerance protocol: the statistics server (rank 0), the first-in first-out channel of its notices, and the
    launcher's threads that share the groups (launcher/study.py, launcher/simulation.py, server/server.cxx). */
module Protocol {
  import opened Radix
  import opened StreamStats
  import opened ExactlyOnce
  import opened StatServer
  import opened Completion
  import opened Launcher

  /** The main thread between its two looks at a group. */
  datatype MainThread = Scanning | Slept(group: nat)

  datatype World = World(server: State, queue: seq<Notice>, groups: seq<Group>, launched: nat, main: MainThread)

  datatype Action =
    | ServerStep(event: Event)
    | ReadNotice
    | CheckJob(group: nat, jobStatus: int)
    | LaunchNext
    | Scan(group: nat)
    | Recheck
    | CheckTimeouts(group: nat, late: bool)
    | ServerLost(agreed: seq<nat>)

  /** Groups have batch members each; with Sobol indices the server knows groups only. */
  datatype Setup = Setup(c: Config, batch: nat, nbGroups: nat)
  {
    predicate Valid() {
      c.Valid() && batch > 0 && c.o.samplingSize == nbGroups * batch && (c.o.sobol ==> batch == 1)
    }
  }

  ghost function Start(u: Setup): World {
    World(Init(u.c), [], seq(u.nbGroups, _ => NewGroup(u.batch)), 0, Scanning)
  }

  /** Simulations send data only after their group was submitted. */
  ghost predicate Possible(u: Setup, w: World, a: Action)
    requires u.Valid() && Fits(u, w)
  {
    match a
    case ServerStep(e) => Enabled(u.c, w.server, e) && !e.CrashRestart?
                          && (e.DataMessage? ==> e.data.simu / u.batch < w.launched)
    case ReadNotice => w.queue != []
    case CheckJob(g, _) => g < u.nbGroups && IsChecked(w.groups[g])
    case LaunchNext => w.main.Scanning? && w.launched < u.nbGroups
    case Scan(g) => w.main.Scanning? && g < u.nbGroups && LooksCrashed(w.groups[g])
    case Recheck => w.main.Slept?
    case CheckTimeouts(g, _) => w.main.Scanning? && g < u.nbGroups
    case ServerLost(agreed) => w.main.Scanning? && Enabled(u.c, w.server, CrashRestart(agreed))
  }

  ghost predicate Fits(u: Setup, w: World) {
    && Shape(u.c, w.server) && |w.groups| == u.nbGroups && w.launched <= u.nbGroups
    && (w.main.Slept? ==> w.main.group < u.nbGroups)
    && AllOfSize(w.groups, u.batch)
    && (forall k :: 0 <= k < |w.queue| && !w.queue[k].Alive? ==> w.queue[k].simu < u.c.o.samplingSize)
  }

  /** Group and member of a server id. */
  function GroupOf(u: Setup, q: nat): (g: nat)
    requires u.Valid() && q < u.c.o.samplingSize
    ensures g < u.nbGroups && (u.batch == 1 ==> g == q)
  {
    assert u.batch * (q / u.batch) <= q < u.batch * u.nbGroups;
    FactorBelow(u.batch, q / u.batch, u.nbGroups);
    q / u.batch
  }

  function MemberOf(u: Setup, q: nat): (m: nat)
    requires u.Valid()
    ensures m < u.batch
  {
    q % u.batch
  }

  predicate AllOfSize(groups: seq<Group>, size: nat) {
    forall g :: 0 <= g < |groups| ==> |groups[g].simuStatus| == size
  }

  /** The messenger's reaction to one notice; an alive message is a timeout of simulation -1. */
  function Delivered(u: Setup, groups: seq<Group>, n: Notice): (r: seq<Group>)
    requires u.Valid() && |groups| == u.nbGroups && (!n.Alive? ==> n.simu < u.c.o.samplingSize)
    requires AllOfSize(groups, u.batch)
    ensures |r| == |groups| && AllOfSize(r, u.batch)
  {
    match n
    case Alive => groups
    case SimuStatus(q, status) =>
      var g := GroupOf(u, q);
      groups[g := WithStatus(groups[g], u.c.o.sobol, MemberOf(u, q), status)]
    case Timeout(q) =>
      var g := GroupOf(u, q);
      groups[g := WithTimeout(groups[g])]
  }

  /** After a server crash every active group is restarted with the new server. */
  function AllRestarted(groups: seq<Group>): (r: seq<Group>)
    ensures |r| == |groups|
    ensures forall g :: 0 <= g < |r| ==>
              r[g] == if NOT_SUBMITTED < groups[g].status < FINISHED then Restarted(groups[g]) else groups[g]
  {
    seq(|groups|, g requires 0 <= g < |groups| =>
      if NOT_SUBMITTED < groups[g].status < FINISHED then Restarted(groups[g]) else groups[g])
  }

  ghost predicate InRange(c: Config, notices: seq<Notice>) {
    forall k :: 0 <= k < |notices| && !notices[k].Alive? ==> notices[k].simu < c.o.samplingSize
  }

  /** What the notices of a step from s to r say about simulation q: a simulation whose status is settled is not
      mentioned, and the end is announced exactly when it comes, alone. */
  ghost predicate Announces(s: State, r: State, q: nat)
    requires q < |s.simus| == |r.simus|
  {
    && (s.simus[q].status == FINISHED && r.simus[q].status == FINISHED ==>
         forall n :: n in Sent(s, r) ==> !IsAbout(n, q))
    && (s.simus[q].status != FINISHED && r.simus[q].status == FINISHED ==> Sent(s, r) == [SimuStatus(q, FINISHED)])
    && (r.simus[q].status != FINISHED ==> SimuStatus(q, FINISHED) !in Sent(s, r))
    && (s.simus[q].status == IDLE == r.simus[q].status ==> forall n :: n in Sent(s, r) ==> !IsAbout(n, q))
  }

  lemma DataNotices(c: Config, s: State, k: Key, m: Data, now: real, q: nat)
    requires Shape(c, s) && Enabled(c, s, DataMessage(k, m, now)) && q < c.o.samplingSize
    ensures Announces(s, Step(c, s, DataMessage(k, m, now)), q)
  {
    var r := Step(c, s, DataMessage(k, m, now));
    var before, status := s.simus[m.simu].status, r.simus[m.simu].status;
    assert Sent(s, r) == if status != before then [SimuStatus(m.simu, status)] else [];
    assert status == FINISHED || status == RUNNING;
    assert q != m.simu ==> r.simus[q] == s.simus[q];
    hide Step;
    hide Sent;
  }

  lemma CheckNotices(c: Config, s: State, now: real, q: nat)
    requires Shape(c, s) && q < c.o.samplingSize
    ensures Announces(s, Step(c, s, TimeoutCheck(now)), q)
  {
    assert |s.simus| == |Step(c, s, TimeoutCheck(now)).simus|;
    hide Step;
    hide Shape;
    hide Sent;
    hide Timeouts;
    var r := Step(c, s, TimeoutCheck(now));
    SentByCheck(c, s, now);
    TimeoutsAreLate(c, s.simus, now, |s.simus|);
    forall n | n in Sent(s, r) ensures !n.SimuStatus? && (IsAbout(n, q) ==> TimedOut(c, s.simus[q], now)) {
    }
  }

  /** The notices of one server step. Only a message of q itself can announce its end. */
  lemma StepNotices(c: Config, s: State, e: Event, q: nat)
    requires Shape(c, s) && Enabled(c, s, e) && !e.CrashRestart? && q < c.o.samplingSize
    ensures Announces(s, Step(c, s, e), q)
    ensures s.simus[q].status != FINISHED && Step(c, s, e).simus[q].status == FINISHED ==>
              e.DataMessage? && e.data.simu == q
  {
    match e
    case DataMessage(k, m, now) =>
      DataNotices(c, s, k, m, now, q);
    case TimeoutCheck(now) =>
      CheckNotices(c, s, now, q);
    case JobMessage(_) =>
    case SaveCheckpoint(_) =>
  }

  /** A restarted server reports every simulation. */
  lemma RestartNotifies(c: Config, s: State, agreed: seq<nat>)
    requires Shape(c, s) && Enabled(c, s, CrashRestart(agreed))
    ensures InRange(c, Step(c, s, CrashRestart(agreed)).outbox)
  {
  }

  lemma InRangeConcat(c: Config, a: seq<Notice>, b: seq<Notice>)
    requires InRange(c, a) && InRange(c, b)
    ensures InRange(c, a + b)
  {
  }

  ghost function React(u: Setup, w: World, a: Action): (r: World)
    requires u.Valid() && Fits(u, w) && Possible(u, w, a)
    ensures Fits(u, r)
  {
    match a
    case ServerStep(e) =>
      var s := Step(u.c, w.server, e);
      ServerStepFits(u, w, e);
      w.(server := s, queue := w.queue + Sent(w.server, s))
    case ReadNotice => w.(groups := Delivered(u, w.groups, w.queue[0]), queue := w.queue[1..])
    case CheckJob(g, status) => w.(groups := w.groups[g := w.groups[g].(jobStatus := status)])
    case LaunchNext => w.(groups := w.groups[w.launched := Launched(w.groups[w.launched])], launched := w.launched + 1)
    case Scan(g) => w.(main := Slept(g))
    case Recheck => w.(groups := w.groups[w.main.group := Rechecked(w.groups[w.main.group])], main := Scanning)
    case CheckTimeouts(g, late) => w.(groups := w.groups[g := TimeoutsChecked(w.groups[g], late)])
    case ServerLost(agreed) =>
      var s := Step(u.c, w.server, CrashRestart(agreed));
      RestartNotifies(u.c, w.server, agreed);
      InRangeConcat(u.c, w.queue, s.outbox);
      w.(server := s, queue := w.queue + s.outbox, groups := AllRestarted(w.groups))
  }

  lemma ServerStepFits(u: Setup, w: World, e: Event)
    requires u.Valid() && Fits(u, w) && Enabled(u.c, w.server, e) && !e.CrashRestart?
    ensures InRange(u.c, w.queue + Sent(w.server, Step(u.c, w.server, e)))
  {
    NoticesInRange(u.c, w.server, e);
    InRangeConcat(u.c, w.queue, Sent(w.server, Step(u.c, w.server, e)));
  }

  lemma NoticesInRange(c: Config, s: State, e: Event)
    requires Shape(c, s) && Enabled(c, s, e) && !e.CrashRestart?
    ensures InRange(c, Sent(s, Step(c, s, e)))
  {
    if e.TimeoutCheck? {
      TimeoutsAreLate(c, s.simus, e.now, |s.simus|);
    }
  }

  // ---- runs ----

  ghost predicate Feasible(u: Setup, acts: seq<Action>)
    requires u.Valid()
    decreases |acts|, 0
  {
    acts == [] || (Feasible(u, acts[..|acts| - 1]) && Possible(u, After(u, acts[..|acts| - 1]), acts[|acts| - 1]))
  }

  ghost function After(u: Setup, acts: seq<Action>): (w: World)
    requires u.Valid() && Feasible(u, acts)
    ensures Fits(u, w)
    decreases |acts|, 1
  {
    if acts == [] then Start(u) else React(u, After(u, acts[..|acts| - 1]), acts[|acts| - 1])
  }

  // ---- submissions ----

  ghost predicate SubmissionsCounted(w: World) {
    forall g :: 0 <= g < |w.groups| ==>
      w.groups[g].submissions == (if g < w.launched then 1 else 0) + Resubmissions(w.groups[g].nbRestarts)
  }

  /** Main result: in every run, with server crashes and dropped groups, a group is submitted once when its turn comes
      and once more for each of its first three restarts; so at most four times. */
  lemma {:induction false} SubmissionsAreBounded(u: Setup, acts: seq<Action>)
    requires u.Valid() && Feasible(u, acts)
    ensures SubmissionsCounted(After(u, acts))
    ensures forall g :: 0 <= g < u.nbGroups ==> After(u, acts).groups[g].submissions <= 4
  {
    if acts != [] {
      var n := |acts| - 1;
      SubmissionsAreBounded(u, acts[..n]);
      SubmissionsStep(u, After(u, acts[..n]), acts[n]);
    }
  }

  lemma SubmissionsStep(u: Setup, w: World, a: Action)
    requires u.Valid() && Fits(u, w) && Possible(u, w, a) && SubmissionsCounted(w)
    ensures SubmissionsCounted(React(u, w, a))
  {
    hide Step;
    hide Enabled;
    hide Shape;
  }

  // ---- the end of a group ----

  /** No notice about a simulation follows the notice of its end. */
  ghost predicate LastWord(queue: seq<Notice>, q: nat) {
    forall i, j :: 0 <= i < j < |queue| && queue[i] == SimuStatus(q, FINISHED) ==> !IsAbout(queue[j], q)
  }

  ghost predicate Silent(queue: seq<Notice>, q: nat) {
    forall i :: 0 <= i < |queue| ==> !IsAbout(queue[i], q)
  }

  /** Server, channel and launcher agree on simulation q, which is its own group:
      nothing about it before its group is submitted; the launcher knows of the end, or the notice is under way. */
  ghost predicate Agreed(s: State, queue: seq<Notice>, g: Group, isLaunched: bool, q: nat)
    requires q < |s.simus|
  {
    && LastWord(queue, q)
    && (s.simus[q].status != FINISHED ==> SimuStatus(q, FINISHED) !in queue && g.status != FINISHED)
    && (s.simus[q].status == FINISHED ==> SimuStatus(q, FINISHED) in queue || g.status == FINISHED)
    && (g.status == FINISHED ==> Silent(queue, q))
    && (!isLaunched ==> s.simus[q].status == IDLE && Silent(queue, q) && g.status == NOT_SUBMITTED)
  }

  ghost predicate AllAgreed(u: Setup, w: World)
    requires u.Valid() && Fits(u, w) && u.batch == 1
  {
    forall q :: 0 <= q < u.nbGroups ==> Agreed(w.server, w.queue, w.groups[q], q < w.launched, q)
  }

  ghost predicate NoDrop(w: World) {
    forall g :: 0 <= g < |w.groups| ==> w.groups[g].nbRestarts <= 3
  }

  /** An orderly run: no server crash, one member per group, and no stream initialised behind a finished simulation. */
  ghost predicate Orderly(u: Setup, acts: seq<Action>)
    requires u.Valid() && Feasible(u, acts)
  {
    u.batch == 1
    && (acts == [] || (&& Orderly(u, acts[..|acts| - 1]) && !acts[|acts| - 1].ServerLost?
                       && (acts[|acts| - 1].ServerStep? ==>
                            Settled(u.c, After(u, acts[..|acts| - 1]).server, acts[|acts| - 1].event))))
  }

  lemma LastWordAppend(queue: seq<Notice>, more: seq<Notice>, q: nat)
    requires LastWord(queue, q)
    requires Silent(more, q) || (SimuStatus(q, FINISHED) !in queue && (SimuStatus(q, FINISHED) !in more || |more| == 1))
    ensures LastWord(queue + more, q)
  {
  }

  lemma ServerAgrees(c: Config, s: State, e: Event, queue: seq<Notice>, g: Group, isLaunched: bool, q: nat)
    requires Shape(c, s) && Enabled(c, s, e) && !e.CrashRestart? && q < c.o.samplingSize
    requires Agreed(s, queue, g, isLaunched, q)
    requires s.simus[q].status == FINISHED ==> Step(c, s, e).simus[q].status == FINISHED
    requires !isLaunched ==> Step(c, s, e).simus[q].status == IDLE
    ensures var r := Step(c, s, e); Agreed(r, queue + Sent(s, r), g, isLaunched, q)
  {
    StepNotices(c, s, e, q);
    var r := Step(c, s, e);
    hide Step;
    var more := Sent(s, r);
    assert forall n :: n in more ==> (n == SimuStatus(q, FINISHED) ==> IsAbout(n, q));
    if s.simus[q].status == FINISHED {
      assert Silent(more, q);
    }
    LastWordAppend(queue, more, q);
  }

  /** The messenger reads a notice: for the simulation it is about, and for any other one. */
  lemma ReadAgrees(s: State, queue: seq<Notice>, g: Group, isLaunched: bool, q: nat, sobol: bool)
    requires q < |s.simus| && queue != [] && |g.simuStatus| == 1 && Agreed(s, queue, g, isLaunched, q)
    ensures !IsAbout(queue[0], q) ==> Agreed(s, queue[1..], g, isLaunched, q)
    ensures queue[0].SimuStatus? && IsAbout(queue[0], q) ==>
              Agreed(s, queue[1..], WithStatus(g, sobol, 0, queue[0].status), isLaunched, q)
    ensures queue[0].Timeout? && IsAbout(queue[0], q) ==> Agreed(s, queue[1..], WithTimeout(g), isLaunched, q)
  {
    var rest := queue[1..];
    assert queue == [queue[0]] + rest;
    assert LastWord(rest, q) by {
      forall i, j | 0 <= i < j < |rest| && rest[i] == SimuStatus(q, FINISHED) ensures !IsAbout(rest[j], q) {
        assert queue[i + 1] == rest[i] && queue[j + 1] == rest[j];
      }
    }
    assert Silent(queue, q) ==> Silent(rest, q) && !IsAbout(queue[0], q) by {
      assert forall i :: 0 <= i < |rest| ==> rest[i] == queue[i + 1];
    }
    assert queue[0] == SimuStatus(q, FINISHED) ==> Silent(rest, q) by {
      assert forall i :: 0 <= i < |rest| ==> rest[i] == queue[i + 1];
    }
    assert forall n :: n in queue <==> n == queue[0] || n in rest;
    SingleMember(g, sobol, if queue[0].SimuStatus? then queue[0].status else 0);
  }

  lemma SingleMember(g: Group, sobol: bool, status: nat)
    requires |g.simuStatus| == 1
    ensures status == FINISHED ==> WithStatus(g, sobol, 0, status).status == FINISHED
    ensures status != FINISHED && g.status != FINISHED ==> WithStatus(g, sobol, 0, status).status != FINISHED
  {
    var states := g.simuStatus[0 := status];
    assert AllFinished(states) <==> states[0] == FINISHED;
  }

  /** Restarts that do not drop leave a finished group alone and finish no other. */
  lemma ChecksAgree(g: Group, late: bool)
    ensures TimeoutsChecked(g, late).nbRestarts <= 3 ==>
              && (TimeoutsChecked(g, late).status == FINISHED <==> g.status == FINISHED)
              && (g.status == NOT_SUBMITTED ==> TimeoutsChecked(g, late) == g)
    ensures Rechecked(g).nbRestarts <= 3 ==> (Rechecked(g).status == FINISHED <==> g.status == FINISHED)
  {
  }

  /** What the invariant of an orderly run says besides agreement. */
  ghost predicate Sound(u: Setup, w: World)
    requires u.Valid() && Fits(u, w)
  {
    && FinishedAreComplete(u.c, w.server) && CountIsExact(u.c, w.server)
    && (w.main.Slept? ==> w.main.group < w.launched)
  }

  lemma StepAgrees(u: Setup, w: World, a: Action)
    requires u.Valid() && Fits(u, w) && Possible(u, w, a) && u.batch == 1 && !a.ServerLost?
    requires AllAgreed(u, w) && Sound(u, w) && NoDrop(React(u, w, a))
    requires a.ServerStep? ==> Settled(u.c, w.server, a.event)
    ensures AllAgreed(u, React(u, w, a)) && Sound(u, React(u, w, a))
  {
    match a
    case ServerStep(e) =>
      StepCompletes(u.c, w.server, e);
      ServerStepAgrees(u, w, e);
    case ReadNotice =>
      ReadStepAgrees(u, w);
    case _ =>
      LauncherStepAgrees(u, w, a);
  }

  lemma ServerStepAgrees(u: Setup, w: World, e: Event)
    requires u.Valid() && Fits(u, w) && Possible(u, w, ServerStep(e)) && u.batch == 1 && AllAgreed(u, w)
    requires forall q :: 0 <= q < |w.server.simus| && w.server.simus[q].status == FINISHED ==>
               Step(u.c, w.server, e).simus[q].status == FINISHED
    ensures AllAgreed(u, React(u, w, ServerStep(e)))
  {
    var s := Step(u.c, w.server, e);
    forall q | 0 <= q < u.nbGroups
      ensures Agreed(s, w.queue + Sent(w.server, s), w.groups[q], q < w.launched, q)
    {
      assert Agreed(w.server, w.queue, w.groups[q], q < w.launched, q);
      if q >= w.launched {
        IdleStays(u.c, w.server, e, q, w.launched);
      }
      ServerAgrees(u.c, w.server, e, w.queue, w.groups[q], q < w.launched, q);
    }
  }

  lemma IdleStays(c: Config, s: State, e: Event, q: nat, launched: nat)
    requires Shape(c, s) && Enabled(c, s, e) && !e.CrashRestart? && launched <= q < c.o.samplingSize
    requires e.DataMessage? ==> e.data.simu < launched
    requires s.simus[q].status == IDLE
    ensures Step(c, s, e).simus[q].status == IDLE
  {
  }

  lemma ReadStepAgrees(u: Setup, w: World)
    requires u.Valid() && Fits(u, w) && w.queue != [] && u.batch == 1 && AllAgreed(u, w)
    ensures AllAgreed(u, React(u, w, ReadNotice))
  {
    var n, r := w.queue[0], React(u, w, ReadNotice);
    forall q | 0 <= q < u.nbGroups ensures Agreed(r.server, r.queue, r.groups[q], q < r.launched, q) {
      ReadAgrees(w.server, w.queue, w.groups[q], q < w.launched, q, u.c.o.sobol);
      hide Agreed;
      if IsAbout(n, q) {
        assert q / 1 == q && q % 1 == 0;
      } else {
        assert !n.Alive? ==> n.simu / 1 == n.simu;
      }
    }
  }

  lemma LauncherStepAgrees(u: Setup, w: World, a: Action)
    requires u.Valid() && Fits(u, w) && Possible(u, w, a) && u.batch == 1
    requires a.CheckJob? || a.LaunchNext? || a.Scan? || a.Recheck? || a.CheckTimeouts?
    requires AllAgreed(u, w) && Sound(u, w) && NoDrop(React(u, w, a))
    ensures AllAgreed(u, React(u, w, a)) && Sound(u, React(u, w, a))
  {
    var r := React(u, w, a);
    assert r.server == w.server && r.queue == w.queue;
    if a.CheckTimeouts? {
      assert r.groups[a.group].nbRestarts <= 3;
      ChecksAgree(w.groups[a.group], a.late);
    } else if a.Recheck? {
      assert r.groups[w.main.group].nbRestarts <= 3;
      ChecksAgree(w.groups[w.main.group], false);
    }
    hide Shape;
    hide FinishedAreComplete;
    hide CountIsExact;
    hide Silent;
    hide LastWord;
    forall q | 0 <= q < u.nbGroups ensures Agreed(r.server, r.queue, r.groups[q], q < r.launched, q) {
      assert Agreed(w.server, w.queue, w.groups[q], q < w.launched, q);
    }
  }

  lemma {:induction false} RestartsGrow(u: Setup, w: World, a: Action)
    requires u.Valid() && Fits(u, w) && Possible(u, w, a)
    ensures forall g :: 0 <= g < u.nbGroups ==> w.groups[g].nbRestarts <= React(u, w, a).groups[g].nbRestarts
    ensures NoDrop(React(u, w, a)) ==> NoDrop(w)
  {
    hide Step;
    hide Enabled;
    hide Shape;
  }

  lemma StartAgrees(u: Setup)
    requires u.Valid() && u.batch == 1
    ensures AllAgreed(u, Start(u)) && Sound(u, Start(u))
  {
    CountIdle(u.c, u.c.o.samplingSize);
  }

  /** In every orderly run without a dropped group, server, channel and launcher agree. */
  lemma {:induction false} RunAgrees(u: Setup, acts: seq<Action>)
    requires u.Valid() && Feasible(u, acts) && Orderly(u, acts) && NoDrop(After(u, acts))
    ensures AllAgreed(u, After(u, acts)) && Sound(u, After(u, acts))
  {
    if acts == [] {
      StartAgrees(u);
    } else {
      var n := |acts| - 1;
      var w := After(u, acts[..n]);
      assert After(u, acts) == React(u, w, acts[n]);
      RestartsGrow(u, w, acts[n]);
      hide React;
      hide AllAgreed;
      hide Sound;
      hide Possible;
      RunAgrees(u, acts[..n]);
      StepAgrees(u, w, acts[n]);
    }
  }

  /** Main result: once the launcher takes a group for finished, the server has all time steps of its simulation on
      every initialised stream, and no timeout (nor any other notice) about it is on its way. */
  lemma FinishedGroupIsComplete(u: Setup, acts: seq<Action>, q: nat)
    requires u.Valid() && Feasible(u, acts) && Orderly(u, acts) && NoDrop(After(u, acts)) && q < u.nbGroups
    requires After(u, acts).groups[q].status == FINISHED
    ensures var w := After(u, acts);
            && w.server.simus[q].status == FINISHED
            && Timeout(q) !in w.queue && Silent(w.queue, q)
            && forall k, t :: k in u.c.sizes && w.server.streams[k].Stream? && 0 <= t < u.c.o.nbTimeSteps ==>
                 t in w.server.streams[k].received[q]
  {
    RunAgrees(u, acts);
    var w := After(u, acts);
    assert Agreed(w.server, w.queue, w.groups[q], q < w.launched, q);
    assert Complete(u.c, w.server.streams, q);
    forall k, t | k in u.c.sizes && w.server.streams[k].Stream? && 0 <= t < u.c.o.nbTimeSteps
      ensures t in w.server.streams[k].received[q]
    {
      assert Full(u.c.o, w.server.streams[k].received[q]);
    }
  }

  /** Main result: it stays finished, whatever happens later in the orderly run. */
  lemma {:induction false} FinishedIsFinal(u: Setup, acts: seq<Action>, more: seq<Action>, q: nat)
    requires u.Valid() && Feasible(u, acts + more) && Orderly(u, acts + more) && NoDrop(After(u, acts + more))
    requires Feasible(u, acts) && q < u.nbGroups && After(u, acts).groups[q].status == FINISHED
    ensures After(u, acts + more).groups[q].status == FINISHED
    decreases |more|
  {
    hide Feasible;
    hide Orderly;
    hide After;
    hide React;
    hide Possible;
    hide Fits;
    hide AllAgreed;
    hide Sound;
    hide NoDrop;
    if more == [] {
      assert acts + more == acts;
    } else {
      var n := |more| - 1;
      LastAction(u, acts, more);
      var w := After(u, acts + more[..n]);
      RestartsGrow(u, w, more[n]);
      FinishedIsFinal(u, acts, more[..n], q);
      RunAgrees(u, acts + more[..n]);
      FinishedKept(u, w, more[n], q);
    }
  }

  lemma LastStep(u: Setup, acts: seq<Action>)
    requires u.Valid() && Feasible(u, acts) && acts != []
    ensures var n := |acts| - 1;
            && Feasible(u, acts[..n]) && Possible(u, After(u, acts[..n]), acts[n])
            && After(u, acts) == React(u, After(u, acts[..n]), acts[n])
  {
    hide React;
    hide Possible;
    hide Fits;
  }

  lemma OneMoreAction(u: Setup, acts: seq<Action>, more: seq<Action>)
    requires u.Valid() && Feasible(u, acts + more) && more != []
    ensures var n := |more| - 1;
            && Feasible(u, acts + more[..n]) && Possible(u, After(u, acts + more[..n]), more[n])
            && After(u, acts + more) == React(u, After(u, acts + more[..n]), more[n])
  {
    hide *;
    assert (acts + more)[..|acts + more| - 1] == acts + more[..|more| - 1];
    LastStep(u, acts + more);
  }

  lemma LastAction(u: Setup, acts: seq<Action>, more: seq<Action>)
    requires u.Valid() && Feasible(u, acts + more) && Orderly(u, acts + more) && more != []
    ensures var n := |more| - 1;
            && u.batch == 1 && Feasible(u, acts + more[..n]) && Orderly(u, acts + more[..n])
            && !more[n].ServerLost? && Possible(u, After(u, acts + more[..n]), more[n])
            && After(u, acts + more) == React(u, After(u, acts + more[..n]), more[n])
  {
    hide React;
    hide Possible;
    hide After;
    hide Fits;
    hide Feasible;
    assert (acts + more)[..|acts + more| - 1] == acts + more[..|more| - 1];
    OneMoreAction(u, acts, more);
  }

  lemma FinishedKept(u: Setup, w: World, a: Action, q: nat)
    requires u.Valid() && Fits(u, w) && Possible(u, w, a) && u.batch == 1 && !a.ServerLost?
    requires AllAgreed(u, w) && NoDrop(React(u, w, a)) && q < u.nbGroups && w.groups[q].status == FINISHED
    ensures React(u, w, a).groups[q].status == FINISHED
  {
    assert Agreed(w.server, w.queue, w.groups[q], q < w.launched, q);
    if a.ReadNotice? {
      assert !IsAbout(w.queue[0], q);
      assert !w.queue[0].Alive? ==> w.queue[0].simu / 1 == w.queue[0].simu;
    }
  }

  /** When the server has left its main loop and everything it sent is read, every group is already finished. */
  lemma StopFindsAllFinished(u: Setup, acts: seq<Action>)
    requires u.Valid() && Feasible(u, acts) && Orderly(u, acts) && NoDrop(After(u, acts))
    requires ExitTest(u.c, After(u, acts).server) && After(u, acts).queue == []
    ensures forall q :: 0 <= q < u.nbGroups ==> After(u, acts).groups[q].status == FINISHED
  {
    RunAgrees(u, acts);
    var w := After(u, acts);
    CountBound(Statuses(w.server.simus));
    forall q | 0 <= q < u.nbGroups ensures w.groups[q].status == FINISHED {
      assert Statuses(w.server.simus)[q] == FINISHED;
      assert Agreed(w.server, w.queue, w.groups[q], q < w.launched, q);
    }
  }

  // ---- where the hypotheses are needed ----

  /** The actions that take a group out of FINISHED: a timeout of a member is read, whoever marked the group finished; a
      status is read and the group is a Sobol group; or it is launched for the first time. */
  ghost predicate Reopens(u: Setup, w: World, a: Action, g: nat)
    requires u.Valid() && Fits(u, w) && Possible(u, w, a)
  {
    match a
    case ReadNotice =>
      var n := w.queue[0];
      || (n.Timeout? && GroupOf(u, n.simu) == g)
      || (u.c.o.sobol && n.SimuStatus? && GroupOf(u, n.simu) == g && n.status != FINISHED)
    case LaunchNext => w.launched == g
    case _ => false
  }

  /** In every state of every run, with drops and server crashes and any group size: FINISHED is left exactly by these
      actions, and nothing else submits the group again. */
  lemma FinishedIsLeft(u: Setup, w: World, a: Action, g: nat)
    requires u.Valid() && Fits(u, w) && Possible(u, w, a) && g < u.nbGroups && w.groups[g].status == FINISHED
    ensures React(u, w, a).groups[g].status != FINISHED <==> Reopens(u, w, a, g)
    ensures !Reopens(u, w, a, g) ==> React(u, w, a).groups[g].submissions == w.groups[g].submissions
  {
    hide Step;
    hide Enabled;
    hide Shape;
  }

  /** Some of the actions after acts reopens group g. */
  ghost predicate NeverReopened(u: Setup, acts: seq<Action>, more: seq<Action>, g: nat)
    requires u.Valid() && Feasible(u, acts)
    decreases |more|
  {
    more == []
    || (&& NeverReopened(u, acts, more[..|more| - 1], g) && Feasible(u, acts + more[..|more| - 1])
        && Possible(u, After(u, acts + more[..|more| - 1]), more[|more| - 1])
        && !Reopens(u, After(u, acts + more[..|more| - 1]), more[|more| - 1], g))
  }

  /** Main result, for all runs: a group stays FINISHED, and is not submitted again, as long as none of these actions
      comes; FinishedIsLeft says that the first one ends it. */
  lemma {:induction false} FinishedStays(u: Setup, acts: seq<Action>, more: seq<Action>, g: nat)
    requires u.Valid() && Feasible(u, acts) && Feasible(u, acts + more) && g < u.nbGroups
    requires After(u, acts).groups[g].status == FINISHED && NeverReopened(u, acts, more, g)
    ensures After(u, acts + more).groups[g].status == FINISHED
    ensures After(u, acts + more).groups[g].submissions == After(u, acts).groups[g].submissions
    decreases |more|
  {
    hide Feasible;
    hide After;
    hide React;
    hide Possible;
    hide Fits;
    hide Reopens;
    if more == [] {
      assert acts + more == acts;
    } else {
      var n := |more| - 1;
      OneMoreAction(u, acts, more);
      FinishedStays(u, acts, more[..n], g);
      FinishedIsLeft(u, After(u, acts + more[..n]), more[n], g);
    }
  }

  // ---- a server crash ----

  /** What a crash of the server does to a group that the launcher has as finished, where they agreed before (as they do
      after every orderly run): the launcher keeps it, and the new server has its simulation as finished too if and only
      if the ranks' checkpoints agree on it. Otherwise the new server starts it over and says so; no timeout of it is
      queued. */
  lemma CrashForgets(u: Setup, w: World, agreed: seq<nat>, q: nat)
    requires u.Valid() && Fits(u, w) && Possible(u, w, ServerLost(agreed)) && u.batch == 1 && q < u.nbGroups
    requires AllAgreed(u, w) && w.groups[q].status == FINISHED
    ensures var r := React(u, w, ServerLost(agreed));
            && w.server.simus[q].status == FINISHED && r.groups[q].status == FINISHED
            && (r.server.simus[q].status == FINISHED <==> agreed[q] == FINISHED)
            && (agreed[q] != FINISHED ==> r.server.simus[q].status == IDLE && SimuStatus(q, IDLE) in r.queue)
            && Timeout(q) !in r.queue
  {
    assert Agreed(w.server, w.queue, w.groups[q], q < w.launched, q);
    var s := Step(u.c, w.server, CrashRestart(agreed));
    assert s.simus[q].status <= FINISHED;
    RestartReports(u.c, w.server, agreed);
    CrashSendsNoTimeout(u.c, w.server, agreed);
    assert React(u, w, ServerLost(agreed)).queue == w.queue + s.outbox;
    hide Step;
    hide Shape;
    assert forall k :: 0 <= k < |w.queue| ==> !IsAbout(w.queue[k], q);
    assert SimuStatus(q, s.simus[q].status) in s.outbox;
  }

  lemma CrashSendsNoTimeout(c: Config, s: State, agreed: seq<nat>)
    requires Shape(c, s) && Enabled(c, s, CrashRestart(agreed))
    ensures forall n :: n in Step(c, s, CrashRestart(agreed)).outbox ==> !n.Timeout?
  {
  }

  /** The launcher has group q as finished, the server has not heard of its simulation. */
  ghost predicate Forgotten(u: Setup, w: World, q: nat)
    requires u.Valid() && Fits(u, w) && u.batch == 1
  {
    && !u.c.o.sobol && q < w.launched && w.groups[q].status == FINISHED
    && w.server.simus[q].status == IDLE && Timeout(q) !in w.queue
  }

  ghost predicate IsDataOf(a: Action, q: nat) {
    a.ServerStep? && a.event.DataMessage? && a.event.data.simu == q
  }

  /** Nobody but the simulation itself, or one more crash, gets the two together again: the launcher does not submit the
      group, and the server, which sees it idle, never reports a timeout. */
  lemma ForgottenStays(u: Setup, w: World, a: Action, q: nat)
    requires u.Valid() && Fits(u, w) && Possible(u, w, a) && u.batch == 1 && Forgotten(u, w, q)
    requires !IsDataOf(a, q) && !a.ServerLost?
    ensures Forgotten(u, React(u, w, a), q)
    ensures React(u, w, a).groups[q].submissions == w.groups[q].submissions
  {
    FinishedIsLeft(u, w, a, q);
    var r := React(u, w, a);
    match a
    case ServerStep(e) =>
      StepNotices(u.c, w.server, e, q);
      IdleUnlessData(u.c, w.server, e, q);
      assert r.queue == w.queue + Sent(w.server, r.server);
      hide Step;
      assert forall n :: n in Sent(w.server, r.server) ==> !IsAbout(n, q);
    case ReadNotice =>
      assert w.queue[0] in w.queue;
      assert forall n :: n in w.queue[1..] ==> n in w.queue;
    case _ =>
  }

  /** Main result: so it stays in every continuation without a message of the simulation and without another crash. */
  lemma {:induction false} ForgottenForever(u: Setup, acts: seq<Action>, more: seq<Action>, q: nat)
    requires u.Valid() && u.batch == 1 && Feasible(u, acts) && Feasible(u, acts + more)
    requires Forgotten(u, After(u, acts), q)
    requires forall i :: 0 <= i < |more| ==> !IsDataOf(more[i], q) && !more[i].ServerLost?
    ensures Forgotten(u, After(u, acts + more), q)
    ensures After(u, acts + more).groups[q].submissions == After(u, acts).groups[q].submissions
    decreases |more|
  {
    hide Feasible;
    hide After;
    hide React;
    hide Possible;
    hide Fits;
    if more == [] {
      assert acts + more == acts;
    } else {
      var n := |more| - 1;
      OneMoreAction(u, acts, more);
      ForgottenForever(u, acts, more[..n], q);
      ForgottenStays(u, After(u, acts + more[..n]), more[n], q);
    }
  }

  lemma IdleUnlessData(c: Config, s: State, e: Event, q: nat)
    requires Shape(c, s) && Enabled(c, s, e) && !e.CrashRestart? && q < c.o.samplingSize
    requires s.simus[q].status == IDLE && !(e.DataMessage? && e.data.simu == q)
    ensures Step(c, s, e).simus[q].status == IDLE
  {
  }

  const PAIR := Setup(Config(Options(1, 2, 0, false, [], false), map[(0, 0) := 1], 100.0), 2, 1)

  function FirstMember(): Event {
    DataMessage((0, 0), Data(0, 0, [[0.0]]), 0.0)
  }

  lemma FirstMemberFinishes(s: State)
    requires Shape(PAIR.c, s) && s == Init(PAIR.c)
    ensures Enabled(PAIR.c, s, FirstMember())
    ensures var r := Step(PAIR.c, s, FirstMember());
            && r.outbox == [SimuStatus(0, FINISHED)] && r.simus[1].status == IDLE
            && r.streams[(0, 0)].Stream? && r.streams[(0, 0)].received[1] == {}
  {
    var c, k, m := PAIR.c, (0, 0), FirstMember().data;
    assert WellFormed(c.o, 1, m);
    var loaded := Loaded(c, s, k);
    ReceivedBits(c.o, loaded, m, 0);
    ReceivedBits(c.o, loaded, m, 1);
    var streams := Step(c, s, FirstMember()).streams;
    assert streams[k].received[0] == {0};
    assert Complete(c, streams, 0);
  }

  lemma AppendAction(u: Setup, acts: seq<Action>, a: Action)
    requires u.Valid() && Feasible(u, acts) && Possible(u, After(u, acts), a)
    ensures Feasible(u, acts + [a]) && After(u, acts + [a]) == React(u, After(u, acts), a)
  {
    hide React;
    hide Possible;
    assert (acts + [a])[..|acts|] == acts;
  }

  lemma EmptyIsFeasible(u: Setup)
    requires u.Valid()
    ensures Feasible(u, []) && After(u, []) == Start(u)
  {
  }

  /** Two members in a group: the launcher takes the group for finished when the first one ends, although nothing of
      the second one has arrived. */
  lemma PairFinishesEarly(acts: seq<Action>)
    requires acts == [LaunchNext, ServerStep(FirstMember()), ReadNotice]
    ensures PAIR.Valid() && Feasible(PAIR, acts)
    ensures var w := After(PAIR, acts);
            && w.groups[0].status == FINISHED && w.server.simus[1].status == IDLE
            && w.server.streams[(0, 0)].Stream? && w.server.streams[(0, 0)].received[1] == {}
  {
    var u := PAIR;
    hide Feasible;
    hide After;
    hide Step;
    hide Enabled;
    hide Shape;
    EmptyIsFeasible(u);
    FirstMemberFinishes(Start(u).server);
    AppendAction(u, [], LaunchNext);
    var w1 := After(u, [] + [LaunchNext]);
    AppendAction(u, [] + [LaunchNext], acts[1]);
    var w2 := After(u, [] + [LaunchNext] + [acts[1]]);
    assert w2.queue == [SimuStatus(0, FINISHED)];
    AppendAction(u, [] + [LaunchNext] + [acts[1]], ReadNotice);
    assert [] + [LaunchNext] + [acts[1]] + [ReadNotice] == acts;
  }

  // ---- a run that is stuck ----

  const SINGLE := Setup(Config(Options(2, 1, 0, false, [], false), map[(0, 0) := 1], 100.0), 1, 1)

  function OnlySimu(time: nat): Event {
    DataMessage((0, 0), Data(time, 0, [[0.0]]), 0.0)
  }

  /** Bits and status of the one simulation on the one stream, and its saved status. */
  ghost predicate SingleAt(s: State, bits: set<nat>, status: nat, saved: seq<nat>) {
    && Shape(SINGLE.c, s) && !s.restarted && s.simus[0].status == status
    && (if bits == {} then s.streams[(0, 0)].NoStream?
        else s.streams[(0, 0)].Stream? && s.streams[(0, 0)].received[0] == bits)
    && (if saved == [] then s.disc.NoDisc? else s.disc.Disc? && s.disc.statuses == saved)
  }

  lemma SingleMessage(s: State, bits: set<nat>, status: nat, saved: seq<nat>, time: nat)
    requires SingleAt(s, bits, status, saved) && time < 2
    ensures Enabled(SINGLE.c, s, OnlySimu(time))
    ensures var r := Step(SINGLE.c, s, OnlySimu(time));
            var next := if 0 in bits + {time} && 1 in bits + {time} then FINISHED else RUNNING;
            && SingleAt(r, bits + {time}, next, saved)
            && Sent(s, r) == if next != status then [SimuStatus(0, next)] else []
  {
    var c, k, m := SINGLE.c, (0, 0), OnlySimu(time).data;
    assert WellFormed(c.o, 1, m);
    ReceivedBits(c.o, Loaded(c, s, k), m, 0);
    var r := Step(c, s, OnlySimu(time));
    assert r.streams[k].received[0] == bits + {time};
    assert r.simus[0].status == CheckSimuState(c, r.streams, 0);
    if 0 in bits + {time} && 1 in bits + {time} {
      assert Complete(c, r.streams, 0);
    } else {
      assert !Full(c.o, r.streams[k].received[0]);
    }
  }

  lemma SingleSave(s: State, bits: set<nat>, status: nat, saved: seq<nat>)
    requires SingleAt(s, bits, status, saved) && bits != {}
    ensures Enabled(SINGLE.c, s, SaveCheckpoint(false))
    ensures var r := Step(SINGLE.c, s, SaveCheckpoint(false));
            SingleAt(r, bits, status, [status]) && Sent(s, r) == []
  {
    assert s.streams[(0, 0)].Stream?;
  }

  lemma SingleCrash(s: State, bits: set<nat>, status: nat)
    requires SingleAt(s, bits, status, [RUNNING])
    ensures Enabled(SINGLE.c, s, CrashRestart([RUNNING]))
    ensures var r := Step(SINGLE.c, s, CrashRestart([RUNNING]));
            r.simus[0].status == IDLE && r.outbox == [SimuStatus(0, IDLE)] && r.streams[(0, 0)].NoStream?
  {
  }

  /** World of the run below while the server has not crashed. */
  ghost predicate SingleWorld(acts: seq<Action>, bits: set<nat>, status: nat, saved: seq<nat>, queue: seq<Notice>,
                              group: int)
  {
    && Feasible(SINGLE, acts)
    && var w := After(SINGLE, acts);
       && SingleAt(w.server, bits, status, saved) && w.queue == queue && w.main.Scanning? && w.launched == 1
       && w.groups[0].status == group && w.groups[0].submissions == 1
  }

  lemma SingleStart()
    ensures SINGLE.Valid() && SingleWorld([LaunchNext], {}, IDLE, [], [], WAITING)
  {
    EmptyIsFeasible(SINGLE);
    AppendAction(SINGLE, [], LaunchNext);
    assert [] + [LaunchNext] == [LaunchNext];
    assert SingleAt(Start(SINGLE).server, {}, IDLE, []);
  }

  lemma SingleServerStep(acts: seq<Action>, bits: set<nat>, status: nat, saved: seq<nat>, queue: seq<Notice>,
                         group: int, e: Event, newBits: set<nat>, newStatus: nat, newSaved: seq<nat>)
    requires SingleWorld(acts, bits, status, saved, queue, group) && !e.CrashRestart?
    requires var s := After(SINGLE, acts).server;
             && Enabled(SINGLE.c, s, e) && SingleAt(Step(SINGLE.c, s, e), newBits, newStatus, newSaved)
             && Sent(s, Step(SINGLE.c, s, e)) == if newStatus != status then [SimuStatus(0, newStatus)] else []
    requires e.DataMessage? ==> e.data.simu == 0
    ensures SingleWorld(acts + [ServerStep(e)], newBits, newStatus, newSaved,
                        queue + (if newStatus != status then [SimuStatus(0, newStatus)] else []), group)
  {
    hide Step;
    hide Enabled;
    hide SingleAt;
    AppendAction(SINGLE, acts, ServerStep(e));
  }

  lemma SingleRead(acts: seq<Action>, bits: set<nat>, status: nat, saved: seq<nat>, queue: seq<Notice>, group: int,
                   said: nat)
    requires SingleWorld(acts, bits, status, saved, [SimuStatus(0, said)] + queue, group) && group < FINISHED
    ensures SingleWorld(acts + [ReadNotice], bits, status, saved, queue, said)
  {
    hide SingleAt;
    AppendAction(SINGLE, acts, ReadNotice);
    assert ([SimuStatus(0, said)] + queue)[1..] == queue;
    SingleMember(After(SINGLE, acts).groups[0], false, said);
    SingleMemberStatus(After(SINGLE, acts).groups[0], said);
  }

  lemma SingleMemberStatus(g: Group, status: nat)
    requires |g.simuStatus| == 1 && g.status < FINISHED
    ensures WithStatus(g, false, 0, status).status == status
  {
    assert AllFinished(g.simuStatus[0 := status]) <==> status == FINISHED by {
      assert g.simuStatus[0 := status][0] == status;
    }
  }

  lemma SingleHears(acts: seq<Action>, bits: set<nat>, status: nat, saved: seq<nat>, queue: seq<Notice>, group: int,
                    time: nat, newBits: set<nat>, newStatus: nat)
    requires SingleWorld(acts, bits, status, saved, queue, group) && time < 2 && newBits == bits + {time}
    requires newStatus != status && newStatus == if 0 in newBits && 1 in newBits then FINISHED else RUNNING
    ensures SingleWorld(acts + [ServerStep(OnlySimu(time))], newBits, newStatus, saved,
                        queue + [SimuStatus(0, newStatus)], group)
  {
    SingleMessage(After(SINGLE, acts).server, bits, status, saved, time);
    assert OnlySimu(time).data.simu == 0;
    hide SingleAt;
    hide Step;
    SingleServerStep(acts, bits, status, saved, queue, group, OnlySimu(time), newBits, newStatus, saved);
  }

  lemma SingleSaves(acts: seq<Action>, bits: set<nat>, status: nat, saved: seq<nat>, queue: seq<Notice>, group: int)
    requires SingleWorld(acts, bits, status, saved, queue, group) && bits != {}
    ensures SingleWorld(acts + [ServerStep(SaveCheckpoint(false))], bits, status, [status], queue, group)
  {
    SingleSave(After(SINGLE, acts).server, bits, status, saved);
    hide SingleAt;
    hide Step;
    SingleServerStep(acts, bits, status, saved, queue, group, SaveCheckpoint(false), bits, status, [status]);
    assert queue + [] == queue;
  }

  /** A message, a checkpoint, the last message, both notices read. */
  function BeforeTheCrash(): seq<Action> {
    [LaunchNext] + [ServerStep(OnlySimu(0))] + [ServerStep(SaveCheckpoint(false))] + [ServerStep(OnlySimu(1))]
    + [ReadNotice] + [ReadNotice]
  }

  lemma FinishedBeforeTheCrash()
    ensures SINGLE.Valid() && SingleWorld(BeforeTheCrash(), {0, 1}, FINISHED, [RUNNING], [], FINISHED)
  {
    hide SingleWorld;
    hide OnlySimu;
    var first, last := SimuStatus(0, RUNNING), SimuStatus(0, FINISHED);
    var none: set<nat>, one: set<nat>, both: set<nat> := {}, {0}, {0, 1};
    assert one == none + {0} && both == one + {1};
    SingleStart();
    var a0 := [LaunchNext];
    SingleHears(a0, none, IDLE, [], [], WAITING, 0, one, RUNNING);
    var a1 := a0 + [ServerStep(OnlySimu(0))];
    assert [] + [first] == [first];
    SingleSaves(a1, one, RUNNING, [], [first], WAITING);
    var a2 := a1 + [ServerStep(SaveCheckpoint(false))];
    SingleHears(a2, one, RUNNING, [RUNNING], [first], WAITING, 1, both, FINISHED);
    var a3 := a2 + [ServerStep(OnlySimu(1))];
    SingleRead(a3, both, FINISHED, [RUNNING], [last], WAITING, RUNNING);
    assert [last] == [last] + [];
    SingleRead(a3 + [ReadNotice], both, FINISHED, [RUNNING], [], RUNNING, FINISHED);
  }

  lemma ReadLeaves(u: Setup, w: World)
    requires u.Valid() && Fits(u, w) && w.queue != []
    ensures var r := React(u, w, ReadNotice);
            r.server == w.server && r.queue == w.queue[1..] && r.launched == w.launched
  {
  }

  /** The crash: a new server that says the simulation is idle, and a launcher that keeps the group. */
  ghost predicate Crashed(acts: seq<Action>, queue: seq<Notice>) {
    && Feasible(SINGLE, acts)
    && var w := After(SINGLE, acts);
       && w.server.simus[0].status == IDLE && w.server.streams[(0, 0)].NoStream? && w.queue == queue
       && w.groups[0].status == FINISHED && w.launched == 1
  }

  lemma SingleCrashes(acts: seq<Action>)
    requires SingleWorld(acts, {0, 1}, FINISHED, [RUNNING], [], FINISHED)
    ensures Crashed(acts + [ServerLost([RUNNING])], [SimuStatus(0, IDLE)])
  {
    hide SingleAt;
    hide Step;
    hide Enabled;
    hide Shape;
    SingleCrash(After(SINGLE, acts).server, {0, 1}, FINISHED);
    AppendAction(SINGLE, acts, ServerLost([RUNNING]));
    assert [] + [SimuStatus(0, IDLE)] == [SimuStatus(0, IDLE)];
  }

  lemma CrashIsRead(acts: seq<Action>)
    requires Crashed(acts, [SimuStatus(0, IDLE)])
    ensures Crashed(acts + [ReadNotice], [])
  {
    AppendAction(SINGLE, acts, ReadNotice);
    ReadLeaves(SINGLE, After(SINGLE, acts));
    FinishedIsLeft(SINGLE, After(SINGLE, acts), ReadNotice, 0);
    hide React;
    hide Shape;
  }

  /** Main result, a study that hangs: the simulation finishes after the last checkpoint, the launcher reads that, and
      the server crashes. The new server has nothing of it and waits; the launcher takes the group for finished even
      after it has read the new server's report, and (ForgottenForever) never submits it again. */
  lemma FinishedIsForgotten(acts: seq<Action>)
    requires acts == BeforeTheCrash() + [ServerLost([RUNNING])] + [ReadNotice]
    ensures SINGLE.Valid() && Feasible(SINGLE, acts)
    ensures var w := After(SINGLE, acts);
            Forgotten(SINGLE, w, 0) && w.queue == [] && w.server.streams[(0, 0)].NoStream?
  {
    FinishedBeforeTheCrash();
    hide BeforeTheCrash;
    hide SingleWorld;
    hide Feasible;
    hide After;
    SingleCrashes(BeforeTheCrash());
    CrashIsRead(BeforeTheCrash() + [ServerLost([RUNNING])]);
  }
}
