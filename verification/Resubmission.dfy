/** When the launcher submits a group, restarts it or drops it, said by its statuses and counters alone
    (launcher/study.py:128-148, 860-960). */
module Resubmission {
  import opened Radix
  import opened StatServer
  import opened Completion
  import opened Launcher
  import opened Protocol

  /** The launcher waits for the group: it was submitted and is neither finished nor timed out. */
  predicate IsActive(x: Group) {
    NOT_SUBMITTED < x.status < FINISHED
  }

  /** Action a finds a reason to start group g once more. */
  ghost predicate IsRetried(u: Setup, w: World, a: Action, g: nat)
    requires u.Valid() && Fits(u, w) && Possible(u, w, a) && g < u.nbGroups
  {
    var x := w.groups[g];
    match a
    case Recheck => w.main.group == g && x.status <= RUNNING
    case CheckTimeouts(h, late) =>
      h == g && (x.status == TIMEOUT || (x.status == WAITING && x.jobStatus == RUNNING && late))
    case ServerLost(_) => IsActive(x)
    case _ => false
  }

  /** A group that is started once more: the first three times it is submitted, afterwards it is given up. */
  predicate IsStartedAgain(x: Group, y: Group) {
    && y.nbRestarts == x.nbRestarts + 1 && y.simuStatus == x.simuStatus
    && if x.nbRestarts < 3
       then y.submissions == x.submissions + 1 && y.status == WAITING && y.jobStatus == PENDING
       else y.submissions == x.submissions && y.status == FINISHED && y.jobStatus == FINISHED
  }

  /** Main result, in every state of every run: a group is started once more exactly by these actions, submitted for the
      first time in its turn, changes its job's state only by what the scheduler says, and its status only by what the
      messenger reads. */
  lemma ActionOnGroup(u: Setup, w: World, a: Action, g: nat)
    requires u.Valid() && Fits(u, w) && Possible(u, w, a) && g < u.nbGroups
    ensures var x, y := w.groups[g], React(u, w, a).groups[g];
            var isFirst := a.LaunchNext? && w.launched == g;
            && (IsRetried(u, w, a, g) ==> IsStartedAgain(x, y))
            && (isFirst ==> y == x.(status := WAITING, jobStatus := PENDING, submissions := x.submissions + 1))
            && (a.CheckJob? && a.group == g ==> y == x.(jobStatus := a.jobStatus))
            && (!IsRetried(u, w, a, g) && !isFirst && !(a.CheckJob? && a.group == g) && !a.ReadNotice? ==> y == x)
            && (a.ReadNotice? ==>
                 y.nbRestarts == x.nbRestarts && y.submissions == x.submissions && y.jobStatus == x.jobStatus)
  {
    hide Step;
    hide Enabled;
    hide Shape;
  }

  /** The exact condition under which a group is submitted. */
  lemma SubmittedExactly(u: Setup, w: World, a: Action, g: nat)
    requires u.Valid() && Fits(u, w) && Possible(u, w, a) && g < u.nbGroups
    ensures var x, y := w.groups[g], React(u, w, a).groups[g];
            && (y.submissions == x.submissions + 1
                <==> (a.LaunchNext? && w.launched == g) || (IsRetried(u, w, a, g) && x.nbRestarts < 3))
            && (y.submissions == x.submissions || y.submissions == x.submissions + 1)
            && (y.submissions == x.submissions + 1 ==> y.status == WAITING && y.jobStatus == PENDING)
            && y.nbRestarts == x.nbRestarts + if IsRetried(u, w, a, g) then 1 else 0
  {
    hide React;
    hide Possible;
    hide Fits;
    ActionOnGroup(u, w, a, g);
  }

  // ---- what the messenger reads ----

  /** A notice is about the group its id divided by the group size gives, and about the member that the remainder gives.
      A timeout of a member times the group out. A status is that of a Sobol group; otherwise it is kept for the member,
      finishes the group if all members have finished, and else counts for the group unless it is finished or timed
      out. All other groups and the rest of the group stay, and the notice is taken from the queue. */
  lemma NoticeOnGroup(u: Setup, w: World, g: nat)
    requires u.Valid() && Fits(u, w) && w.queue != [] && g < u.nbGroups
    ensures var n, r := w.queue[0], React(u, w, ReadNotice);
            var x, y := w.groups[g], r.groups[g];
            && r.queue == w.queue[1..] && r.server == w.server && r.launched == w.launched && r.main == w.main
            && (n.Alive? || n.simu / u.batch != g ==> y == x)
            && (n.Timeout? && n.simu / u.batch == g ==> y == x.(status := TIMEOUT))
            && (n.SimuStatus? && n.simu / u.batch == g && u.c.o.sobol ==> y == x.(status := n.status))
            && (n.SimuStatus? && n.simu / u.batch == g && !u.c.o.sobol ==>
                 var states := x.simuStatus[n.simu % u.batch := n.status];
                 y == x.(simuStatus := states,
                         status := if forall m :: 0 <= m < u.batch ==> states[m] == 2 then 2
                                   else if x.status < 2 then n.status else x.status))
  {
  }

  // ---- a server crash ----

  /** Main result: after a crash of the server every group that was active has been started again or given up, all other
      groups are as they were, and so no group is active on its old submission. */
  lemma CrashOnGroups(u: Setup, acts: seq<Action>, agreed: seq<nat>)
    requires u.Valid() && Feasible(u, acts) && Possible(u, After(u, acts), ServerLost(agreed))
    ensures Feasible(u, acts + [ServerLost(agreed)])
    ensures forall g :: 0 <= g < u.nbGroups ==>
              var x, y := After(u, acts).groups[g], After(u, acts + [ServerLost(agreed)]).groups[g];
              && (if IsActive(x) then IsStartedAgain(x, y) else y == x)
              && (IsActive(y) ==> y.submissions == x.submissions + 1 && y.status == WAITING && y.jobStatus == PENDING)
  {
    AppendAction(u, acts, ServerLost(agreed));
    hide React;
    hide Feasible;
    hide After;
    hide Possible;
    forall g | 0 <= g < u.nbGroups
      ensures var x, y := After(u, acts).groups[g], After(u, acts + [ServerLost(agreed)]).groups[g];
              if IsActive(x) then IsStartedAgain(x, y) else y == x
    {
      ActionOnGroup(u, After(u, acts), ServerLost(agreed), g);
    }
  }

  lemma {:induction false} SubmissionsGrow(u: Setup, acts: seq<Action>, more: seq<Action>, g: nat)
    requires u.Valid() && Feasible(u, acts) && Feasible(u, acts + more) && g < u.nbGroups
    ensures After(u, acts).groups[g].submissions <= After(u, acts + more).groups[g].submissions
    decreases |more|
  {
    hide Feasible;
    hide After;
    hide React;
    hide Possible;
    hide IsRetried;
    if more == [] {
      assert acts + more == acts;
    } else {
      var n := |more| - 1;
      OneMoreAction(u, acts, more);
      SubmissionsGrow(u, acts, more[..n], g);
      SubmittedExactly(u, After(u, acts + more[..n]), more[n], g);
    }
  }

  /** For the rest of the run, whatever else happens, a group that was active at the crash has been submitted to the new
      server, unless it was given up. */
  lemma CrashResubmits(u: Setup, acts: seq<Action>, agreed: seq<nat>, more: seq<Action>, g: nat)
    requires u.Valid() && Feasible(u, acts) && Possible(u, After(u, acts), ServerLost(agreed)) && g < u.nbGroups
    requires Feasible(u, acts + [ServerLost(agreed)] + more)
    requires IsActive(After(u, acts).groups[g]) && After(u, acts).groups[g].nbRestarts < 3
    ensures After(u, acts + [ServerLost(agreed)] + more).groups[g].submissions > After(u, acts).groups[g].submissions
  {
    hide Possible;
    CrashOnGroups(u, acts, agreed);
    hide Feasible;
    hide After;
    SubmissionsGrow(u, acts + [ServerLost(agreed)], more, g);
  }

  // ---- a timeout ----

  /** Only simulations of submitted groups are running, and only their timeouts are under way. */
  ghost predicate OnlyLaunched(u: Setup, w: World)
    requires u.Valid() && Fits(u, w)
  {
    forall q: nat :: q < u.c.o.samplingSize && (w.server.simus[q].status == RUNNING || Timeout(q) in w.queue) ==>
      q / u.batch < w.launched
  }

  /** Running simulations and timeouts in the notices of one server step. */
  lemma StepLaunched(c: Config, s: State, e: Event, q: nat)
    requires Shape(c, s) && Enabled(c, s, e) && q < c.o.samplingSize
    ensures Step(c, s, e).simus[q].status == RUNNING ==>
              s.simus[q].status == RUNNING || (e.DataMessage? && e.data.simu == q)
    ensures !e.CrashRestart? ==> Timeout(q) in Sent(s, Step(c, s, e)) ==> s.simus[q].status == RUNNING
  {
    if e.TimeoutCheck? {
      TimeoutCheckReports(c, s, e.now);
    }
  }

  lemma LaunchedStep(u: Setup, w: World, a: Action)
    requires u.Valid() && Fits(u, w) && Possible(u, w, a) && OnlyLaunched(u, w)
    ensures OnlyLaunched(u, React(u, w, a))
  {
    var r := React(u, w, a);
    match a
    case ServerStep(e) =>
      assert r.queue == w.queue + Sent(w.server, r.server);
      forall q: nat | q < u.c.o.samplingSize && (r.server.simus[q].status == RUNNING || Timeout(q) in r.queue)
        ensures q / u.batch < r.launched
      {
        StepLaunched(u.c, w.server, e, q);
        hide Step;
      }
    case ServerLost(agreed) =>
      CrashSendsNoTimeout(u.c, w.server, agreed);
      forall q: nat | q < u.c.o.samplingSize && (r.server.simus[q].status == RUNNING || Timeout(q) in r.queue)
        ensures q / u.batch < r.launched
      {
        RestartReports(u.c, w.server, agreed);
        hide Step;
      }
    case _ =>
      assert r.server == w.server && forall n :: n in r.queue ==> n in w.queue;
      assert r.launched >= w.launched;
  }

  lemma {:induction false} RunLaunched(u: Setup, acts: seq<Action>)
    requires u.Valid() && Feasible(u, acts)
    ensures OnlyLaunched(u, After(u, acts))
  {
    if acts == [] {
      EmptyIsFeasible(u);
    } else {
      var n := |acts| - 1;
      LastStep(u, acts);
      hide *;
      RunLaunched(u, acts[..n]);
      LaunchedStep(u, After(u, acts[..n]), acts[n]);
    }
  }

  /** Some timeout of group g is the next notice. */
  ghost predicate TimeoutIsNext(u: Setup, w: World, g: nat)
    requires u.Valid()
  {
    w.queue != [] && w.queue[0].Timeout? && w.queue[0].simu / u.batch == g
  }

  /** While the actions of more follow acts, the launcher does not look at the timeout of group g and hears no status of
      its simulations. */
  ghost predicate IsPending(u: Setup, acts: seq<Action>, more: seq<Action>, g: nat)
    requires u.Valid()
    decreases |more|
  {
    more == []
    || (var n := |more| - 1;
        && IsPending(u, acts, more[..n], g) && Feasible(u, acts + more[..n])
        && !(more[n].CheckTimeouts? && more[n].group == g)
        && (more[n].ReadNotice? ==>
             var queue := After(u, acts + more[..n]).queue;
             queue != [] && !(queue[0].SimuStatus? && queue[0].simu / u.batch == g)))
  }

  /** Group g as in x, timed out. */
  predicate IsTimedOut(x: Group, y: Group) {
    y.status == TIMEOUT && y.nbRestarts == x.nbRestarts && y.submissions == x.submissions
  }

  lemma PendingStep(u: Setup, w: World, a: Action, g: nat, x: Group)
    requires u.Valid() && Fits(u, w) && Possible(u, w, a) && g < w.launched && g < u.nbGroups
    requires IsTimedOut(x, w.groups[g])
    requires !(a.CheckTimeouts? && a.group == g)
    requires a.ReadNotice? && w.queue != [] ==> !(w.queue[0].SimuStatus? && w.queue[0].simu / u.batch == g)
    ensures IsTimedOut(x, React(u, w, a).groups[g]) && g < React(u, w, a).launched
  {
    ActionOnGroup(u, w, a, g);
    if a.ReadNotice? {
      NoticeOnGroup(u, w, g);
    }
    assert React(u, w, a).launched >= w.launched;
    hide React;
  }

  lemma {:induction false} TimeoutPends(u: Setup, acts: seq<Action>, more: seq<Action>, g: nat, x: Group)
    requires u.Valid() && Feasible(u, acts) && Feasible(u, acts + more) && IsPending(u, acts, more, g)
    requires g < u.nbGroups && g < After(u, acts).launched && IsTimedOut(x, After(u, acts).groups[g])
    ensures IsTimedOut(x, After(u, acts + more).groups[g]) && g < After(u, acts + more).launched
    decreases |more|
  {
    hide Feasible;
    hide After;
    hide React;
    hide Possible;
    hide IsTimedOut;
    if more == [] {
      assert acts + more == acts;
    } else {
      var n := |more| - 1;
      OneMoreAction(u, acts, more);
      TimeoutPends(u, acts, more[..n], g, x);
      PendingStep(u, After(u, acts + more[..n]), more[n], g, x);
    }
  }

  lemma TimeoutIsRead(u: Setup, acts: seq<Action>, g: nat)
    requires u.Valid() && Feasible(u, acts) && TimeoutIsNext(u, After(u, acts), g) && g < u.nbGroups
    ensures Feasible(u, acts + [ReadNotice])
    ensures IsTimedOut(After(u, acts).groups[g], After(u, acts + [ReadNotice]).groups[g])
    ensures g < After(u, acts + [ReadNotice]).launched
  {
    var w := After(u, acts);
    RunLaunched(u, acts);
    assert Timeout(w.queue[0].simu) in w.queue && g < w.launched;
    AppendAction(u, acts, ReadNotice);
    hide React;
    hide After;
    hide Feasible;
    NoticeOnGroup(u, w, g);
  }

  lemma TimeoutIsSeen(u: Setup, acts: seq<Action>, g: nat, late: bool, x: Group)
    requires u.Valid() && Feasible(u, acts) && g < u.nbGroups && After(u, acts).main.Scanning?
    requires IsTimedOut(x, After(u, acts).groups[g])
    ensures Feasible(u, acts + [CheckTimeouts(g, late)])
    ensures IsAnswered(x, After(u, acts + [CheckTimeouts(g, late)]).groups[g])
  {
    AppendAction(u, acts, CheckTimeouts(g, late));
    hide React;
    hide After;
    hide Feasible;
    ActionOnGroup(u, After(u, acts), CheckTimeouts(g, late), g);
  }

  /** A group that is started once more, whatever its members said meanwhile. */
  predicate IsAnswered(x: Group, y: Group) {
    IsStartedAgain(x, y.(simuStatus := x.simuStatus))
  }

  /** Main result, in every run: once the messenger has read a timeout of a group, the launcher's next look at the group
      starts it again or gives it up, unless a status of it is read in between. */
  lemma TimeoutIsAnswered(u: Setup, acts: seq<Action>, more: seq<Action>, g: nat, late: bool)
    requires u.Valid() && Feasible(u, acts) && TimeoutIsNext(u, After(u, acts), g) && g < u.nbGroups
    requires Feasible(u, acts + [ReadNotice] + more) && IsPending(u, acts + [ReadNotice], more, g)
    requires After(u, acts + [ReadNotice] + more).main.Scanning?
    ensures var look := acts + [ReadNotice] + more + [CheckTimeouts(g, late)];
            Feasible(u, look) && IsAnswered(After(u, acts).groups[g], After(u, look).groups[g])
  {
    var x := After(u, acts).groups[g];
    hide *;
    TimeoutIsRead(u, acts, g);
    TimeoutPends(u, acts + [ReadNotice], more, g, x);
    TimeoutIsSeen(u, acts + [ReadNotice] + more, g, late, x);
  }

  // ---- jobs that end or do not begin ----

  /** While the main thread pauses. */
  ghost predicate IsPause(more: seq<Action>) {
    forall i :: 0 <= i < |more| ==> !more[i].Recheck?
  }

  /** The main thread pauses over a group only if its job is over while its status is waiting or running. */
  lemma PauseBegins(u: Setup, w: World, a: Action, g: nat)
    requires u.Valid() && Fits(u, w) && Possible(u, w, a) && w.main.Scanning? && g < u.nbGroups
    ensures React(u, w, a).main == Slept(g) ==> 0 <= w.groups[g].status <= 1 && w.groups[g].jobStatus == FINISHED
  {
    hide Step;
    hide Enabled;
    hide Shape;
  }

  lemma {:induction false} PauseKeeps(u: Setup, acts: seq<Action>, more: seq<Action>, g: nat)
    requires u.Valid() && Feasible(u, acts) && Feasible(u, acts + more) && IsPause(more) && g < u.nbGroups
    requires After(u, acts).main == Slept(g)
    ensures After(u, acts + more).main == Slept(g)
    ensures var x, y := After(u, acts).groups[g], After(u, acts + more).groups[g];
            y.nbRestarts == x.nbRestarts && y.submissions == x.submissions
    decreases |more|
  {
    hide Feasible;
    hide After;
    if more == [] {
      assert acts + more == acts;
    } else {
      var n := |more| - 1;
      OneMoreAction(u, acts, more);
      PauseKeeps(u, acts, more[..n], g);
      PauseStep(u, After(u, acts + more[..n]), more[n], g);
      hide React;
      hide Possible;
    }
  }

  lemma PauseStep(u: Setup, w: World, a: Action, g: nat)
    requires u.Valid() && Fits(u, w) && Possible(u, w, a) && w.main == Slept(g) && !a.Recheck?
    ensures var r := React(u, w, a);
            && r.main == Slept(g) && r.groups[g].nbRestarts == w.groups[g].nbRestarts
            && r.groups[g].submissions == w.groups[g].submissions
  {
    ActionOnGroup(u, w, a, g);
  }

  lemma ScanBegins(u: Setup, acts: seq<Action>, g: nat)
    requires u.Valid() && Feasible(u, acts) && g < u.nbGroups && After(u, acts).main.Scanning?
    requires 0 <= After(u, acts).groups[g].status <= 1 && After(u, acts).groups[g].jobStatus == FINISHED
    ensures Feasible(u, acts + [Scan(g)])
    ensures var w, r := After(u, acts), After(u, acts + [Scan(g)]); r.main == Slept(g) && r.groups == w.groups
  {
    AppendAction(u, acts, Scan(g));
    hide After;
    hide Feasible;
  }

  lemma PauseEnds(u: Setup, acts: seq<Action>, g: nat)
    requires u.Valid() && Feasible(u, acts) && g < u.nbGroups && After(u, acts).main == Slept(g)
    ensures Feasible(u, acts + [Recheck])
    ensures var x, y := After(u, acts).groups[g], After(u, acts + [Recheck]).groups[g];
            if x.status <= 1 then IsStartedAgain(x, y) else y == x
  {
    hide After;
    hide Feasible;
    hide React;
    AppendAction(u, acts, Recheck);
    ActionOnGroup(u, After(u, acts), Recheck, g);
  }

  /** Main result: the launcher sees a group whose job is over although its status is waiting or running, pauses, and
      looks again. The group is started again or given up if and only if no end and no timeout of it was read in the
      pause. */
  lemma EndedJobIsAnswered(u: Setup, acts: seq<Action>, more: seq<Action>, g: nat)
    requires u.Valid() && Feasible(u, acts) && g < u.nbGroups && After(u, acts).main.Scanning?
    requires 0 <= After(u, acts).groups[g].status <= 1 && After(u, acts).groups[g].jobStatus == FINISHED
    requires Feasible(u, acts + [Scan(g)] + more) && IsPause(more)
    ensures Feasible(u, acts + [Scan(g)]) && Feasible(u, acts + [Scan(g)] + more + [Recheck])
    ensures var x, y := After(u, acts + [Scan(g)] + more).groups[g],
                        After(u, acts + [Scan(g)] + more + [Recheck]).groups[g];
            && x.nbRestarts == After(u, acts).groups[g].nbRestarts
            && x.submissions == After(u, acts).groups[g].submissions
            && if x.status <= 1 then IsStartedAgain(x, y) else y == x
  {
    hide After;
    hide Feasible;
    hide React;
    ScanBegins(u, acts, g);
    PauseKeeps(u, acts + [Scan(g)], more, g);
    PauseEnds(u, acts + [Scan(g)] + more, g);
  }

  lemma JobIsHeard(u: Setup, acts: seq<Action>, g: nat)
    requires u.Valid() && Feasible(u, acts) && g < u.nbGroups && 0 <= After(u, acts).groups[g].jobStatus <= 1
    ensures Feasible(u, acts + [CheckJob(g, RUNNING)])
    ensures var w, r := After(u, acts), After(u, acts + [CheckJob(g, RUNNING)]);
            r.main == w.main && r.groups[g] == w.groups[g].(jobStatus := RUNNING)
  {
    AppendAction(u, acts, CheckJob(g, RUNNING));
    hide After;
    hide Feasible;
  }

  /** A submitted group whose job the scheduler reports as running, but from which nothing is heard in time, is started
      again or given up. */
  lemma SilentJobIsAnswered(u: Setup, acts: seq<Action>, g: nat)
    requires u.Valid() && Feasible(u, acts) && g < u.nbGroups && After(u, acts).main.Scanning?
    requires After(u, acts).groups[g].status == WAITING && 0 <= After(u, acts).groups[g].jobStatus <= 1
    ensures var heard := acts + [CheckJob(g, RUNNING)];
            var look := heard + [CheckTimeouts(g, true)];
            && Feasible(u, heard) && Feasible(u, look)
            && IsStartedAgain(After(u, acts).groups[g], After(u, look).groups[g])
  {
    hide After;
    hide Feasible;
    hide React;
    var heard := acts + [CheckJob(g, RUNNING)];
    JobIsHeard(u, acts, g);
    AppendAction(u, heard, CheckTimeouts(g, true));
    ActionOnGroup(u, After(u, heard), CheckTimeouts(g, true), g);
  }

  /** The simulation sends its first step, and a checkpoint is taken. */
  function BeforeTheLoss(): seq<Action> {
    [LaunchNext] + [ServerStep(OnlySimu(0))] + [ServerStep(SaveCheckpoint(false))]
  }

  lemma SavedBeforeTheLoss()
    ensures SINGLE.Valid() && SingleWorld(BeforeTheLoss(), {0}, RUNNING, [RUNNING], [SimuStatus(0, RUNNING)], WAITING)
  {
    hide SingleWorld;
    hide OnlySimu;
    var none: set<nat>, one: set<nat> := {}, {0};
    assert one == none + {0} && [] + [SimuStatus(0, RUNNING)] == [SimuStatus(0, RUNNING)];
    SingleStart();
    SingleHears([LaunchNext], none, IDLE, [], [], WAITING, 0, one, RUNNING);
    SingleSaves([LaunchNext] + [ServerStep(OnlySimu(0))], one, RUNNING, [], [SimuStatus(0, RUNNING)], WAITING);
  }

  lemma LossIsPossible(acts: seq<Action>)
    requires SingleWorld(acts, {0}, RUNNING, [RUNNING], [SimuStatus(0, RUNNING)], WAITING)
    ensures SINGLE.Valid() && Feasible(SINGLE, acts) && SINGLE.nbGroups == 1
    ensures Possible(SINGLE, After(SINGLE, acts), ServerLost([RUNNING]))
  {
    hide SingleAt;
    hide Enabled;
    hide Step;
    hide Feasible;
    hide After;
    SingleCrash(After(SINGLE, acts).server, {0}, RUNNING);
  }

  lemma NotRestartedYet(acts: seq<Action>)
    requires SingleWorld(acts, {0}, RUNNING, [RUNNING], [SimuStatus(0, RUNNING)], WAITING)
    ensures SINGLE.Valid() && Feasible(SINGLE, acts)
    ensures var x := After(SINGLE, acts).groups[0];
            IsActive(x) && x.nbRestarts == 0 && x.submissions == 1
  {
    hide SingleAt;
    hide Shape;
    hide Feasible;
    hide After;
    SubmissionsAreBounded(SINGLE, acts);
  }

  /** Main result, a run with one crash: the group of a simulation that was running is submitted a second time. */
  lemma LostServerResubmits(acts: seq<Action>)
    requires acts == BeforeTheLoss() + [ServerLost([RUNNING])]
    ensures SINGLE.Valid() && Feasible(SINGLE, acts)
    ensures var x := After(SINGLE, acts).groups[0];
            x.nbRestarts == 1 && x.submissions == 2 && x.status == WAITING && x.jobStatus == PENDING
  {
    SavedBeforeTheLoss();
    hide BeforeTheLoss;
    hide SingleWorld;
    hide Feasible;
    hide After;
    hide Possible;
    LossIsPossible(BeforeTheLoss());
    NotRestartedYet(BeforeTheLoss());
    CrashOnGroups(SINGLE, BeforeTheLoss(), [RUNNING]);
  }
}
