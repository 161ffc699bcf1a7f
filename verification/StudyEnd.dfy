/** The launcher's view of the end of a study and the written statistics: the server inside the protocol is the state
    machine of the statistics server, so that groups taken for finished by the launcher mean finished statistics. */
module StudyEnd {
  import opened Samples
  import opened Sequences
  import opened Redistribution
  import opened Gathering
  import opened StatServer
  import opened Completion
  import opened Settling
  import opened ServerRuns
  import opened ServerRecovery
  import opened FieldOutput
  import opened Protocol

  /** What the actions of a run mean for the server. */
  function ServerEvents(acts: seq<Action>): seq<Event> {
    if acts == [] then []
    else
      var before, a := ServerEvents(acts[..|acts| - 1]), acts[|acts| - 1];
      if a.ServerStep? then before + [a.event]
      else if a.ServerLost? then before + [CrashRestart(a.agreed)]
      else before
  }

  lemma OnlyServerActions(u: Setup, w: World, a: Action)
    requires u.Valid() && Fits(u, w) && Possible(u, w, a)
    ensures a.ServerStep? ==>
              Enabled(u.c, w.server, a.event) && React(u, w, a).server == Step(u.c, w.server, a.event)
    ensures a.ServerLost? ==>
              && Enabled(u.c, w.server, CrashRestart(a.agreed))
              && React(u, w, a).server == Step(u.c, w.server, CrashRestart(a.agreed))
    ensures !a.ServerStep? && !a.ServerLost? ==> React(u, w, a).server == w.server
  {
    hide Step;
    hide Shape;
    hide Enabled;
  }

  /** In every run, with crashes and drops, the server is at the end of a run of its own state machine. */
  lemma {:induction false} ServerIsRun(u: Setup, acts: seq<Action>)
    requires u.Valid() && Feasible(u, acts)
    ensures IsRun(u.c, ServerEvents(acts)) && Run(u.c, ServerEvents(acts)) == After(u, acts).server
  {
    if acts == [] {
      EmptyIsFeasible(u);
      EmptyRun(u.c);
    } else {
      hide *;
      var n := |acts| - 1;
      LastStep(u, acts);
      ServerIsRun(u, acts[..n]);
      OnlyServerActions(u, After(u, acts[..n]), acts[n]);
      LastEvent(acts);
      if acts[n].ServerStep? {
        AppendEvent(u.c, ServerEvents(acts[..n]), acts[n].event);
      } else if acts[n].ServerLost? {
        AppendEvent(u.c, ServerEvents(acts[..n]), CrashRestart(acts[n].agreed));
      }
    }
  }

  lemma EmptyRun(c: Config)
    ensures IsRun(c, []) && Run(c, []) == Init(c)
  {
  }

  lemma LastEvent(acts: seq<Action>)
    requires acts != []
    ensures var a, before := acts[|acts| - 1], ServerEvents(acts[..|acts| - 1]);
            && (a.ServerStep? ==> ServerEvents(acts) == before + [a.event])
            && (a.ServerLost? ==> ServerEvents(acts) == before + [CrashRestart(a.agreed)])
            && (!a.ServerStep? && !a.ServerLost? ==> ServerEvents(acts) == before)
  {
  }

  ghost predicate NoServerLost(acts: seq<Action>) {
    forall i :: 0 <= i < |acts| ==> !acts[i].ServerLost?
  }

  lemma {:induction false} NoLossNoCrash(u: Setup, acts: seq<Action>)
    requires u.Valid() && Feasible(u, acts) && NoServerLost(acts)
    ensures NoCrash(ServerEvents(acts))
  {
    if acts != [] {
      var n := |acts| - 1;
      LastStep(u, acts);
      NoLossNoCrash(u, acts[..n]);
      ServerEventsAreNoCrash(u, After(u, acts[..n]), acts[n]);
      LastEvent(acts);
    }
  }

  lemma ServerEventsAreNoCrash(u: Setup, w: World, a: Action)
    requires u.Valid() && Fits(u, w) && Possible(u, w, a)
    ensures a.ServerStep? ==> !a.event.CrashRestart?
  {
  }

  lemma SettledLast(c: Config, es: seq<Event>, e: Event)
    requires IsRun(c, es + [e]) && SettledRun(c, es + [e])
    ensures IsRun(c, es) && SettledRun(c, es) && Enabled(c, Run(c, es), e) && Settled(c, Run(c, es), e)
  {
    assert (es + [e])[..|es|] == es;
  }

  /** Settled server events make the run orderly. */
  lemma {:induction false} SettledIsOrderly(u: Setup, acts: seq<Action>)
    requires u.Valid() && u.batch == 1 && Feasible(u, acts) && NoServerLost(acts)
    requires IsRun(u.c, ServerEvents(acts)) && SettledRun(u.c, ServerEvents(acts))
    ensures Orderly(u, acts)
  {
    if acts != [] {
      var n := |acts| - 1;
      LastStep(u, acts);
      LastEvent(acts);
      ServerIsRun(u, acts[..n]);
      hide After;
      hide Run;
      hide IsRun;
      hide SettledRun;
      hide Settled;
      hide Step;
      hide ServerEvents;
      hide React;
      if acts[n].ServerStep? {
        SettledLast(u.c, ServerEvents(acts[..n]), acts[n].event);
      }
      SettledIsOrderly(u, acts[..n]);
    }
  }

  lemma {:induction false} CountAll(xs: seq<nat>)
    requires forall q :: 0 <= q < |xs| ==> xs[q] == FINISHED
    ensures CountFinished(xs) == |xs|
  {
    if xs != [] {
      CountAll(xs[..|xs| - 1]);
    }
  }

  /** When the launcher has all groups as finished, the server has left its main loop. */
  lemma AllFinishedExits(u: Setup, acts: seq<Action>)
    requires u.Valid() && u.nbGroups > 0 && Feasible(u, acts) && Orderly(u, acts) && NoDrop(After(u, acts))
    requires forall q :: 0 <= q < u.nbGroups ==> After(u, acts).groups[q].status == FINISHED
    ensures ExitTest(u.c, After(u, acts).server)
  {
    RunAgrees(u, acts);
    var w := After(u, acts);
    forall q | 0 <= q < |w.server.simus| ensures Statuses(w.server.simus)[q] == FINISHED {
      assert Agreed(w.server, w.queue, w.groups[q], q < w.launched, q);
    }
    CountAll(Statuses(w.server.simus));
  }

  /** A run with one simulation in each group, without server crash and dropped group, and with server events in time,
      after which the launcher has all groups as finished. */
  ghost predicate LauncherFinished(u: Setup, acts: seq<Action>) {
    && u.Valid() && u.batch == 1 && u.nbGroups > 0 && Feasible(u, acts) && NoServerLost(acts)
    && NoDrop(After(u, acts)) && Prompt(u.c, ServerEvents(acts))
    && forall q :: 0 <= q < u.nbGroups ==> After(u, acts).groups[q].status == FINISHED
  }

  /** Main result, launcher and server together: if the events of server rank 0 were in time, the server did not crash
      and no group was dropped, then all groups being FINISHED at the launcher means that rank 0 has finished; with the
      other ranks finished too, what is written is the mean over all simulations of the study. With one server rank,
      what the launcher knows is enough. */
  lemma FinishedGroupsMeanWrittenMeans(u: Setup, acts: seq<Action>, clients: seq<nat>, servers: seq<nat>,
                                       cs: seq<Config>, ess: seq<seq<Event>>, sent: Mail, g: Study, field: nat,
                                       time: nat)
    requires LauncherFinished(u, acts)
    requires OnMesh(clients, servers, g) && AllSend(clients, servers, sent, g) && |cs| == |ess| == |servers|
    requires u.nbGroups > 0 && cs[0] == u.c && ess[0] == ServerEvents(acts) && u.c.o.sobol == g.sobol
    requires HostsField(clients, servers, u.c, field, 0) && OnlySent(clients, sent, field, 0, ess[0])
    requires forall j :: 0 <= j < |cs| ==>
               cs[j].o.samplingSize == u.nbGroups && cs[j].o.order > 0 && time < cs[j].o.nbTimeSteps
    requires forall j :: 1 <= j < |cs| ==> RankFinished(clients, servers, cs[j], ess[j], sent, g, field, j)
    ensures forall j :: 0 <= j < |cs| ==> IsRun(cs[j], ess[j])
    ensures IsMean(Flatten(Blocks(FieldMeans(clients, cs, ess, field, time))), g, AllSimus(u.nbGroups), time)
  {
    hide *;
    RankZeroFinished(u, acts, clients, servers, sent, g, field);
    AtLeastOne(u, acts);
    FinishedStudyWritesMeans(clients, servers, cs, ess, sent, g, field, time, u.nbGroups);
  }

  lemma AtLeastOne(u: Setup, acts: seq<Action>)
    requires LauncherFinished(u, acts)
    ensures u.nbGroups > 0 && AllSimus(u.nbGroups) != []
  {
  }

  lemma RankZeroFinished(u: Setup, acts: seq<Action>, clients: seq<nat>, servers: seq<nat>, sent: Mail, g: Study,
                         field: nat)
    requires LauncherFinished(u, acts)
    requires OnMesh(clients, servers, g) && u.c.o.sobol == g.sobol
    requires HostsField(clients, servers, u.c, field, 0) && OnlySent(clients, sent, field, 0, ServerEvents(acts))
    ensures RankFinished(clients, servers, u.c, ServerEvents(acts), sent, g, field, 0)
  {
    hide Feasible;
    hide After;
    hide Run;
    hide IsRun;
    hide LifeOf;
    hide Prompt;
    var es := ServerEvents(acts);
    ServerIsRun(u, acts);
    PromptIsSettled(u.c, es);
    SettledIsOrderly(u, acts);
    AllFinishedExits(u, acts);
    NoLossNoCrash(u, acts);
    forall r: nat | r < |clients| && (field, r) in u.c.sizes ensures !LifeOf(es, (field, r)).restarted {
      CrashFreeLife(es, (field, r));
    }
    PromptIsFinished(clients, servers, u.c, es, sent, g, field, 0);
  }
}
