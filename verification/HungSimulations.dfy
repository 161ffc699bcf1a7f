/** From the server's clock to the batch scheduler: a simulation that falls silent is reported, and the launcher starts
    its group again or gives it up. */
module HungSimulations {
  import opened StatServer
  import opened Completion
  import opened Launcher
  import opened Protocol
  import opened StudyEnd
  import opened ServerClock
  import opened Resubmission

  function Reads(k: nat): (acts: seq<Action>)
    ensures |acts| == k && forall i :: 0 <= i < k ==> acts[i] == ReadNotice
  {
    seq(k, _ => ReadNotice)
  }

  /** What reading notices leaves alone. */
  ghost predicate OnlyRead(u: Setup, w: World, r: World, k: nat)
    requires Fits(u, w) && Fits(u, r)
  {
    && k <= |w.queue| && r.queue == w.queue[k..] && r.main == w.main
    && forall g :: 0 <= g < u.nbGroups ==>
         r.groups[g].nbRestarts == w.groups[g].nbRestarts && r.groups[g].submissions == w.groups[g].submissions
  }

  lemma OneRead(u: Setup, v: World, w: World, k: nat)
    requires u.Valid() && Fits(u, v) && Fits(u, w) && OnlyRead(u, v, w, k) && k < |v.queue|
    ensures Possible(u, w, ReadNotice) && OnlyRead(u, v, React(u, w, ReadNotice), k + 1)
  {
    var r := React(u, w, ReadNotice);
    assert r.queue == w.queue[1..] && r.main == w.main;
    hide React;
    forall g | 0 <= g < u.nbGroups
      ensures r.groups[g].nbRestarts == w.groups[g].nbRestarts && r.groups[g].submissions == w.groups[g].submissions
    {
      ActionOnGroup(u, w, ReadNotice, g);
    }
  }

  lemma {:induction false} ReadsAreFeasible(u: Setup, acts: seq<Action>, k: nat)
    requires u.Valid() && Feasible(u, acts) && k <= |After(u, acts).queue|
    ensures Feasible(u, acts + Reads(k)) && OnlyRead(u, After(u, acts), After(u, acts + Reads(k)), k)
  {
    hide Feasible;
    hide After;
    hide React;
    hide Possible;
    hide Fits;
    if k == 0 {
      assert acts + Reads(0) == acts;
    } else {
      ReadsAreFeasible(u, acts, k - 1);
      OneRead(u, After(u, acts), After(u, acts + Reads(k - 1)), k - 1);
      AppendAction(u, acts + Reads(k - 1), ReadNotice);
      assert acts + Reads(k - 1) + [ReadNotice] == acts + Reads(k);
    }
  }

  /** In every run of the protocol, a check at time t puts the timeout of a simulation into the channel if and only if
      the simulation is running and its messages have stopped, by the events at the server. */
  lemma HungIsReported(u: Setup, acts: seq<Action>, t: real, q: nat)
    requires u.Valid() && Feasible(u, acts) && q < u.c.o.samplingSize
    ensures Feasible(u, acts + [ServerStep(TimeoutCheck(t))])
    ensures var w, r := After(u, acts), After(u, acts + [ServerStep(TimeoutCheck(t))]);
            && |w.queue| <= |r.queue| && r.queue[..|w.queue|] == w.queue && r.groups == w.groups && r.main == w.main
            && (Timeout(q) in r.queue[|w.queue|..]
                <==> w.server.simus[q].status == RUNNING && IsSilent(u.c, ServerEvents(acts), q, t))
  {
    var w, es, check := After(u, acts), ServerEvents(acts), TimeoutCheck(t);
    AppendAction(u, acts, ServerStep(check));
    var r := After(u, acts + [ServerStep(check)]);
    assert r == React(u, w, ServerStep(check));
    assert r.queue == w.queue + Sent(w.server, Step(u.c, w.server, check));
    hide *;
    ServerIsRun(u, acts);
    CheckReports(u.c, es, t);
    RunAppend(u.c, es, check);
  }

  /** A timeout at place n of the queue is answered when n + 1 notices are read. */
  lemma QueuedIsAnswered(u: Setup, acts: seq<Action>, n: nat, g: nat, late: bool)
    requires u.Valid() && Feasible(u, acts) && g < u.nbGroups && After(u, acts).main.Scanning?
    requires n < |After(u, acts).queue| && IsTimeoutOf(u, After(u, acts).queue[n], g)
    ensures var look := acts + Reads(n + 1) + [CheckTimeouts(g, late)];
            Feasible(u, look) && IsAnswered(After(u, acts).groups[g], After(u, look).groups[g])
  {
    hide Feasible;
    hide After;
    hide IsAnswered;
    ReadsAreFeasible(u, acts, n);
    ReadsAreFeasible(u, acts, n + 1);
    var x, y := After(u, acts).groups[g], After(u, acts + Reads(n)).groups[g];
    assert acts + Reads(n) + [ReadNotice] + [] == acts + Reads(n + 1);
    TimeoutIsAnswered(u, acts + Reads(n), [], g, late);
    AnsweredToo(x, y, After(u, acts + Reads(n + 1) + [CheckTimeouts(g, late)]).groups[g]);
  }

  predicate IsTimeoutOf(u: Setup, n: Notice, g: nat)
    requires u.Valid()
  {
    n.Timeout? && n.simu / u.batch == g
  }

  lemma AnsweredToo(x: Group, y: Group, z: Group)
    requires x.nbRestarts == y.nbRestarts && x.submissions == y.submissions && IsAnswered(y, z)
    ensures IsAnswered(x, z)
  {
  }

  lemma ReportedAt(u: Setup, acts: seq<Action>, t: real, q: nat) returns (n: nat)
    requires u.Valid() && Feasible(u, acts) && q < u.c.o.samplingSize
    requires After(u, acts).server.simus[q].status == RUNNING && IsSilent(u.c, ServerEvents(acts), q, t)
    ensures Feasible(u, acts + [ServerStep(TimeoutCheck(t))])
    ensures var w, r := After(u, acts), After(u, acts + [ServerStep(TimeoutCheck(t))]);
            && r.groups == w.groups && r.main == w.main
            && n < |r.queue| && IsTimeoutOf(u, r.queue[n], GroupOf(u, q))
  {
    hide Feasible;
    hide After;
    hide IsSilent;
    hide Fits;
    HungIsReported(u, acts, t, q);
    var w, r := After(u, acts), After(u, acts + [ServerStep(TimeoutCheck(t))]);
    var i :| 0 <= i < |r.queue[|w.queue|..]| && r.queue[|w.queue|..][i] == Timeout(q);
    n := |w.queue| + i;
  }

  /** Main result: in every run, once a simulation that hangs is found at a timeout check, the launcher that goes on to
      read the notices and then looks at the group starts it again or gives it up. */
  lemma HungIsAnswered(u: Setup, acts: seq<Action>, t: real, q: nat, late: bool) returns (k: nat)
    requires u.Valid() && Feasible(u, acts) && q < u.c.o.samplingSize && After(u, acts).main.Scanning?
    requires After(u, acts).server.simus[q].status == RUNNING && IsSilent(u.c, ServerEvents(acts), q, t)
    ensures var g := GroupOf(u, q);
            var look := acts + [ServerStep(TimeoutCheck(t))] + Reads(k) + [CheckTimeouts(g, late)];
            && g == q / u.batch && Feasible(u, look)
            && IsAnswered(After(u, acts).groups[g], After(u, look).groups[g])
  {
    assert GroupOf(u, q) == q / u.batch;
    hide *;
    var n := ReportedAt(u, acts, t, q);
    QueuedIsAnswered(u, acts + [ServerStep(TimeoutCheck(t))], n, GroupOf(u, q), late);
    k := n + 1;
  }
}
