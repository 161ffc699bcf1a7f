/** Simulation groups as the launcher manages them (launcher/simulation.py, the handlers of launcher/study.py). */
module Launcher {
  import opened Radix
  import opened StatServer

  const NOT_SUBMITTED: int := -1
  const PENDING: int := 0
  const WAITING: int := 0
  const TIMEOUT: int := 4
  const CRASHES_BEFORE_REDRAW: nat := 3

  /** status is what the server says, jobStatus what the batch scheduler says; simuStatus is the last status of each
      member. Submissions are counted for the proofs only. */
  datatype Group = Group(status: int, jobStatus: int, nbRestarts: nat, simuStatus: seq<nat>, submissions: nat)

  function NewGroup(size: nat): Group {
    Group(NOT_SUBMITTED, NOT_SUBMITTED, 0, seq(size, _ => 0), 0)
  }

  function Launched(g: Group): Group {
    g.(status := WAITING, jobStatus := PENDING, submissions := g.submissions + 1)
  }

  /** MultiSimuGroup.restart and SobolGroup.restart: the fourth restart drops the group instead. */
  function Restarted(g: Group): Group {
    if g.nbRestarts + 1 > CRASHES_BEFORE_REDRAW
    then g.(nbRestarts := g.nbRestarts + 1, status := FINISHED, jobStatus := FINISHED)
    else g.(nbRestarts := g.nbRestarts + 1, status := WAITING, jobStatus := PENDING, submissions := g.submissions + 1)
  }

  predicate AllFinished(simuStatus: seq<nat>) {
    forall k :: 0 <= k < |simuStatus| ==> simuStatus[k] == FINISHED
  }

  /** A group_state message for one member. */
  function WithStatus(g: Group, sobol: bool, member: nat, status: nat): Group
    requires member < |g.simuStatus|
  {
    if sobol then g.(status := status)
    else
      var states := g.simuStatus[member := status];
      g.(simuStatus := states,
         status := if AllFinished(states) then FINISHED else if g.status < FINISHED then status else g.status)
  }

  function WithTimeout(g: Group): Group {
    g.(status := TIMEOUT)
  }

  /** The state checker asks the scheduler about submitted jobs that are not over. */
  predicate IsChecked(g: Group) {
    NOT_SUBMITTED < g.jobStatus < FINISHED
  }

  /** The first look of fault_tolerance at a group: its job is over, but it is not finished. */
  predicate LooksCrashed(g: Group) {
    NOT_SUBMITTED < g.status < FINISHED && g.status <= RUNNING && g.jobStatus == FINISHED
  }

  /** The second look, ten seconds later. */
  function Rechecked(g: Group): Group {
    if g.status <= RUNNING then Restarted(g) else g
  }

  /** The two timeout tests; late is the launcher's own clock test. */
  function TimeoutsChecked(g: Group, late: bool): Group {
    var h := if g.status == WAITING && g.jobStatus == RUNNING && late then Restarted(g) else g;
    if h.status == TIMEOUT then Restarted(h) else h
  }

  /** How many of a group's restarts submitted it again. */
  function Resubmissions(nbRestarts: nat): nat {
    if nbRestarts < CRASHES_BEFORE_REDRAW then nbRestarts else CRASHES_BEFORE_REDRAW
  }

  // ---- what one message does ----

  /** When a status message finishes a group. With more than one member, one finished member is enough as long as the
      group was not finished or timed out. */
  lemma StatusFinishes(g: Group, member: nat, status: nat)
    requires member < |g.simuStatus|
    ensures WithStatus(g, false, member, status).status == FINISHED
       <==> AllFinished(g.simuStatus[member := status]) || g.status == FINISHED
            || (g.status < FINISHED && status == FINISHED)
  {
  }

  /** So the group can be finished while a member is not, exactly if there is another member that is not. */
  lemma FinishedTooEarly(g: Group, member: nat)
    requires member < |g.simuStatus| && g.status < FINISHED
    ensures var h := WithStatus(g, false, member, FINISHED);
            h.status == FINISHED
            && (!AllFinished(h.simuStatus) <==>
                 exists k :: 0 <= k < |g.simuStatus| && k != member && g.simuStatus[k] != FINISHED)
  {
    var h := WithStatus(g, false, member, FINISHED);
    if !AllFinished(h.simuStatus) {
      var k :| 0 <= k < |h.simuStatus| && h.simuStatus[k] != FINISHED;
      assert k != member && g.simuStatus[k] != FINISHED;
    }
    if k :| 0 <= k < |g.simuStatus| && k != member && g.simuStatus[k] != FINISHED {
      assert h.simuStatus[k] != FINISHED;
    }
  }

  // ---- the objects ----

  /** Group, MultiSimuGroup and SobolGroup. */
  class JobGroup {
    const groupId: nat
    const isSobol: bool
    const simuId: seq<nat>
    var status: int
    var jobStatus: int
    var nbRestarts: nat
    var simuStatus: seq<nat>
    ghost var submissions: nat

    ghost function Abs(): Group
      reads this
    {
      Group(status, jobStatus, nbRestarts, simuStatus, submissions)
    }

    /** MultiSimuGroup: the next `size` simulation ids, from the class counter on. */
    constructor MultiSimu(id: nat, nbSimu: nat, size: nat)
      ensures groupId == id && !isSobol && Abs() == NewGroup(size)
      ensures |simuId| == size && forall k :: 0 <= k < size ==> simuId[k] == nbSimu + k
    {
      var ids: seq<nat> := [];
      for k := 0 to size
        invariant |ids| == k && forall i :: 0 <= i < k ==> ids[i] == nbSimu + i
      {
        ids := ids + [nbSimu + k];
      }
      groupId, isSobol, simuId := id, false, ids;
      status, jobStatus, nbRestarts, submissions := NOT_SUBMITTED, NOT_SUBMITTED, 0, 0;
      simuStatus := seq(size, _ => 0);
    }

    /** SobolGroup: two parameter sets and one mixed set for each parameter; the server knows the group only. */
    constructor Sobol(id: nat, nbParameters: nat)
      ensures groupId == id && isSobol && Abs() == NewGroup(1)
      ensures |simuId| == nbParameters + 2
      ensures forall k :: 0 <= k < nbParameters + 2 ==> simuId[k] == MemberId(id, nbParameters + 2, k)
    {
      var ids: seq<nat> := [id * (nbParameters + 2)];
      ids := ids + [id * (nbParameters + 2) + 1];
      for i := 0 to nbParameters
        invariant |ids| == i + 2 && forall k :: 0 <= k < |ids| ==> ids[k] == MemberId(id, nbParameters + 2, k)
      {
        ids := ids + [id * (nbParameters + 2) + i + 2];
      }
      groupId, isSobol, simuId := id, true, ids;
      status, jobStatus, nbRestarts, submissions := NOT_SUBMITTED, NOT_SUBMITTED, 0, 0;
      simuStatus := [0];
    }

    method Launch()
      modifies this
      ensures Abs() == Launched(old(Abs()))
    {
      submissions := submissions + 1;
      jobStatus := PENDING;
      status := WAITING;
    }

    method Restart()
      modifies this
      ensures Abs() == Restarted(old(Abs()))
    {
      nbRestarts := nbRestarts + 1;
      if nbRestarts > CRASHES_BEFORE_REDRAW {
        jobStatus := FINISHED;
        status := FINISHED;
        return;
      }
      Launch();
      jobStatus := PENDING;
      status := WAITING;
    }

    /** The group_state branch of Messenger.run. */
    method HandleGroupState(member: nat, state: nat)
      requires member < |simuStatus|
      modifies this
      ensures Abs() == WithStatus(old(Abs()), isSobol, member, state)
    {
      if isSobol {
        status := state;
      } else {
        if status < FINISHED {
          status := state;
        }
        simuStatus := simuStatus[member := state];
        var all := true;
        for k := 0 to |simuStatus|
          invariant all == AllFinished(simuStatus[..k])
          invariant status == old(if status < FINISHED then state else status)
          invariant Abs() == old(Abs()).(status := status, simuStatus := old(simuStatus)[member := state])
        {
          all := all && simuStatus[k] == FINISHED;
          assert simuStatus[..k + 1] == simuStatus[..k] + [simuStatus[k]];
        }
        assert simuStatus[..|simuStatus|] == simuStatus;
        if all {
          status := FINISHED;
        }
      }
    }

    /** fault_tolerance after the pause. */
    method Recheck()
      modifies this
      ensures Abs() == Rechecked(old(Abs()))
    {
      if status <= RUNNING {
        Restart();
      }
    }

    /** The two timeout tests of fault_tolerance. */
    method CheckTimeouts(late: bool)
      modifies this
      ensures Abs() == TimeoutsChecked(old(Abs()), late)
    {
      if status == WAITING {
        if jobStatus == RUNNING {
          if late {
            Restart();
          }
        }
      }
      if status == TIMEOUT {
        Restart();
      }
    }
  }

  // ---- identifiers ----

  /** Launcher ids of the members of a group. */
  function MemberId(group: nat, size: nat, member: nat): nat {
    group * size + member
  }

  /** The client and the messenger decode an id with a division and a remainder. */
  lemma DecodeMember(group: nat, size: nat, member: nat)
    requires member < size
    ensures MemberId(group, size, member) / size == group && MemberId(group, size, member) % size == member
  {
    DigitOf(size, group, member);
    assert size * group == group * size;
  }

  /** The ids of a group belong to it and no other one, and give every member its place. */
  ghost predicate IdsDecode(group: JobGroup, g: nat, size: nat) {
    && group.groupId == g && |group.simuId| == size
    && forall m :: 0 <= m < size ==> group.simuId[m] / size == g && group.simuId[m] % size == m
  }

  lemma MemberIdsDecode(group: JobGroup, g: nat, size: nat)
    requires size > 0 && group.groupId == g && |group.simuId| == size
    requires forall m :: 0 <= m < size ==> group.simuId[m] == MemberId(g, size, m)
    ensures IdsDecode(group, g, size)
  {
    forall m | 0 <= m < size ensures group.simuId[m] / size == g && group.simuId[m] % size == m {
      DecodeMember(g, size, m);
    }
  }

  /** Study.create_group_list: both kinds of groups get their ids in order, so that dividing an id by the size of a
      group finds the group and the remainder the member. */
  method CreateGroupList(sobol: bool, samplingSize: nat, batchSize: nat, nbParameters: nat)
    returns (groups: seq<JobGroup>)
    requires batchSize > 0
    ensures |groups| == if sobol then samplingSize else samplingSize / batchSize
    ensures forall g :: 0 <= g < |groups| ==>
              && groups[g].isSobol == sobol && groups[g].Abs() == NewGroup(if sobol then 1 else batchSize)
              && IdsDecode(groups[g], g, if sobol then nbParameters + 2 else batchSize)
  {
    groups := [];
    assert MemberId(0, batchSize, 0) == 0;
    hide IdsDecode;
    hide MemberId;
    if sobol {
      for i := 0 to samplingSize
        invariant |groups| == i
        invariant forall g :: 0 <= g < i ==>
                    && groups[g].isSobol && groups[g].Abs() == NewGroup(1)
                    && IdsDecode(groups[g], g, nbParameters + 2)
      {
        var group := new JobGroup.Sobol(i, nbParameters);
        MemberIdsDecode(group, i, nbParameters + 2);
        groups := groups + [group];
      }
    } else {
      var nbSimu := 0;
      for i := 0 to samplingSize / batchSize
        invariant |groups| == i && nbSimu == MemberId(i, batchSize, 0)
        invariant forall g :: 0 <= g < i ==>
                    && !groups[g].isSobol && groups[g].Abs() == NewGroup(batchSize)
                    && IdsDecode(groups[g], g, batchSize)
      {
        var group := new JobGroup.MultiSimu(i, nbSimu, batchSize);
        NextIds(i, batchSize);
        MemberIdsDecode(group, i, batchSize);
        groups := groups + [group];
        nbSimu := nbSimu + batchSize;
      }
    }
  }

  lemma NextIds(group: nat, size: nat)
    ensures MemberId(group + 1, size, 0) == MemberId(group, size, 0) + size
    ensures forall m :: 0 <= m < size ==> MemberId(group, size, m) == MemberId(group, size, 0) + m
  {
  }
}
