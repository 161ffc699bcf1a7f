/** Port numbers: those the server ranks of one node listen on (create_port_number, server/server_helper.c), and those
    the members of a Sobol group exchange data on (melissa_init_internal, api/melissa_api.c). */
module Ports {
  import opened Radix

  // ---- server ports ----

  function Largest(forbidden: seq<nat>): nat {
    if forbidden == [] then 0
    else
      var m := Largest(forbidden[1..]);
      if forbidden[0] > m then forbidden[0] else m
  }

  lemma {:induction false} LargestBounds(forbidden: seq<nat>, p: nat)
    requires p in forbidden
    ensures p <= Largest(forbidden)
  {
    if forbidden[0] != p {
      LargestBounds(forbidden[1..], p);
    }
  }

  /** The first port from p on that is not forbidden. */
  function Allowed(p: nat, forbidden: seq<nat>): (q: nat)
    ensures p <= q && q !in forbidden && forall k :: p <= k < q ==> k in forbidden
    decreases if p in forbidden then Largest(forbidden) + 1 - p else 0
  {
    if p in forbidden then
      LargestBounds(forbidden, p);
      assert p + 1 in forbidden ==> p + 1 <= Largest(forbidden) by {
        if p + 1 in forbidden {
          LargestBounds(forbidden, p + 1);
        }
      }
      Allowed(p + 1, forbidden)
    else p
  }

  /** The port after the first i ranks were looked at: one step for each of them on the same node. */
  function PortBelow(nodes: seq<string>, node: string, i: nat, start: nat, forbidden: seq<nat>): nat
    requires i <= |nodes|
  {
    if i == 0 then start
    else
      var port := PortBelow(nodes, node, i - 1, start, forbidden);
      if nodes[i - 1] == node then Allowed(port + 1, forbidden) else port
  }

  function PortOf(nodes: seq<string>, rank: nat, start: nat, forbidden: seq<nat>): nat
    requires rank < |nodes|
  {
    PortBelow(nodes, nodes[rank], rank, start, forbidden)
  }

  /** create_port_number on one rank. */
  method CreatePortNumber(nodes: seq<string>, rank: nat, start: nat, forbidden: seq<nat>) returns (port: nat)
    requires rank < |nodes|
    ensures port == PortOf(nodes, rank, start, forbidden)
  {
    port := start;
    for i := 0 to rank
      invariant port == PortBelow(nodes, nodes[rank], i, start, forbidden)
    {
      if nodes[i] == nodes[rank] {
        port := port + 1;
        ghost var next := Allowed(port, forbidden);
        while port in forbidden
          invariant port <= next == Allowed(port, forbidden)
          decreases next - port
        {
          port := port + 1;
        }
      }
    }
  }

  lemma {:induction false} PortGrows(nodes: seq<string>, node: string, i: nat, j: nat, start: nat, forbidden: seq<nat>)
    requires i <= j <= |nodes|
    ensures PortBelow(nodes, node, i, start, forbidden) <= PortBelow(nodes, node, j, start, forbidden)
    ensures (exists k :: i <= k < j && nodes[k] == node) ==>
              && PortBelow(nodes, node, i, start, forbidden) < PortBelow(nodes, node, j, start, forbidden)
              && PortBelow(nodes, node, j, start, forbidden) !in forbidden
    decreases j
  {
    if i < j {
      PortGrows(nodes, node, i, j - 1, start, forbidden);
    }
  }

  /** Main result: ranks of one node get increasing, hence different ports, and every port of a node after the first
      one avoids the forbidden numbers. */
  lemma PortsOfANodeDiffer(nodes: seq<string>, a: nat, b: nat, start: nat, forbidden: seq<nat>)
    requires a < b < |nodes| && nodes[a] == nodes[b]
    ensures PortOf(nodes, a, start, forbidden) < PortOf(nodes, b, start, forbidden)
    ensures PortOf(nodes, b, start, forbidden) !in forbidden
  {
    PortGrows(nodes, nodes[b], a, b, start, forbidden);
  }

  lemma {:induction false} PortStays(nodes: seq<string>, node: string, i: nat, j: nat, start: nat, forbidden: seq<nat>)
    requires i <= j <= |nodes| && forall k :: i <= k < j ==> nodes[k] != node
    ensures PortBelow(nodes, node, j, start, forbidden) == PortBelow(nodes, node, i, start, forbidden)
    decreases j
  {
    if i < j {
      PortStays(nodes, node, i, j - 1, start, forbidden);
    }
  }

  /** Main result: the first rank of a node listens on the start port, forbidden or not, and every other one on the
      first port that is not forbidden above that of the rank before it on the node. */
  lemma NextPortOfANode(nodes: seq<string>, rank: nat, start: nat, forbidden: seq<nat>)
    requires rank < |nodes|
    ensures (forall k :: 0 <= k < rank ==> nodes[k] != nodes[rank]) ==> PortOf(nodes, rank, start, forbidden) == start
    ensures forall a ::
              (0 <= a < rank && nodes[a] == nodes[rank] && forall k :: a < k < rank ==> nodes[k] != nodes[rank]) ==>
              var p, q := PortOf(nodes, a, start, forbidden), PortOf(nodes, rank, start, forbidden);
              p < q && q !in forbidden && forall x :: p < x < q ==> x in forbidden
  {
    if forall k :: 0 <= k < rank ==> nodes[k] != nodes[rank] {
      PortStays(nodes, nodes[rank], 0, rank, start, forbidden);
    }
    forall a | 0 <= a < rank && nodes[a] == nodes[rank] && forall k :: a < k < rank ==> nodes[k] != nodes[rank]
      ensures PortOf(nodes, rank, start, forbidden) == Allowed(PortOf(nodes, a, start, forbidden) + 1, forbidden)
    {
      PortStays(nodes, nodes[rank], a + 1, rank, start, forbidden);
    }
  }

  // ---- ports of a Sobol group ----

  const LOCALHOST := "localhost"

  /** What getenv gives for a variable that is not set. */
  const NOT_SET := "(null)"

  /** The decimal number 4 followed by the digits of n. */
  function PortNumber(n: nat): nat {
    4 * PowerAbove(n) + n
  }

  function PowerAbove(n: nat): (p: nat)
    ensures p > n
  {
    if n < 10 then 10 else 10 * PowerAbove(n / 10)
  }

  lemma {:induction false} PowerAboveGrows(n: nat, m: nat)
    requires n <= m
    ensures PowerAbove(n) <= PowerAbove(m)
  {
    if n >= 10 {
      PowerAboveGrows(n / 10, m / 10);
    } else if m >= 10 {
      assert PowerAbove(m / 10) > 0;
    }
  }

  lemma PortNumbersDiffer(n: nat, m: nat)
    ensures PortNumber(n) == PortNumber(m) <==> n == m
  {
    if n < m {
      PowerAboveGrows(n, m);
    } else if m < n {
      PowerAboveGrows(m, n);
    }
  }

  /** The number behind the leading 4: members is nb_parameters + 1, i the member without the master. Only when the
      master is on "localhost" does it depend on the sample. */
  function GroupSlot(name: string, sample: nat, rank: nat, i: nat, commSize: nat, members: nat): nat {
    if name == LOCALHOST then 100 + (sample * commSize * members + rank * members + i)
    else 100 + rank * members + i
  }

  /** The port that rank `rank` of the master of group `sample` binds for slot i; name is the master's node as this rank
      knows it. */
  function BindPort(name: string, sample: nat, rank: nat, i: nat, commSize: nat, nbParameters: nat): nat {
    PortNumber(GroupSlot(name, sample, rank, i, commSize, nbParameters + 1))
  }

  /** The port that rank `rank` of member sobolRank connects to; name is the answer it got from the master. */
  function ConnectPort(name: string, sample: nat, rank: nat, sobolRank: nat, commSize: nat, nbParameters: nat): nat
    requires sobolRank > 0
  {
    PortNumber(GroupSlot(name, sample, rank, sobolRank - 1, commSize, nbParameters + 1))
  }

  /** The loop of the master: one socket for every other member of the group. */
  method BindAll(name: string, sample: nat, rank: nat, commSize: nat, nbParameters: nat) returns (ports: seq<nat>)
    ensures |ports| == nbParameters + 1
    ensures forall i :: 0 <= i < |ports| ==> ports[i] == BindPort(name, sample, rank, i, commSize, nbParameters)
  {
    ports := [];
    for i := 0 to nbParameters + 1
      invariant |ports| == i
      invariant forall k :: 0 <= k < i ==> ports[k] == BindPort(name, sample, rank, k, commSize, nbParameters)
    {
      var slot;
      if name == LOCALHOST {
        slot := 100 + (sample * commSize * (nbParameters + 1) + rank * (nbParameters + 1) + i);
      } else {
        slot := 100 + rank * (nbParameters + 1) + i;
      }
      ports := ports + [PortNumber(slot)];
    }
  }

  /** Up to 900 slots the ports of a group run from 4100 on, slot by slot and rank after rank. */
  lemma SmallPorts(name: string, sample: nat, rank: nat, i: nat, commSize: nat, nbParameters: nat)
    requires name != LOCALHOST && rank * (nbParameters + 1) + i < 900
    ensures BindPort(name, sample, rank, i, commSize, nbParameters) == 4100 + rank * (nbParameters + 1) + i
  {
    var n := 100 + rank * (nbParameters + 1) + i;
    assert PowerAbove(n) == 10 * PowerAbove(n / 10) && PowerAbove(n / 10) == 10 * PowerAbove(n / 10 / 10);
    assert n / 10 / 10 < 10;
  }

  /** The sample as far as the formula uses it. */
  function UsedSample(name: string, sample: nat): nat {
    if name == LOCALHOST then sample else 0
  }

  lemma SlotForm(name: string, s: nat, r: nat, i: nat, commSize: nat, members: nat)
    ensures GroupSlot(name, s, r, i, commSize, members)
         == 100 + (members * (commSize * UsedSample(name, s) + r) + i)
  {
    var u := UsedSample(name, s);
    assert u * commSize * members == members * (commSize * u);
    assert members * (commSize * u + r) == members * (commSize * u) + members * r;
    assert u == 0 ==> commSize * u == 0;
  }

  /** Two ports are equal if and only if rank and member agree and the formulas use the same sample. */
  lemma GroupPorts(name: string, s: nat, r: nat, i: nat, other: string, t: nat, q: nat, j: nat, commSize: nat,
                   members: nat)
    requires r < commSize && q < commSize && i < members && j < members
    ensures PortNumber(GroupSlot(name, s, r, i, commSize, members))
            == PortNumber(GroupSlot(other, t, q, j, commSize, members))
       <==> r == q && i == j && UsedSample(name, s) == UsedSample(other, t)
  {
    PortNumbersDiffer(GroupSlot(name, s, r, i, commSize, members), GroupSlot(other, t, q, j, commSize, members));
    SlotForm(name, s, r, i, commSize, members);
    SlotForm(other, t, q, j, commSize, members);
    var u, v := UsedSample(name, s), UsedSample(other, t);
    if GroupSlot(name, s, r, i, commSize, members) == GroupSlot(other, t, q, j, commSize, members) {
      QuotientUnique(members, commSize * u + r, i, commSize * v + q, j);
      QuotientUnique(commSize, u, r, v, q);
    }
  }

  /** Main result: groups whose masters know their node by one name bind different ports for different (sample, rank,
      member) only if that name is "localhost"; under any other name groups that differ in the sample alone collide. */
  lemma GroupPortsDiffer(name: string, s: nat, r: nat, i: nat, t: nat, q: nat, j: nat, commSize: nat, nbParameters: nat)
    requires r < commSize && q < commSize && i <= nbParameters && j <= nbParameters
    ensures BindPort(name, s, r, i, commSize, nbParameters) == BindPort(name, t, q, j, commSize, nbParameters)
       <==> r == q && i == j && (s == t || name != LOCALHOST)
  {
    GroupPorts(name, s, r, i, name, t, q, j, commSize, nbParameters + 1);
  }

  /** Two groups on one node that is not called "localhost". */
  lemma MastersCollide()
    ensures BindPort("node7", 0, 0, 0, 1, 1) == BindPort("node7", 1, 0, 0, 1, 1)
  {
    GroupPortsDiffer("node7", 0, 0, 0, 1, 0, 0, 1, 1);
  }

  // ---- the name that decides ----

  /** The master's name on its rank `rank` when the names are gathered: the environment variable, which rank 0 replaces
      by its node if it is missing or empty. */
  function HeldName(env: string, node: string, rank: nat): string {
    if rank == 0 && (env == NOT_SET || env == "") then node else env
  }

  /** The name that rank goes on with. */
  function BindName(env: string, node: string, rank: nat): string {
    if HeldName(env, node, rank) == NOT_SET then LOCALHOST else HeldName(env, node, rank)
  }

  /** What rank 0 of the master answers rank `rank` of a worker: "localhost", or the gathered name. */
  function AnsweredName(env: string, node: string, rank: nat): string {
    if BindName(env, node, 0) == LOCALHOST then LOCALHOST else HeldName(env, node, rank)
  }

  /** Main result: rank `rank` of member sobolRank connects to the port that rank `other` of its master bound for slot i
      if and only if it is the same rank and the member's own slot, and both use the same formula: the sample is 0, or
      the environment names the master, or it is rank 0, or the environment variable is not set and the node is
      "localhost" or nameless, or it is empty and the node is neither. So it reaches its own port or none of them. */
  lemma WorkerMeetsMaster(env: string, node: string, sample: nat, rank: nat, other: nat, i: nat, sobolRank: nat,
                          commSize: nat, nbParameters: nat)
    requires rank < commSize && other < commSize && i <= nbParameters && 0 < sobolRank <= nbParameters + 1
    ensures var isLocal := node == LOCALHOST || node == NOT_SET;
            (ConnectPort(AnsweredName(env, node, rank), sample, rank, sobolRank, commSize, nbParameters)
             == BindPort(BindName(env, node, other), sample, other, i, commSize, nbParameters)
             <==> other == rank && i == sobolRank - 1
                  && (|| sample == 0 || rank == 0 || (env != NOT_SET && env != "")
                      || (env == NOT_SET && isLocal) || (env == "" && !isLocal)))
  {
    GroupPorts(AnsweredName(env, node, rank), sample, rank, sobolRank - 1, BindName(env, node, other), sample, other, i,
               commSize, nbParameters + 1);
  }

  /** Without the environment variable, the second rank of a worker misses its master: that one binds as on "localhost",
      the worker is answered "(null)". */
  lemma WorkerMissesMaster()
    ensures ConnectPort(AnsweredName(NOT_SET, "node7", 1), 1, 1, 1, 2, 1)
         != BindPort(BindName(NOT_SET, "node7", 1), 1, 1, 0, 2, 1)
  {
    WorkerMeetsMaster(NOT_SET, "node7", 1, 1, 1, 0, 1, 2, 1);
  }
}
