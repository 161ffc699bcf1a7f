/** The N x M communication pattern of one field (comm_n_to_m_init and melissa_send,
    api/melissa_api.c). Client rank r and server rank j exchange the points both own. */
module Redistribution {
  import opened Partition

  /** Two partitions of the same non-empty global vector. */
  predicate SameVector(clients: seq<nat>, servers: seq<nat>) {
    clients != [] && servers != [] && Total(clients) == Total(servers) > 0
  }

  function Max(a: nat, b: nat): nat { if a < b then b else a }

  function Min(a: nat, b: nat): nat { if a < b then a else b }

  /** First global index shared by client r and server j, and the number of shared points. */
  function SharedFrom(clients: seq<nat>, servers: seq<nat>, r: nat, j: nat): nat
    requires r < |clients| && j < |servers|
  {
    Max(Prefix(clients, r), Prefix(servers, j))
  }

  function SharedCount(clients: seq<nat>, servers: seq<nat>, r: nat, j: nat): nat
    requires r < |clients| && j < |servers|
  {
    SharedBefore(clients, servers, r, j, Min(Prefix(clients, r + 1), Prefix(servers, j + 1)))
  }

  /** Shared points with a global index below i. */
  function SharedBefore(clients: seq<nat>, servers: seq<nat>, r: nat, j: nat, i: nat): nat
    requires r < |clients| && j < |servers|
  {
    var from := SharedFrom(clients, servers, r, j);
    var to := Min(i, Min(Prefix(clients, r + 1), Prefix(servers, j + 1)));
    if from < to then to - from else 0
  }

  // ---- what the loops compute ----

  /** send_counts[j] on client rank r after i points. */
  function SentCount(clients: seq<nat>, servers: seq<nat>, r: nat, j: nat, i: nat): nat
    requires SameVector(clients, servers) && i <= Total(clients)
  {
    if i == 0 then 0
    else
      SentCount(clients, servers, r, j, i - 1)
      + if Attributed(clients, i - 1) == r && Attributed(servers, i - 1) == j then 1 else 0
  }

  /** Whether the i-th point opens a new rank. */
  predicate Opens(sizes: seq<nat>, i: nat)
    requires sizes != [] && 0 < i <= Total(sizes)
  {
    Walk(sizes, i - 1).count >= sizes[Walk(sizes, i - 1).rank]
  }

  /** The (push_rank, pull_rank) list after i points. */
  function Messages(clients: seq<nat>, servers: seq<nat>, i: nat): (list: seq<(nat, nat)>)
    requires SameVector(clients, servers) && i <= Total(clients)
    ensures list != []
  {
    if i == 0 then [(0, 0)]
    else
      var list := Messages(clients, servers, i - 1);
      if Opens(clients, i) || Opens(servers, i)
      then list + [(Walk(clients, i).rank, Walk(servers, i).rank)]
      else list
  }

  function MessageList(clients: seq<nat>, servers: seq<nat>): seq<(nat, nat)>
    requires SameVector(clients, servers)
  {
    Messages(clients, servers, Total(clients))
  }

  /** Number of entries sent by client r. */
  function CountFrom(list: seq<(nat, nat)>, r: nat): nat {
    if list == [] then 0
    else CountFrom(list[..|list| - 1], r) + if list[|list| - 1].0 == r then 1 else 0
  }

  /** sdispls[j] on client r. */
  function Displacement(clients: seq<nat>, servers: seq<nat>, r: nat, j: nat): nat
    requires SameVector(clients, servers)
  {
    if j == 0 then 0
    else Displacement(clients, servers, r, j - 1) + SentCount(clients, servers, r, j - 1, Total(clients))
  }

  // ---- send counts and displacements ----

  lemma {:induction false} SentCountIsShared(clients: seq<nat>, servers: seq<nat>, r: nat, j: nat, i: nat)
    requires SameVector(clients, servers) && NoGap(clients) && Compact(servers)
    requires r < |clients| && j < |servers| && i <= Total(clients)
    ensures SentCount(clients, servers, r, j, i) == SharedBefore(clients, servers, r, j, i)
  {
    if i > 0 {
      SentCountIsShared(clients, servers, r, j, i - 1);
      AttributedIsOwner(clients, i - 1, r);
      AttributedIsOwner(servers, i - 1, j);
    }
  }

  /** Every client sends each server exactly the points they share. */
  lemma SendCounts(clients: seq<nat>, servers: seq<nat>, r: nat, j: nat)
    requires SameVector(clients, servers) && NoGap(clients) && Compact(servers)
    requires r < |clients| && j < |servers|
    ensures SentCount(clients, servers, r, j, Total(clients)) == SharedCount(clients, servers, r, j)
  {
    SentCountIsShared(clients, servers, r, j, Total(clients));
    PrefixMonotone(clients, r + 1, |clients|);
  }

  /** Displacements are the global positions of the server blocks, clamped to the client's own block. */
  lemma {:induction false} DisplacementIsOffset(clients: seq<nat>, servers: seq<nat>, r: nat, j: nat)
    requires SameVector(clients, servers) && NoGap(clients) && Compact(servers)
    requires r < |clients| && j <= |servers|
    ensures Displacement(clients, servers, r, j)
         == Max(Prefix(clients, r), Min(Prefix(servers, j), Prefix(clients, r + 1))) - Prefix(clients, r)
  {
    if j > 0 {
      DisplacementIsOffset(clients, servers, r, j - 1);
      SendCounts(clients, servers, r, j - 1);
    }
  }

  /** Where the slice lies: within the client's block, at the shared global positions. */
  lemma SliceBounds(clients: seq<nat>, servers: seq<nat>, r: nat, j: nat)
    requires SameVector(clients, servers) && NoGap(clients) && Compact(servers)
    requires r < |clients| && j < |servers|
    ensures var n := SharedCount(clients, servers, r, j);
            var d := Displacement(clients, servers, r, j);
            && Prefix(clients, r) + d + n <= Prefix(clients, r + 1) <= Total(clients)
            && (n > 0 ==> Prefix(clients, r) + d == SharedFrom(clients, servers, r, j))
  {
    PrefixMonotone(clients, r + 1, |clients|);
    DisplacementIsOffset(clients, servers, r, j);
  }

  /** The global points that client r and server j share. */
  function SharedPoints<T>(clients: seq<nat>, servers: seq<nat>, r: nat, j: nat, global: seq<T>): (v: seq<T>)
    requires SameVector(clients, servers) && r < |clients| && j < |servers| && |global| == Total(clients)
    ensures |v| == SharedCount(clients, servers, r, j)
  {
    PrefixMonotone(clients, r + 1, |clients|);
    var from, n := SharedFrom(clients, servers, r, j), SharedCount(clients, servers, r, j);
    if n == 0 then [] else global[from..from + n]
  }

  /** The block of the global vector that client r holds. */
  function LocalBlock<T>(clients: seq<nat>, r: nat, global: seq<T>): seq<T>
    requires r < |clients| && |global| == Total(clients)
  {
    PrefixMonotone(clients, r + 1, |clients|);
    global[Prefix(clients, r)..Prefix(clients, r + 1)]
  }

  lemma SubSlice<T>(s: seq<T>, a: nat, b: nat, d: nat, n: nat)
    requires a + d + n <= b <= |s|
    ensures s[a..b][d..d + n] == s[a + d..a + d + n]
  {
    var t, u := s[a..b][d..d + n], s[a + d..a + d + n];
    forall k | 0 <= k < n ensures t[k] == u[k] {
      assert t[k] == s[a..b][d + k] == s[a + (d + k)];
    }
    assert t == u;
  }

  /** The slice client r cuts for server j holds exactly the shared points of the global vector. */
  lemma SliceIsShared<T>(clients: seq<nat>, servers: seq<nat>, r: nat, j: nat, global: seq<T>)
    requires SameVector(clients, servers) && NoGap(clients) && Compact(servers)
    requires r < |clients| && j < |servers| && |global| == Total(clients)
    ensures var local := LocalBlock(clients, r, global);
            var d := Displacement(clients, servers, r, j);
            var n := SentCount(clients, servers, r, j, Total(clients));
            d + n <= |local| && local[d..d + n] == SharedPoints(clients, servers, r, j, global)
  {
    hide *;
    SendCounts(clients, servers, r, j);
    SliceBounds(clients, servers, r, j);
    BlockAt(clients, r, global);
    SharedAt(clients, servers, r, j, global, Prefix(clients, r) + Displacement(clients, servers, r, j));
    Cut(global, LocalBlock(clients, r, global), Prefix(clients, r), Prefix(clients, r + 1),
        Displacement(clients, servers, r, j), SentCount(clients, servers, r, j, Total(clients)),
        SharedPoints(clients, servers, r, j, global));
  }

  lemma BlockAt<T>(clients: seq<nat>, r: nat, global: seq<T>)
    requires r < |clients| && |global| == Total(clients)
    ensures Prefix(clients, r) <= Prefix(clients, r + 1) <= |global|
    ensures LocalBlock(clients, r, global) == global[Prefix(clients, r)..Prefix(clients, r + 1)]
  {
    PrefixMonotone(clients, r + 1, |clients|);
  }

  lemma Cut<T>(s: seq<T>, local: seq<T>, a: nat, b: nat, d: nat, n: nat, shared: seq<T>)
    requires a + d + n <= b <= |s| && local == s[a..b] && shared == s[a + d..a + d + n]
    ensures d + n <= |local| && local[d..d + n] == shared
  {
    SubSlice(s, a, b, d, n);
  }

  lemma SharedAt<T>(clients: seq<nat>, servers: seq<nat>, r: nat, j: nat, global: seq<T>, from: nat)
    requires SameVector(clients, servers) && r < |clients| && j < |servers| && |global| == Total(clients)
    requires var n := SharedCount(clients, servers, r, j);
             from + n <= |global| && (n > 0 ==> from == SharedFrom(clients, servers, r, j))
    ensures SharedPoints(clients, servers, r, j, global) == global[from..from + SharedCount(clients, servers, r, j)]
  {
    hide SharedBefore;
  }

  // ---- the message list ----

  /** Some point below i is attributed to client r and server j. */
  ghost predicate Meet(clients: seq<nat>, servers: seq<nat>, i: nat, r: nat, j: nat)
    requires SameVector(clients, servers) && i <= Total(clients)
  {
    exists p: nat :: p < i && Attributed(clients, p) == r && Attributed(servers, p) == j
  }

  lemma MeetStep(clients: seq<nat>, servers: seq<nat>, i: nat, r: nat, j: nat)
    requires SameVector(clients, servers) && i < Total(clients)
    ensures Meet(clients, servers, i + 1, r, j)
       <==> Meet(clients, servers, i, r, j) || (Attributed(clients, i) == r && Attributed(servers, i) == j)
  {
  }

  /** Each point's pair is appended, or is the last entry already. */
  lemma PairIsLast(clients: seq<nat>, servers: seq<nat>, i: nat)
    requires SameVector(clients, servers) && i < Total(clients)
    ensures var before, list := Messages(clients, servers, i), Messages(clients, servers, i + 1);
            var pair := (Attributed(clients, i), Attributed(servers, i));
            list == before + [pair] || (list == before && before[|before| - 1] == pair)
  {
    LastEntry(clients, servers, i);
    WalkStep(clients, i + 1);
    WalkStep(servers, i + 1);
  }

  /** Listed exactly when some point is attributed to both ranks, or for the entry the list starts with. */
  lemma {:induction false} ListedPairs(clients: seq<nat>, servers: seq<nat>, i: nat, r: nat, j: nat)
    requires SameVector(clients, servers) && i <= Total(clients)
    ensures (r, j) in Messages(clients, servers, i) <==> (r, j) == (0, 0) || Meet(clients, servers, i, r, j)
  {
    if i == 0 {
      assert Messages(clients, servers, 0) == [(0, 0)];
    } else {
      hide *;
      ListedPairs(clients, servers, i - 1, r, j);
      MeetStep(clients, servers, i - 1, r, j);
      PairIsLast(clients, servers, i - 1);
      MemberOfExtended(Messages(clients, servers, i - 1), Messages(clients, servers, i),
                       (Attributed(clients, i - 1), Attributed(servers, i - 1)), (r, j));
    }
  }

  lemma MemberOfExtended<T>(before: seq<T>, list: seq<T>, pair: T, x: T)
    requires before != [] && (list == before + [pair] || (list == before && before[|before| - 1] == pair))
    ensures x in list <==> x in before || x == pair
  {
  }

  predicate Increasing(list: seq<(nat, nat)>) {
    forall a, b :: 0 <= a < b < |list| ==>
      list[a].0 <= list[b].0 && list[a].1 <= list[b].1 && list[a] != list[b]
  }

  lemma IncreasingAppend(list: seq<(nat, nat)>, x: (nat, nat))
    requires Increasing(list) && list != []
    requires var last := list[|list| - 1]; last.0 <= x.0 && last.1 <= x.1 && last != x
    ensures Increasing(list + [x])
  {
  }

  lemma {:induction false} LastEntry(clients: seq<nat>, servers: seq<nat>, i: nat)
    requires SameVector(clients, servers) && i <= Total(clients)
    ensures var list := Messages(clients, servers, i);
            list[|list| - 1] == (Walk(clients, i).rank, Walk(servers, i).rank)
  {
    if i > 0 {
      LastEntry(clients, servers, i - 1);
    }
  }

  lemma WalkStep(sizes: seq<nat>, i: nat)
    requires sizes != [] && 0 < i <= Total(sizes)
    ensures Walk(sizes, i).rank == Walk(sizes, i - 1).rank + if Opens(sizes, i) then 1 else 0
  {
  }

  lemma {:induction false} ListIncreases(clients: seq<nat>, servers: seq<nat>, i: nat)
    requires SameVector(clients, servers) && i <= Total(clients)
    ensures Increasing(Messages(clients, servers, i))
  {
    if i > 0 {
      ListIncreases(clients, servers, i - 1);
      LastEntry(clients, servers, i - 1);
      WalkStep(clients, i);
      WalkStep(servers, i);
      MessagesUnfold(clients, servers, i);
      hide *;
      if Opens(clients, i) || Opens(servers, i) {
        IncreasingAppend(Messages(clients, servers, i - 1), (Walk(clients, i).rank, Walk(servers, i).rank));
      }
    }
  }

  lemma MessagesUnfold(clients: seq<nat>, servers: seq<nat>, i: nat)
    requires SameVector(clients, servers) && 0 < i <= Total(clients)
    ensures Messages(clients, servers, i)
         == Messages(clients, servers, i - 1)
            + if Opens(clients, i) || Opens(servers, i) then [(Walk(clients, i).rank, Walk(servers, i).rank)] else []
  {
    hide Opens;
    hide Walk;
  }

  lemma {:induction false} ListLength(clients: seq<nat>, servers: seq<nat>, i: nat)
    requires SameVector(clients, servers) && i <= Total(clients)
    ensures |Messages(clients, servers, i)| <= 1 + Walk(clients, i).rank + Walk(servers, i).rank
  {
    if i > 0 {
      ListLength(clients, servers, i - 1);
      WalkStep(clients, i);
      WalkStep(servers, i);
    }
  }

  /** The list is sorted, has no repeats and has at most N + M - 1 entries. */
  lemma ListShape(clients: seq<nat>, servers: seq<nat>)
    requires SameVector(clients, servers)
    ensures Increasing(MessageList(clients, servers))
    ensures |MessageList(clients, servers)| <= |clients| + |servers| - 1
  {
    ListIncreases(clients, servers, Total(clients));
    ListLength(clients, servers, Total(clients));
  }

  ghost predicate ListsExactlySharedPairs(clients: seq<nat>, servers: seq<nat>)
    requires SameVector(clients, servers)
  {
    forall r: nat, j: nat :: (r, j) in MessageList(clients, servers)
      <==> r < |clients| && j < |servers| && SharedCount(clients, servers, r, j) > 0
  }

  lemma MeetIsShare(clients: seq<nat>, servers: seq<nat>, r: nat, j: nat)
    requires SameVector(clients, servers) && NoGap(clients) && Compact(servers)
    ensures Meet(clients, servers, Total(clients), r, j)
       <==> r < |clients| && j < |servers| && SharedCount(clients, servers, r, j) > 0
  {
    if Meet(clients, servers, Total(clients), r, j) {
      var p: nat :| p < Total(clients) && Attributed(clients, p) == r && Attributed(servers, p) == j;
      AttributedIsOwner(clients, p, r);
      AttributedIsOwner(servers, p, j);
    }
    if r < |clients| && j < |servers| && SharedCount(clients, servers, r, j) > 0 {
      var p := SharedFrom(clients, servers, r, j);
      PrefixMonotone(clients, r + 1, |clients|);
      AttributedIsOwner(clients, p, r);
      AttributedIsOwner(servers, p, j);
    }
  }

  /** A point both ranks own puts the pair on the list, and nothing else but the first entry does. */
  lemma ListHoldsSharers(clients: seq<nat>, servers: seq<nat>, r: nat, j: nat)
    requires SameVector(clients, servers) && NoGap(clients) && Compact(servers)
    ensures (r, j) in MessageList(clients, servers)
       <==> (r, j) == (0, 0) || (r < |clients| && j < |servers| && SharedCount(clients, servers, r, j) > 0)
  {
    ListedPairs(clients, servers, Total(clients), r, j);
    MeetIsShare(clients, servers, r, j);
  }

  lemma FirstRanksShare(clients: seq<nat>, servers: seq<nat>)
    requires SameVector(clients, servers) && Compact(clients) && Compact(servers)
    ensures SharedCount(clients, servers, 0, 0) > 0
  {
    if clients[0] == 0 {
      ZeroTail(clients, 0, |clients|);
    }
    if servers[0] == 0 {
      ZeroTail(servers, 0, |servers|);
    }
  }

  /** With the server's balanced partition, the list holds exactly the pairs that share points
      if and only if no client rank without points comes before one with points. */
  lemma MessageListExactness(clients: seq<nat>, servers: seq<nat>)
    requires SameVector(clients, servers) && IsBalanced(servers, Total(servers))
    ensures ListsExactlySharedPairs(clients, servers) <==> Compact(clients)
  {
    BalancedIsPartition(servers, Total(servers));
    if NoGap(clients) {
      forall r: nat, j: nat ensures (r, j) in MessageList(clients, servers)
        <==> (r, j) == (0, 0) || (r < |clients| && j < |servers| && SharedCount(clients, servers, r, j) > 0)
      {
        ListHoldsSharers(clients, servers, r, j);
      }
      if Compact(clients) {
        FirstRanksShare(clients, servers);
      } else {
        assert clients[0] == 0;
        assert (0, 0) in MessageList(clients, servers);
        assert SharedCount(clients, servers, 0, 0) == 0;
      }
    } else {
      var z, p := EmptyRankIsGivenAPoint(clients);
      var j := Attributed(servers, p);
      ListedPairs(clients, servers, Total(clients), z, j);
      assert Meet(clients, servers, Total(clients), z, j);
      assert (z, j) in MessageList(clients, servers);
      assert SharedCount(clients, servers, z, j) == 0;
    }
  }

  /** Every slice that is cut lies inside the block of the client that cuts it. */
  ghost predicate SlicesInBlocks(clients: seq<nat>, servers: seq<nat>)
    requires SameVector(clients, servers)
  {
    forall r, j :: 0 <= r < |clients| && 0 <= j < |servers| ==>
      Displacement(clients, servers, r, j) + SentCount(clients, servers, r, j, Total(clients)) <= clients[r]
  }

  lemma {:induction false} SentCountGrows(clients: seq<nat>, servers: seq<nat>, p: nat, i: nat)
    requires SameVector(clients, servers) && p < i <= Total(clients)
    ensures SentCount(clients, servers, Attributed(clients, p), Attributed(servers, p), i) > 0
    decreases i
  {
    if p + 1 < i {
      SentCountGrows(clients, servers, p, i - 1);
    }
  }

  /** Cutting is safe if and only if no empty rank other than rank 0 comes before a rank with points;
      otherwise some client reads past the end of its block. */
  lemma SlicesInBlocksExactly(clients: seq<nat>, servers: seq<nat>)
    requires SameVector(clients, servers) && IsBalanced(servers, Total(servers))
    ensures SlicesInBlocks(clients, servers) <==> NoGap(clients)
  {
    BalancedIsPartition(servers, Total(servers));
    if NoGap(clients) {
      forall r, j | 0 <= r < |clients| && 0 <= j < |servers|
        ensures Displacement(clients, servers, r, j) + SentCount(clients, servers, r, j, Total(clients)) <= clients[r]
      {
        SendCounts(clients, servers, r, j);
        SliceBounds(clients, servers, r, j);
      }
    } else {
      var z, p := EmptyRankIsGivenAPoint(clients);
      SentCountGrows(clients, servers, p, Total(clients));
    }
  }

  /** Three client ranks, the middle one empty, and one server. */
  lemma EmptyRankBetween(clients: seq<nat>, servers: seq<nat>)
    requires clients == [1, 0, 1] && servers == [2]
    ensures SameVector(clients, servers) && IsBalanced(servers, Total(servers))
    ensures !SlicesInBlocks(clients, servers) && !ListsExactlySharedPairs(clients, servers)
  {
    assert Prefix(servers, 0) == 0 && Prefix(servers, 1) == 2;
    assert Prefix(clients, 0) == 0 && Prefix(clients, 1) == 1 && Prefix(clients, 2) == 1 && Prefix(clients, 3) == 2;
    assert clients[1] == 0 && clients[2] == 1;
    SlicesInBlocksExactly(clients, servers);
    MessageListExactness(clients, servers);
  }

  // ---- the imperative form ----

  /** Server ranks that client r sends to, in list order. */
  function PullsFrom(list: seq<(nat, nat)>, r: nat): (pulls: seq<nat>)
    ensures |pulls| == CountFrom(list, r)
    ensures forall j :: j in pulls <==> (r, j) in list
  {
    if list == [] then []
    else
      var n := |list| - 1;
      assert list == list[..n] + [list[n]];
      PullsFrom(list[..n], r) + if list[n].0 == r then [list[n].1] else []
  }

  lemma {:induction false} PullsIncrease(list: seq<(nat, nat)>, r: nat)
    requires Increasing(list)
    ensures forall a, b :: 0 <= a < b < |PullsFrom(list, r)| ==> PullsFrom(list, r)[a] < PullsFrom(list, r)[b]
  {
    if list != [] {
      var n := |list| - 1;
      var pulls := PullsFrom(list[..n], r);
      PullsIncrease(list[..n], r);
      if list[n].0 == r {
        forall a | 0 <= a < |pulls| ensures pulls[a] < list[n].1 {
          assert pulls[a] in pulls;
          assert (r, pulls[a]) in list[..n];
          var b :| 0 <= b < n && list[b] == (r, pulls[a]);
        }
      }
    }
  }

  /** If entry i is r's, it is r's message number CountFrom(list[..i], r). */
  lemma {:induction false} PullsPrefix(list: seq<(nat, nat)>, i: nat, r: nat)
    requires i < |list| && list[i].0 == r
    ensures var k := CountFrom(list[..i], r); k < |PullsFrom(list, r)| && PullsFrom(list, r)[k] == list[i].1
    decreases |list|
  {
    var n := |list| - 1;
    if i < n {
      assert list[..n][..i] == list[..i];
      PullsPrefix(list[..n], i, r);
    }
  }

  lemma CountFromPrefix(list: seq<(nat, nat)>, i: nat, r: nat)
    requires i < |list|
    ensures CountFrom(list[..i + 1], r) == CountFrom(list[..i], r) + if list[i].0 == r then 1 else 0
    ensures PullsFrom(list[..i + 1], r) == PullsFrom(list[..i], r) + if list[i].0 == r then [list[i].1] else []
  {
    assert list[..i + 1][..i] == list[..i];
  }

  lemma {:induction false} CountFromMonotone(list: seq<(nat, nat)>, i: nat, r: nat)
    requires i <= |list|
    ensures CountFrom(list[..i], r) <= CountFrom(list, r)
    decreases |list| - i
  {
    if i < |list| {
      CountFromPrefix(list, i, r);
      CountFromMonotone(list, i + 1, r);
    } else {
      assert list[..i] == list;
    }
  }

  lemma {:induction false} MessagesExtend(clients: seq<nat>, servers: seq<nat>, i: nat, k: nat)
    requires SameVector(clients, servers) && i <= k <= Total(clients)
    ensures Messages(clients, servers, i) <= Messages(clients, servers, k)
    decreases k - i
  {
    if i < k {
      MessagesExtend(clients, servers, i, k - 1);
    }
  }

  /** A slice on its way to a server rank; no global index travels with it. */
  datatype Packet = Packet(to: nat, clientRank: nat, vectors: seq<seq<real>>)

  /** The if/else both loops share: the rank that gets the next point, and whether it is a new rank. */
  method NextPoint(sizes: seq<nat>, ghost i: nat, rank: nat, count: nat) returns (r: nat, c: nat, isNew: bool)
    requires sizes != [] && i < Total(sizes) && Walk(sizes, i) == Walker(rank, count)
    ensures Walk(sizes, i + 1) == Walker(r, c) && isNew == Opens(sizes, i + 1) && r == Attributed(sizes, i)
  {
    if count < sizes[rank] {
      r, c, isNew := rank, count + 1, false;
    } else {
      r, c, isNew := rank + 1, 1, true;
    }
  }

  /** How the message list grows with point i. */
  lemma MessagesGrow(clients: seq<nat>, servers: seq<nat>, i: nat)
    requires SameVector(clients, servers) && i < Total(clients)
    ensures var list, next := Messages(clients, servers, i), Messages(clients, servers, i + 1);
            && next == (if Opens(clients, i + 1) || Opens(servers, i + 1)
                        then list + [(Attributed(clients, i), Attributed(servers, i))] else list)
            && |next| <= |MessageList(clients, servers)|
  {
    MessagesExtend(clients, servers, i + 1, Total(clients));
  }

  lemma CountFromAppend(list: seq<(nat, nat)>, entry: (nat, nat), rank: nat)
    ensures CountFrom(list + [entry], rank) == CountFrom(list, rank) + if entry.0 == rank then 1 else 0
  {
    assert (list + [entry])[..|list|] == list;
  }

  lemma NoPointsYet(clients: seq<nat>, servers: seq<nat>, rank: nat)
    requires SameVector(clients, servers)
    ensures Messages(clients, servers, 0) == [(0, 0)] && Walk(clients, 0) == Walk(servers, 0) == Walker(0, 0)
    ensures CountFrom([(0, 0)], rank) == if rank == 0 then 1 else 0
  {
    assert [(0, 0)][..0] == [];
  }

  /** First loop of comm_n_to_m_init: counts of points and of messages on client `rank`. */
  method CountPoints(clients: seq<nat>, servers: seq<nat>, rank: nat, sendCounts: array<nat>)
    returns (totalNbMessages: nat, localNbMessages: nat)
    requires SameVector(clients, servers) && sendCounts.Length == |servers|
    requires forall j :: 0 <= j < |servers| ==> sendCounts[j] == 0
    modifies sendCounts
    ensures totalNbMessages == |MessageList(clients, servers)|
    ensures localNbMessages == CountFrom(MessageList(clients, servers), rank)
    ensures forall j :: 0 <= j < |servers| ==>
              sendCounts[j] == SentCount(clients, servers, rank, j, Total(clients))
  {
    ghost var list: seq<(nat, nat)> := [(0, 0)];
    hide Messages;
    hide Walk;
    hide Prefix;
    hide CountFrom;
    NoPointsYet(clients, servers, rank);
    totalNbMessages, localNbMessages := 1, if rank == 0 then 1 else 0;
    var clientRank: nat, clientCount: nat, serverRank: nat, serverCount: nat := 0, 0, 0, 0;
    var n := Total(clients);
    for i := 0 to n
      invariant Walk(clients, i) == Walker(clientRank, clientCount)
      invariant Walk(servers, i) == Walker(serverRank, serverCount)
      invariant list == Messages(clients, servers, i)
      invariant totalNbMessages == |list| && localNbMessages == CountFrom(list, rank)
      invariant forall j :: 0 <= j < |servers| ==> sendCounts[j] == SentCount(clients, servers, rank, j, i)
    {
      var newClient, newServer;
      clientRank, clientCount, newClient := NextPoint(clients, i, clientRank, clientCount);
      serverRank, serverCount, newServer := NextPoint(servers, i, serverRank, serverCount);
      MessagesGrow(clients, servers, i);
      CountFromAppend(list, (clientRank, serverRank), rank);
      list := Messages(clients, servers, i + 1);
      if clientRank == rank {
        sendCounts[serverRank] := sendCounts[serverRank] + 1;
      }
      if newClient || newServer {
        totalNbMessages := totalNbMessages + 1;
        if clientRank == rank {
          localNbMessages := localNbMessages + 1;
        }
      }
    }
  }

  /** push_rank and pull_rank start with the two halves of the list. */
  predicate StartsListed(list: seq<(nat, nat)>, push: seq<nat>, pull: seq<nat>) {
    |list| <= |push| == |pull| && forall k :: 0 <= k < |list| ==> list[k] == (push[k], pull[k])
  }

  /** They hold exactly them. */
  predicate IsListed(list: seq<(nat, nat)>, push: seq<nat>, pull: seq<nat>) {
    |list| == |push| && StartsListed(list, push, pull)
  }

  method StoreEntry(push: array<nat>, pull: array<nat>, k: nat, clientRank: nat, serverRank: nat,
                    ghost list: seq<(nat, nat)>)
    requires push != pull && k == |list| < push.Length == pull.Length && StartsListed(list, push[..], pull[..])
    modifies push, pull
    ensures StartsListed(list + [(clientRank, serverRank)], push[..], pull[..])
  {
    push[k] := clientRank;
    pull[k] := serverRank;
  }

  /** Second loop of comm_n_to_m_init: it fills exactly the slots counted by the first. */
  method FillMessageList(clients: seq<nat>, servers: seq<nat>, push: array<nat>, pull: array<nat>)
    requires SameVector(clients, servers) && push != pull
    requires push.Length == pull.Length == |MessageList(clients, servers)|
    modifies push, pull
    ensures IsListed(MessageList(clients, servers), push[..], pull[..])
  {
    ghost var list: seq<(nat, nat)> := [(0, 0)];
    hide Messages;
    hide Walk;
    hide Prefix;
    hide CountFrom;
    NoPointsYet(clients, servers, 0);
    push[0], pull[0] := 0, 0;
    assert StartsListed(list, push[..], pull[..]);
    hide StartsListed;
    var nbMessages: nat := 0;
    var clientRank: nat, clientCount: nat, serverRank: nat, serverCount: nat := 0, 0, 0, 0;
    var n := Total(clients);
    for i := 0 to n
      invariant Walk(clients, i) == Walker(clientRank, clientCount)
      invariant Walk(servers, i) == Walker(serverRank, serverCount)
      invariant list == Messages(clients, servers, i)
      invariant nbMessages + 1 == |list| <= push.Length
      invariant StartsListed(list, push[..], pull[..])
    {
      var newClient, newServer;
      clientRank, clientCount, newClient := NextPoint(clients, i, clientRank, clientCount);
      serverRank, serverCount, newServer := NextPoint(servers, i, serverRank, serverCount);
      MessagesGrow(clients, servers, i);
      if newClient || newServer {
        nbMessages := nbMessages + 1;
        StoreEntry(push, pull, nbMessages, clientRank, serverRank, list);
      }
      list := Messages(clients, servers, i + 1);
    }
  }

  /** The global vectors of one time step: one without Sobol groups, else one for each group member. */
  predicate AreGlobal(clients: seq<nat>, globals: seq<seq<real>>) {
    forall k :: 0 <= k < |globals| ==> |globals[k]| == Total(clients)
  }

  /** Packet e of client r: sent to the e-th server of its list with the points they share, of every member. */
  ghost predicate IsPacket(clients: seq<nat>, servers: seq<nat>, p: Packet, r: nat, e: nat, globals: seq<seq<real>>)
    requires SameVector(clients, servers) && AreGlobal(clients, globals)
    requires r < |clients| && e < |PullsFrom(MessageList(clients, servers), r)|
  {
    && p.clientRank == r && p.to == PullsFrom(MessageList(clients, servers), r)[e] < |servers|
    && |p.vectors| == |globals|
    && forall k :: 0 <= k < |globals| ==> p.vectors[k] == SharedPoints(clients, servers, r, p.to, globals[k])
  }

  // ---- Sobol groups ----

  /** The k-th slot of n values in a buffer holds block. */
  predicate HasSlot(buffer: seq<real>, k: nat, n: nat, block: seq<real>) {
    k * n + n <= |buffer| && buffer[k * n..k * n + n] == block
  }

  lemma {:induction false} SlotsInOrder(j: nat, k: nat, n: nat)
    requires j < k
    ensures j * n + n <= k * n
    decreases k
  {
    assert k * n == (k - 1) * n + n;
    if j < k - 1 {
      SlotsInOrder(j, k - 1, n);
    }
  }

  lemma KeepsSlot(a: seq<real>, b: seq<real>, j: nat, k: nat, n: nat, block: seq<real>)
    requires j < k && |a| == |b| && HasSlot(a, j, n, block) && k * n <= |a| && a[..k * n] == b[..k * n]
    ensures HasSlot(b, j, n, block)
  {
    SlotsInOrder(j, k, n);
    assert a[j * n..j * n + n] == a[..k * n][j * n..j * n + n];
  }

  /** The master of a group receives the local vectors of the other members behind its own slot. */
  method GatherGroup(received: seq<seq<real>>, buffer: array<real>, n: nat)
    requires buffer.Length == (|received| + 1) * n && forall i :: 0 <= i < |received| ==> |received[i]| == n
    modifies buffer
    ensures forall i :: 0 <= i < |received| ==> HasSlot(buffer[..], i + 1, n, received[i])
  {
    hide HasSlot;
    for i := 0 to |received|
      invariant forall k :: 0 <= k < i ==> HasSlot(buffer[..], k + 1, n, received[k])
    {
      SlotsInOrder(i + 1, |received| + 1, n);
      var offset := (i + 1) * n;
      ghost var before := buffer[..];
      forall k | 0 <= k < n {
        buffer[offset + k] := received[i][k];
      }
      assert before[..offset] == buffer[..][..offset];
      forall k | 0 <= k < i ensures HasSlot(buffer[..], k + 1, n, received[k]) {
        KeepsSlot(before, buffer[..], k + 1, i + 1, n, received[k]);
      }
      SlotFilled(buffer[..], i + 1, n, received[i]);
    }
  }

  lemma SlotFilled(buffer: seq<real>, k: nat, n: nat, block: seq<real>)
    requires |block| == n && k * n + n <= |buffer| && forall i :: 0 <= i < n ==> buffer[k * n + i] == block[i]
    ensures HasSlot(buffer, k, n, block)
  {
  }

  /** field_data_t on one client rank. */
  class FieldPattern {
    const localVectSizes: seq<nat>
    const serverVectSize: seq<nat>
    const sendCounts: array<nat>
    const sdispls: array<nat>
    var pushRank: array<nat>
    var pullRank: array<nat>
    var totalNbMessages: nat
    var localNbMessages: nat
    var dataPusher: array<nat>

    ghost predicate Valid() {
      && SameVector(localVectSizes, serverVectSize)
      && sendCounts.Length == sdispls.Length == |serverVectSize|
      && sendCounts != sdispls
    }

    ghost function List(): seq<(nat, nat)>
      requires Valid()
    {
      MessageList(localVectSizes, serverVectSize)
    }

    ghost predicate CountsReady(rank: nat)
      requires Valid()
      reads sendCounts
    {
      forall j :: 0 <= j < |serverVectSize| ==>
        sendCounts[j] == SentCount(localVectSizes, serverVectSize, rank, j, Total(localVectSizes))
    }

    ghost predicate DisplacementsReady(rank: nat)
      requires Valid()
      reads sdispls
    {
      forall j :: 0 <= j < |serverVectSize| ==>
        sdispls[j] == Displacement(localVectSizes, serverVectSize, rank, j)
    }

    ghost predicate ListReady()
      requires Valid()
      reads this, pushRank, pullRank
    {
      && totalNbMessages == pushRank.Length == pullRank.Length
      && IsListed(List(), pushRank[..], pullRank[..])
    }

    ghost predicate PushersReady(rank: nat)
      requires Valid()
      reads this, dataPusher
    {
      dataPusher[..] == PullsFrom(List(), rank) && localNbMessages == |PullsFrom(List(), rank)|
    }

    /** The part of melissa_init_internal that sizes the vectors; at least one point and one server. */
    constructor (sizes: seq<nat>, nbProcServer: nat)
      requires sizes != [] && Total(sizes) > 0 && nbProcServer > 0
      ensures Valid() && localVectSizes == sizes && |serverVectSize| == nbProcServer
      ensures IsBalanced(serverVectSize, Total(sizes)) && Compact(serverVectSize)
      ensures fresh(sendCounts) && fresh(sdispls)
      ensures forall j :: 0 <= j < nbProcServer ==> sendCounts[j] == 0
    {
      var globalVectSize := Total(sizes);
      var partition: seq<nat> := [];
      for i := 0 to nbProcServer
        invariant |partition| == i
        invariant forall k :: 0 <= k < i ==> partition[k] == BalancedSize(globalVectSize, nbProcServer, k)
      {
        var size := globalVectSize / nbProcServer;
        if i < globalVectSize % nbProcServer {
          size := size + 1;
        }
        partition := partition + [size];
      }
      BalancedIsPartition(partition, globalVectSize);
      localVectSizes := sizes;
      serverVectSize := partition;
      sendCounts := new nat[nbProcServer](_ => 0);
      sdispls := new nat[nbProcServer](_ => 0);
      pushRank := new nat[0];
      pullRank := new nat[0];
      dataPusher := new nat[0];
      totalNbMessages, localNbMessages := 0, 0;
    }

    /** comm_n_to_m_init: attribute every point, then list the messages. Every rank gets the same list. */
    method CommNToMInit(rank: nat)
      requires Valid() && rank < |localVectSizes|
      requires forall j :: 0 <= j < sendCounts.Length ==> sendCounts[j] == 0
      modifies this, sendCounts, sdispls
      ensures CountsReady(rank) && DisplacementsReady(rank) && ListReady()
      ensures localNbMessages == CountFrom(List(), rank)
    {
      totalNbMessages, localNbMessages := CountPoints(localVectSizes, serverVectSize, rank, sendCounts);
      ComputeDisplacements(rank);
      pushRank, pullRank := new nat[totalNbMessages], new nat[totalNbMessages];
      FillMessageList(localVectSizes, serverVectSize, pushRank, pullRank);
    }

    method ComputeDisplacements(rank: nat)
      requires Valid() && CountsReady(rank)
      modifies sdispls
      ensures DisplacementsReady(rank)
    {
      hide SentCount;
      sdispls[0] := 0;
      for i := 0 to sdispls.Length - 1
        invariant CountsReady(rank)
        invariant forall k :: 0 <= k <= i ==> sdispls[k] == Displacement(localVectSizes, serverVectSize, rank, k)
      {
        sdispls[i + 1] := sdispls[i] + sendCounts[i];
      }
    }

    /** The data_pusher loop: socket j of this rank is connected to the server of its j-th message. */
    method ConnectPushers(rank: nat)
      requires Valid() && ListReady() && localNbMessages == CountFrom(List(), rank)
      modifies this`dataPusher
      ensures PushersReady(rank) && fresh(dataPusher)
    {
      ghost var list := List();
      var pushers := new nat[localNbMessages];
      var j := 0;
      for i := 0 to totalNbMessages
        invariant j == CountFrom(list[..i], rank) <= localNbMessages
        invariant pushers[..j] == PullsFrom(list[..i], rank)
      {
        CountFromPrefix(list, i, rank);
        CountFromMonotone(list, i + 1, rank);
        if rank == pushRank[i] {
          pushers[j] := pullRank[i];
          j := j + 1;
        }
      }
      assert list[..totalNbMessages] == list;
      dataPusher := pushers;
    }

    /** Own block in sendVect, the blocks of the other group members in the buffer. */
    ghost predicate VectorsReady(rank: nat, sendVect: seq<real>, buffer: seq<real>, globals: seq<seq<real>>)
      requires rank < |localVectSizes| && AreGlobal(localVectSizes, globals)
    {
      && globals != [] && sendVect == LocalBlock(localVectSizes, rank, globals[0])
      && forall k :: 1 <= k < |globals| ==>
           HasSlot(buffer, k, localVectSizes[rank], LocalBlock(localVectSizes, rank, globals[k]))
    }

    /** The slice of a local block that goes to server rank pull, where the block starts at offset of a vector. */
    method CutSlice(rank: nat, pull: nat, vect: seq<real>, offset: nat, ghost global: seq<real>)
      returns (payload: seq<real>)
      requires Valid() && rank < |localVectSizes| && NoGap(localVectSizes) && Compact(serverVectSize)
      requires CountsReady(rank) && DisplacementsReady(rank) && (rank, pull) in List()
      requires |global| == Total(localVectSizes) && offset + localVectSizes[rank] <= |vect|
      requires vect[offset..offset + localVectSizes[rank]] == LocalBlock(localVectSizes, rank, global)
      ensures pull < |serverVectSize|
      ensures payload == SharedPoints(localVectSizes, serverVectSize, rank, pull, global)
    {
      hide SharedPoints;
      hide SharedBefore;
      hide Displacement;
      hide SentCount;
      hide Prefix;
      hide LocalBlock;
      ListHoldsSharers(localVectSizes, serverVectSize, rank, pull);
      SliceIsShared(localVectSizes, serverVectSize, rank, pull, global);
      SubSlice(vect, offset, offset + localVectSizes[rank], sdispls[pull], sendCounts[pull]);
      payload := vect[offset + sdispls[pull]..offset + sdispls[pull] + sendCounts[pull]];
    }

    /** The data of one message: the own slice, and with Sobol groups those of the nb_parameters + 1 other members. */
    method CutVectors(rank: nat, pull: nat, sendVect: seq<real>, buffer: seq<real>, members: nat,
                      ghost globals: seq<seq<real>>) returns (vectors: seq<seq<real>>)
      requires Valid() && rank < |localVectSizes| && NoGap(localVectSizes) && Compact(serverVectSize)
      requires CountsReady(rank) && DisplacementsReady(rank) && (rank, pull) in List()
      requires AreGlobal(localVectSizes, globals) && |globals| == members
      requires VectorsReady(rank, sendVect, buffer, globals)
      ensures pull < |serverVectSize| && |vectors| == members
      ensures forall k :: 0 <= k < members ==>
                vectors[k] == SharedPoints(localVectSizes, serverVectSize, rank, pull, globals[k])
    {
      hide SharedPoints;
      hide CountsReady;
      hide DisplacementsReady;
      hide MessageList;
      BlockLength(localVectSizes, rank, globals[0]);
      assert sendVect[0..0 + localVectSizes[rank]] == sendVect;
      hide LocalBlock;
      var own := CutSlice(rank, pull, sendVect, 0, globals[0]);
      vectors := [own];
      for k := 1 to members
        invariant |vectors| == k
        invariant forall i :: 0 <= i < k ==>
                    vectors[i] == SharedPoints(localVectSizes, serverVectSize, rank, pull, globals[i])
      {
        assert HasSlot(buffer, k, localVectSizes[rank], LocalBlock(localVectSizes, rank, globals[k]));
        var slice := CutSlice(rank, pull, buffer, k * localVectSizes[rank], globals[k]);
        vectors := vectors + [slice];
      }
    }

    /** melissa_send on the master of a group (without Sobol groups, on every simulation): the packets of one time step,
        cut out of the local blocks. */
    method Send(rank: nat, sendVect: seq<real>, buffer: seq<real>, members: nat, ghost globals: seq<seq<real>>)
      returns (sent: seq<Packet>)
      requires Valid() && rank < |localVectSizes| && NoGap(localVectSizes) && Compact(serverVectSize)
      requires CountsReady(rank) && DisplacementsReady(rank) && ListReady() && PushersReady(rank)
      requires AreGlobal(localVectSizes, globals) && |globals| == members
      requires VectorsReady(rank, sendVect, buffer, globals)
      ensures |sent| == |PullsFrom(List(), rank)|
      ensures forall e :: 0 <= e < |sent| ==> IsPacket(localVectSizes, serverVectSize, sent[e], rank, e, globals)
    {
      hide Messages;
      hide SharedPoints;
      hide SharedBefore;
      hide Displacement;
      hide SentCount;
      hide Prefix;
      hide LocalBlock;
      hide VectorsReady;
      ghost var list, pulls := List(), PullsFrom(List(), rank);
      sent := [];
      for i := 0 to totalNbMessages
        invariant |sent| == |PullsFrom(list[..i], rank)| <= |pulls|
        invariant forall e :: 0 <= e < |sent| ==> IsPacket(localVectSizes, serverVectSize, sent[e], rank, e, globals)
      {
        CountFromPrefix(list, i, rank);
        CountFromMonotone(list, i + 1, rank);
        if rank == pushRank[i] {
          PullsPrefix(list, i, rank);
          assert list[i] == (rank, pullRank[i]);
          var vectors := CutVectors(rank, pullRank[i], sendVect, buffer, members, globals);
          sent := sent + [Packet(dataPusher[|sent|], rank, vectors)];
        }
      }
      assert list[..totalNbMessages] == list;
    }
  }

  lemma BlockLength<T>(sizes: seq<nat>, r: nat, global: seq<T>)
    requires r < |sizes| && |global| == Total(sizes)
    ensures |LocalBlock(sizes, r, global)| == sizes[r]
  {
    PrefixMonotone(sizes, r + 1, |sizes|);
  }

  /** A client's list of servers is increasing and holds exactly those that share points with it,
      besides server 0 for client 0. */
  lemma PullsAreSharers(clients: seq<nat>, servers: seq<nat>, r: nat)
    requires SameVector(clients, servers) && NoGap(clients) && Compact(servers) && r < |clients|
    ensures var pulls := PullsFrom(MessageList(clients, servers), r);
            && (forall a, b :: 0 <= a < b < |pulls| ==> pulls[a] < pulls[b])
            && forall j: nat :: j in pulls <==>
                 (r, j) == (0, 0) || (j < |servers| && SharedCount(clients, servers, r, j) > 0)
  {
    ListIncreases(clients, servers, Total(clients));
    PullsIncrease(MessageList(clients, servers), r);
    forall j: nat
      ensures j in PullsFrom(MessageList(clients, servers), r)
         <==> (r, j) == (0, 0) || (j < |servers| && SharedCount(clients, servers, r, j) > 0)
    {
      ListHoldsSharers(clients, servers, r, j);
    }
  }
}
