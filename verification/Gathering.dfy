/** Reassembling a field on server rank 0 (dgather_data and the copy loops of
    melissa_write_stats_seq, server/output/melissa_output.c), and the end-to-end identity. */
module Gathering {
  import opened Partition
  import opened Sequences
  import opened Redistribution

  /** One received or copied block lands at an offset of the buffer. */
  method ReceiveBlock<T>(block: seq<T>, buffer: array<T>, offset: nat)
    requires offset + |block| <= buffer.Length
    modifies buffer
    ensures buffer[..offset + |block|] == old(buffer[..offset]) + block
  {
    forall k | 0 <= k < |block| {
      buffer[offset + k] := block[k];
    }
  }

  /** The copy loop of one server rank: streams in client order, empty ones skipped. */
  method CopyStreams<T>(streams: seq<seq<T>>, buffer: array<T>) returns (offset: nat)
    requires |Flatten(streams)| <= buffer.Length
    modifies buffer
    ensures offset == |Flatten(streams)| && buffer[..offset] == Flatten(streams)
  {
    offset := 0;
    for i := 0 to |streams|
      invariant offset == |Flatten(streams[..i])| <= buffer.Length
      invariant buffer[..offset] == Flatten(streams[..i])
    {
      FlattenPrefix(streams, i);
      FlattenBound(streams, i + 1);
      if |streams[i]| > 0 {
        ReceiveBlock(streams[i], buffer, offset);
        offset := offset + |streams[i]|;
      }
    }
    assert streams[..|streams|] == streams;
  }

  lemma FirstBlock<T>(blocks: seq<seq<T>>)
    requires blocks != []
    ensures Flatten(blocks[..1]) == blocks[0]
  {
    assert blocks[..1] == [blocks[0]] && [blocks[0]][..0] == [];
    assert Flatten(blocks[..1]) == Flatten<T>([]) + blocks[0];
  }

  /** dgather_data on rank 0: its own block is in place, the others are received behind it. */
  method GatherData<T>(localVectSizes: seq<nat>, blocks: seq<seq<T>>, buffer: array<T>)
    requires |localVectSizes| == |blocks| > 0
    requires forall j :: 0 <= j < |blocks| ==> |blocks[j]| == localVectSizes[j]
    requires buffer.Length == |Flatten(blocks)|
    requires |blocks[0]| <= buffer.Length && buffer[..|blocks[0]|] == blocks[0]
    modifies buffer
    ensures buffer[..] == Flatten(blocks)
  {
    hide Flatten;
    var offset := 0;
    FirstBlock(blocks);
    for j := 1 to |localVectSizes|
      invariant offset + localVectSizes[j - 1] == |Flatten(blocks[..j])| <= buffer.Length
      invariant buffer[..offset + localVectSizes[j - 1]] == Flatten(blocks[..j])
    {
      FlattenPrefix(blocks, j);
      FlattenBound(blocks, j + 1);
      offset := offset + localVectSizes[j - 1];
      assert offset + |blocks[j]| == |Flatten(blocks[..j + 1])|;
      if localVectSizes[j] > 0 {
        ReceiveBlock(blocks[j], buffer, offset);
      } else {
        assert blocks[j] == [];
      }
      assert buffer[..offset + localVectSizes[j]] == Flatten(blocks[..j + 1]);
    }
    assert blocks[..|blocks|] == blocks;
  }

  /** Stream (j, r) on server rank j holds what client r sent there of group member k, or nothing. */
  ghost predicate Delivered(sent: seq<Packet>, j: nat, k: nat, stream: seq<real>) {
    && (forall e :: 0 <= e < |sent| && sent[e].to == j ==> k < |sent[e].vectors| && stream == sent[e].vectors[k])
    && ((forall e :: 0 <= e < |sent| ==> sent[e].to != j) ==> stream == [])
  }

  /** The streams of all server ranks hold the shared points of a vector. */
  ghost predicate HoldsShared<T>(clients: seq<nat>, servers: seq<nat>, streams: seq<seq<seq<T>>>, global: seq<T>)
    requires SameVector(clients, servers) && |global| == Total(clients)
  {
    && |streams| == |servers|
    && (forall j :: 0 <= j < |servers| ==> |streams[j]| == |clients|)
    && forall j, r :: 0 <= j < |servers| && 0 <= r < |clients| ==>
         streams[j][r] == SharedPoints(clients, servers, r, j, global)
  }

  /** One more client extends the server's block by what they share. */
  lemma SharedExtends<T>(clients: seq<nat>, servers: seq<nat>, r: nat, j: nat, global: seq<T>)
    requires SameVector(clients, servers) && |global| == Total(clients) && r < |clients| && j < |servers|
    ensures Prefix(servers, j) <= Prefix(servers, j + 1) <= |global|
    ensures Copied(clients, servers, j, r) <= Copied(clients, servers, j, r + 1) <= |global|
    ensures SharedPoints(clients, servers, r, j, global)
         == global[Copied(clients, servers, j, r)..Copied(clients, servers, j, r + 1)]
  {
    PrefixMonotone(servers, j + 1, |servers|);
  }

  /** Where server j's block stands once clients below r are copied. */
  function Copied(clients: seq<nat>, servers: seq<nat>, j: nat, r: nat): nat
    requires j < |servers| && r <= |clients|
  {
    Max(Prefix(servers, j), Min(Prefix(clients, r), Prefix(servers, j + 1)))
  }

  lemma SliceJoin<T>(s: seq<T>, a: nat, b: nat, c: nat)
    requires a <= b <= c <= |s|
    ensures s[a..b] + s[b..c] == s[a..c]
  {
  }

  lemma {:induction false} ServerBlock<T>(clients: seq<nat>, servers: seq<nat>, vs: seq<seq<T>>, global: seq<T>,
                                          j: nat, r: nat)
    requires SameVector(clients, servers) && |global| == Total(clients)
    requires j < |servers| && r <= |vs| == |clients|
    requires forall q :: 0 <= q < |clients| ==> vs[q] == SharedPoints(clients, servers, q, j, global)
    ensures Prefix(servers, j) <= Copied(clients, servers, j, r) <= |global|
    ensures Flatten(vs[..r]) == global[Prefix(servers, j)..Copied(clients, servers, j, r)]
  {
    PrefixMonotone(servers, j + 1, |servers|);
    if r > 0 {
      ServerBlock(clients, servers, vs, global, j, r - 1);
      FlattenPrefix(vs, r - 1);
      SharedExtends(clients, servers, r - 1, j, global);
      SliceJoin(global, Prefix(servers, j), Copied(clients, servers, j, r - 1), Copied(clients, servers, j, r));
    }
  }

  /** What server rank j writes: its streams in client order form its block of the vector. */
  lemma ServerHoldsItsBlock<T>(clients: seq<nat>, servers: seq<nat>, streams: seq<seq<seq<T>>>, global: seq<T>, j: nat)
    requires SameVector(clients, servers) && |global| == Total(clients)
    requires HoldsShared(clients, servers, streams, global) && j < |servers|
    ensures Prefix(servers, j) <= Prefix(servers, j + 1) <= |global|
    ensures Flatten(streams[j]) == global[Prefix(servers, j)..Prefix(servers, j + 1)]
  {
    ServerBlock(clients, servers, streams[j], global, j, |clients|);
    PrefixMonotone(servers, j + 1, |servers|);
    assert streams[j][..|clients|] == streams[j];
  }

  /** The blocks the ranks pass to rank 0. */
  function Blocks<T>(streams: seq<seq<seq<T>>>): seq<seq<T>> {
    seq(|streams|, j requires 0 <= j < |streams| => Flatten(streams[j]))
  }

  lemma {:induction false} GatheredPrefix<T>(clients: seq<nat>, servers: seq<nat>, streams: seq<seq<seq<T>>>,
                                             global: seq<T>, j: nat)
    requires SameVector(clients, servers) && |global| == Total(clients)
    requires HoldsShared(clients, servers, streams, global) && j <= |servers|
    ensures Prefix(servers, j) <= |global|
    ensures Flatten(Blocks(streams)[..j]) == global[..Prefix(servers, j)]
  {
    PrefixMonotone(servers, j, |servers|);
    if j > 0 {
      GatheredPrefix(clients, servers, streams, global, j - 1);
      ServerHoldsItsBlock(clients, servers, streams, global, j - 1);
      FlattenPrefix(Blocks(streams), j - 1);
    }
  }

  /** Gathering rebuilds the vector, although no index was ever transmitted. */
  lemma GatheringRebuildsVector<T>(clients: seq<nat>, servers: seq<nat>, streams: seq<seq<seq<T>>>, global: seq<T>)
    requires SameVector(clients, servers) && |global| == Total(clients)
    requires HoldsShared(clients, servers, streams, global)
    ensures Flatten(Blocks(streams)) == global
  {
    GatheredPrefix(clients, servers, streams, global, |servers|);
    assert Blocks(streams)[..|servers|] == Blocks(streams);
    assert global[..|global|] == global;
  }

  /** What all clients send in one time step. */
  ghost predicate AllSent(clients: seq<nat>, servers: seq<nat>, sent: seq<seq<Packet>>, globals: seq<seq<real>>)
    requires SameVector(clients, servers) && AreGlobal(clients, globals)
  {
    && |sent| == |clients|
    && forall r :: 0 <= r < |clients| ==>
         && |sent[r]| == |PullsFrom(MessageList(clients, servers), r)|
         && forall e :: 0 <= e < |sent[r]| ==> IsPacket(clients, servers, sent[r][e], r, e, globals)
  }

  lemma DeliveredIsShared(clients: seq<nat>, servers: seq<nat>, sent: seq<seq<Packet>>, globals: seq<seq<real>>,
                          j: nat, r: nat, k: nat, stream: seq<real>)
    requires SameVector(clients, servers) && NoGap(clients) && Compact(servers) && AreGlobal(clients, globals)
    requires AllSent(clients, servers, sent, globals) && j < |servers| && r < |clients| && k < |globals|
    requires Delivered(sent[r], j, k, stream)
    ensures stream == SharedPoints(clients, servers, r, j, globals[k])
  {
    PullsAreSharers(clients, servers, r);
    var pulls := PullsFrom(MessageList(clients, servers), r);
    if j in pulls {
      var e :| 0 <= e < |pulls| && pulls[e] == j;
      assert sent[r][e].to == j;
    } else {
      assert forall e :: 0 <= e < |sent[r]| ==> sent[r][e].to == pulls[e] != j;
    }
  }

  /** Main result: slicing, sending along the message lists, storing per (server, client) stream and
      gathering in write order is the identity on the global vector of every group member, for all partitions
      without a gap. */
  lemma EndToEnd(clients: seq<nat>, servers: seq<nat>, sent: seq<seq<Packet>>, globals: seq<seq<real>>, k: nat,
                 streams: seq<seq<seq<real>>>)
    requires SameVector(clients, servers) && NoGap(clients) && Compact(servers) && AreGlobal(clients, globals)
    requires AllSent(clients, servers, sent, globals) && k < |globals|
    requires |streams| == |servers| && forall j :: 0 <= j < |servers| ==> |streams[j]| == |clients|
    requires forall j, r :: 0 <= j < |servers| && 0 <= r < |clients| ==> Delivered(sent[r], j, k, streams[j][r])
    ensures Flatten(Blocks(streams)) == globals[k]
  {
    forall j, r | 0 <= j < |servers| && 0 <= r < |clients|
      ensures streams[j][r] == SharedPoints(clients, servers, r, j, globals[k])
    {
      DeliveredIsShared(clients, servers, sent, globals, j, r, k, streams[j][r]);
    }
    GatheringRebuildsVector(clients, servers, streams, globals[k]);
  }

  // ---- the other direction ----

  /** Lists of equally long parts are fixed by their concatenation. */
  lemma {:induction false} FlattenInjective<T>(a: seq<seq<T>>, b: seq<seq<T>>)
    requires |a| == |b| && (forall i :: 0 <= i < |a| ==> |a[i]| == |b[i]|) && Flatten(a) == Flatten(b)
    ensures a == b
  {
    if a != [] {
      var n := |a| - 1;
      SplitEqual(Flatten(a[..n]), a[n], Flatten(b[..n]), b[n]);
      FlattenInjective(a[..n], b[..n]);
      assert a == a[..n] + [a[n]] && b == b[..n] + [b[n]];
    }
  }

  lemma SplitEqual<T>(x: seq<T>, u: seq<T>, y: seq<T>, v: seq<T>)
    requires x + u == y + v && |u| == |v|
    ensures x == y && u == v
  {
    assert |x| == |y|;
    assert x == (x + u)[..|x|] && y == (y + v)[..|y|];
    assert u == (x + u)[|x|..] && v == (y + v)[|y|..];
  }

  /** If parts of the right sizes are gathered to a vector, each part is what the two ranks share of it. */
  lemma GatheredPartsAreShared<T>(clients: seq<nat>, servers: seq<nat>, streams: seq<seq<seq<T>>>, global: seq<T>)
    requires SameVector(clients, servers) && |global| == Total(clients)
    requires |streams| == |servers| && forall j :: 0 <= j < |servers| ==> |streams[j]| == |clients|
    requires forall j, r :: 0 <= j < |servers| && 0 <= r < |clients| ==>
               |streams[j][r]| == SharedCount(clients, servers, r, j)
    requires Flatten(Blocks(streams)) == global
    ensures HoldsShared(clients, servers, streams, global)
  {
    var parts := seq(|servers|, j requires 0 <= j < |servers| =>
      seq(|clients|, r requires 0 <= r < |clients| => SharedPoints(clients, servers, r, j, global)));
    hide SharedPoints;
    hide SharedCount;
    GatheringRebuildsVector(clients, servers, parts, global);
    forall j | 0 <= j < |servers| ensures |Blocks(streams)[j]| == |Blocks(parts)[j]| {
      SameLengths(streams[j], parts[j]);
    }
    FlattenInjective(Blocks(streams), Blocks(parts));
    forall j | 0 <= j < |servers| ensures streams[j] == parts[j] {
      assert Blocks(streams)[j] == Blocks(parts)[j];
      FlattenInjective(streams[j], parts[j]);
    }
  }

  lemma {:induction false} SameLengths<T>(a: seq<seq<T>>, b: seq<seq<T>>)
    requires |a| == |b| && forall i :: 0 <= i < |a| ==> |a[i]| == |b[i]|
    ensures |Flatten(a)| == |Flatten(b)|
  {
    if a != [] {
      SameLengths(a[..|a| - 1], b[..|b| - 1]);
    }
  }
}
