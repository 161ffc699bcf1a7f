/** Block partitions of a global vector and the walk that attributes points to ranks
    (the counting loops of comm_n_to_m_init, api/melissa_api.c). */
module Partition {

  /** Index of the first point of rank k. */
  function Prefix(sizes: seq<nat>, k: nat): nat
    requires k <= |sizes|
  {
    if k == 0 then 0 else Prefix(sizes, k - 1) + sizes[k - 1]
  }

  function Total(sizes: seq<nat>): nat {
    Prefix(sizes, |sizes|)
  }

  /** The points of rank r are those of its half-open interval. */
  predicate Owns(sizes: seq<nat>, r: nat, p: nat) {
    r < |sizes| && Prefix(sizes, r) <= p < Prefix(sizes, r + 1)
  }

  /** Ranks without points, if any, come last. */
  predicate Compact(sizes: seq<nat>) {
    forall i, j :: 0 <= i < j < |sizes| && sizes[i] == 0 ==> sizes[j] == 0
  }

  /** The same, except that rank 0 may be empty too. */
  predicate NoGap(sizes: seq<nat>) {
    forall i, j :: 0 < i < j < |sizes| && sizes[i] == 0 ==> sizes[j] == 0
  }

  lemma {:induction false} PrefixMonotone(sizes: seq<nat>, i: nat, j: nat)
    requires i <= j <= |sizes|
    ensures Prefix(sizes, i) <= Prefix(sizes, j)
    decreases j - i
  {
    if i < j {
      PrefixMonotone(sizes, i, j - 1);
    }
  }

  lemma PrefixReflects(sizes: seq<nat>, i: nat, j: nat)
    requires i <= |sizes| && j <= |sizes| && Prefix(sizes, i) < Prefix(sizes, j)
    ensures i < j
  {
    if j <= i {
      PrefixMonotone(sizes, j, i);
    }
  }

  lemma OwnerIsUnique(sizes: seq<nat>, r: nat, q: nat, p: nat)
    requires Owns(sizes, r, p) && Owns(sizes, q, p)
    ensures r == q
  {
    if r < q {
      PrefixMonotone(sizes, r + 1, q);
    } else if q < r {
      PrefixMonotone(sizes, q + 1, r);
    }
  }

  lemma {:induction false} OwnerExists(sizes: seq<nat>, p: nat, k: nat) returns (r: nat)
    requires k <= |sizes| && p < Prefix(sizes, k)
    ensures r < k && Owns(sizes, r, p)
    decreases k
  {
    if p < Prefix(sizes, k - 1) {
      r := OwnerExists(sizes, p, k - 1);
    } else {
      r := k - 1;
    }
  }

  /** Loop variables of one side: the current rank and how many points it was given. */
  datatype Walker = Walker(rank: nat, count: nat)

  /** The if/else of the loops: stay while the rank has room, else open the next rank with one point. */
  function Advance(w: Walker, sizes: seq<nat>): Walker
    requires w.rank < |sizes|
  {
    if w.count < sizes[w.rank] then Walker(w.rank, w.count + 1) else Walker(w.rank + 1, 1)
  }

  /** The walker after k points. */
  function Walk(sizes: seq<nat>, k: nat): (w: Walker)
    requires sizes != [] && k <= Total(sizes)
    ensures w.rank < |sizes| && Prefix(sizes, w.rank) + w.count <= k
  {
    if k == 0 then Walker(0, 0)
    else
      var v := Walk(sizes, k - 1);
      assert Prefix(sizes, v.rank + 1) == Prefix(sizes, v.rank) + sizes[v.rank];
      Advance(v, sizes)
  }

  /** No rank below z is empty, except perhaps rank 0. */
  predicate PositiveBelow(sizes: seq<nat>, z: nat) {
    z <= |sizes| && forall i :: 0 < i < z ==> sizes[i] > 0
  }

  /** As long as only rank 0 may be empty, the walker gives every point to its owner. */
  lemma {:induction false} WalkFindsOwner(sizes: seq<nat>, z: nat, k: nat)
    requires PositiveBelow(sizes, z) && sizes != [] && 0 < k <= Prefix(sizes, z) <= Total(sizes)
    ensures var w := Walk(sizes, k); w.rank < z && Owns(sizes, w.rank, k - 1) && Prefix(sizes, w.rank) + w.count == k
  {
    var v := Walk(sizes, k - 1);
    if k > 1 {
      WalkFindsOwner(sizes, z, k - 1);
    }
    if v.count >= sizes[v.rank] {
      assert Prefix(sizes, v.rank + 1) <= k - 1;
      PrefixReflects(sizes, v.rank + 1, z);
    }
  }

  /** The first empty rank from k on, or |sizes|. */
  function FirstEmpty(sizes: seq<nat>, k: nat): (z: nat)
    requires 0 < k && PositiveBelow(sizes, k)
    ensures k <= z && PositiveBelow(sizes, z) && (z < |sizes| ==> sizes[z] == 0)
    decreases |sizes| - k
  {
    if k == |sizes| || sizes[k] == 0 then k else FirstEmpty(sizes, k + 1)
  }

  lemma {:induction false} ZeroTail(sizes: seq<nat>, i: nat, j: nat)
    requires i <= j <= |sizes| && forall k :: i <= k < j ==> sizes[k] == 0
    ensures Prefix(sizes, j) == Prefix(sizes, i)
    decreases j
  {
    if i < j {
      ZeroTail(sizes, i, j - 1);
    }
  }

  /** The owner of a point as the walk computes it. */
  function Attributed(sizes: seq<nat>, p: nat): (r: nat)
    requires sizes != [] && p < Total(sizes)
    ensures r < |sizes|
  {
    Walk(sizes, p + 1).rank
  }

  lemma AttributedIsOwner(sizes: seq<nat>, p: nat, r: nat)
    requires sizes != [] && NoGap(sizes) && p < Total(sizes)
    ensures Attributed(sizes, p) == r <==> Owns(sizes, r, p)
  {
    var z := FirstEmpty(sizes, 1);
    ZeroTail(sizes, z, |sizes|);
    WalkFindsOwner(sizes, z, p + 1);
    if Owns(sizes, r, p) {
      OwnerIsUnique(sizes, r, Attributed(sizes, p), p);
    }
  }

  /** Otherwise some empty rank is given a point. */
  lemma EmptyRankIsGivenAPoint(sizes: seq<nat>) returns (z: nat, p: nat)
    requires sizes != [] && !NoGap(sizes)
    ensures 0 < z < |sizes| && sizes[z] == 0
    ensures p < Total(sizes) && Attributed(sizes, p) == z
  {
    var i, j :| 0 < i < j < |sizes| && sizes[i] == 0 && sizes[j] != 0;
    z := FirstEmpty(sizes, 1);
    p := Prefix(sizes, z);
    PrefixMonotone(sizes, z, j);
    PrefixMonotone(sizes, j + 1, |sizes|);
    if z > 1 {
      PrefixMonotone(sizes, 2, z);
      assert Prefix(sizes, 2) == Prefix(sizes, 1) + sizes[1] > 0;
    }
    if p > 0 {
      WalkFindsOwner(sizes, z, p);
      var w := Walk(sizes, p);
      if w.rank < z - 1 {
        PrefixMonotone(sizes, w.rank + 1, z - 1);
      }
      assert w == Walker(z - 1, sizes[z - 1]);
    } else {
      assert Walk(sizes, 1) == Advance(Walker(0, 0), sizes);
      assert sizes[0] == Prefix(sizes, 1) == 0;
    }
  }

  /** The static server partition: sizes differ by at most one, larger ones first. */
  function BalancedSize(total: nat, ranks: nat, r: nat): nat
    requires ranks > 0
  {
    total / ranks + if r < total % ranks then 1 else 0
  }

  ghost predicate IsBalanced(sizes: seq<nat>, total: nat) {
    && sizes != []
    && forall r :: 0 <= r < |sizes| ==> sizes[r] == BalancedSize(total, |sizes|, r)
  }

  lemma {:induction false} BalancedPrefix(sizes: seq<nat>, total: nat, k: nat)
    requires IsBalanced(sizes, total) && k <= |sizes|
    ensures Prefix(sizes, k) == k * (total / |sizes|) + if k < total % |sizes| then k else total % |sizes|
  {
    if k > 0 {
      BalancedPrefix(sizes, total, k - 1);
      assert k * (total / |sizes|) == (k - 1) * (total / |sizes|) + total / |sizes|;
    }
  }

  lemma BalancedIsPartition(sizes: seq<nat>, total: nat)
    requires IsBalanced(sizes, total)
    ensures Total(sizes) == total && Compact(sizes)
  {
    BalancedPrefix(sizes, total, |sizes|);
  }
}
