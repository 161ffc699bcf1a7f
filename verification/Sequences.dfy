/** Concatenation and rearrangement of sequences. */
module Sequences {

  function Flatten<T>(vs: seq<seq<T>>): seq<T> {
    if vs == [] then [] else Flatten(vs[..|vs| - 1]) + vs[|vs| - 1]
  }

  lemma FlattenPrefix<T>(vs: seq<seq<T>>, i: nat)
    requires i < |vs|
    ensures Flatten(vs[..i + 1]) == Flatten(vs[..i]) + vs[i]
  {
    assert vs[..i + 1][..i] == vs[..i];
  }

  lemma {:induction false} FlattenBound<T>(vs: seq<seq<T>>, i: nat)
    requires i <= |vs|
    ensures |Flatten(vs[..i])| <= |Flatten(vs)|
    decreases |vs| - i
  {
    if i < |vs| {
      FlattenPrefix(vs, i);
      FlattenBound(vs, i + 1);
    } else {
      assert vs[..i] == vs;
    }
  }

  lemma FlattenAppend<T>(vs: seq<seq<T>>, v: seq<T>)
    ensures Flatten(vs + [v]) == Flatten(vs) + v
  {
    assert (vs + [v])[..|vs|] == vs;
  }

  lemma FlattenLast<T>(xs: seq<T>, vs: seq<seq<T>>, n: nat)
    requires n + 1 == |vs|
    ensures (xs + Flatten(vs[..n])) + vs[n] == xs + Flatten(vs)
  {
  }

  lemma {:induction false} FlattenConcat<T>(vs: seq<seq<T>>, ws: seq<seq<T>>)
    ensures Flatten(vs + ws) == Flatten(vs) + Flatten(ws)
  {
    if ws == [] {
      assert vs + ws == vs;
    } else {
      var n := |ws| - 1;
      assert ws[..n] + [ws[n]] == ws && vs + ws[..n] + [ws[n]] == vs + ws;
      hide Flatten;
      FlattenConcat(vs, ws[..n]);
      FlattenAppend(vs + ws[..n], ws[n]);
      FlattenAppend(ws[..n], ws[n]);
    }
  }

  lemma MultisetMiddle<T>(xs: seq<T>, k: nat)
    requires k < |xs|
    ensures multiset(xs[..k] + xs[k + 1..]) == multiset(xs) - multiset{xs[k]}
  {
    assert xs == xs[..k] + [xs[k]] + xs[k + 1..];
  }

  /** Two arrangements of the same elements: where the last element of one stands in the other. */
  lemma MatchLast<T>(xs: seq<T>, ys: seq<T>) returns (j: nat)
    requires multiset(xs) == multiset(ys) && xs != []
    ensures j < |ys| && ys[j] == xs[|xs| - 1]
    ensures multiset(xs[..|xs| - 1]) == multiset(ys[..j] + ys[j + 1..])
  {
    var n := |xs| - 1;
    assert xs[n] in multiset(ys);
    j :| 0 <= j < |ys| && ys[j] == xs[n];
    MultisetMiddle(xs, n);
    MultisetMiddle(ys, j);
    assert xs[..n] + xs[n + 1..] == xs[..n];
  }

  lemma SameLength<T>(xs: seq<T>, ys: seq<T>)
    requires multiset(xs) == multiset(ys)
    ensures |xs| == |ys|
  {
    assert |xs| == |multiset(xs)| == |multiset(ys)| == |ys|;
  }

  lemma FlattenMiddle<T>(vs: seq<seq<T>>, j: nat)
    requires j < |vs|
    ensures multiset(Flatten(vs)) == multiset(Flatten(vs[..j] + vs[j + 1..])) + multiset(vs[j])
  {
    hide Flatten;
    assert vs[..j + 1] + vs[j + 1..] == vs;
    FlattenConcat(vs[..j + 1], vs[j + 1..]);
    FlattenConcat(vs[..j], vs[j + 1..]);
    FlattenPrefix(vs, j);
  }

  lemma {:induction false} FlattenMultiset<T>(vs: seq<seq<T>>, ws: seq<seq<T>>)
    requires multiset(vs) == multiset(ws)
    ensures multiset(Flatten(vs)) == multiset(Flatten(ws))
  {
    SameLength(vs, ws);
    if vs != [] {
      var j := MatchLast(vs, ws);
      FlattenMultiset(vs[..|vs| - 1], ws[..j] + ws[j + 1..]);
      FlattenMiddle(ws, j);
    }
  }
}
