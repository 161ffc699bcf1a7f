/** Cells of a structured grid, their neighbours and the edge list of the sparse layer
    (examples/fluidsimulation/melissa_learning.py). */
module Grid {
  import opened Radix

  datatype Option<T> = None | Some(value: T)

  /** Number of cells: the product of the dimensions. */
  function Size(dims: seq<nat>): nat {
    if dims == [] then 1 else dims[0] * Size(dims[1..])
  }

  predicate Positive(dims: seq<nat>) {
    forall i :: 0 <= i < |dims| ==> dims[i] > 0
  }

  predicate IsInside(dims: seq<nat>, cell: seq<int>) {
    |cell| == |dims| && forall i :: 0 <= i < |cell| ==> 0 <= cell[i] < dims[i]
  }

  /** Mixed-radix value of a cell, the first coordinate varying fastest. */
  function Value(dims: seq<nat>, cell: seq<int>): int
    requires |cell| == |dims|
  {
    if cell == [] then 0 else cell[0] + dims[0] * Value(dims[1..], cell[1..])
  }

  /** int(a / b) of the source, read as division that truncates. */
  function Truncated(a: int, b: nat): int
    requires b > 0
  {
    if a >= 0 then a / b else -((-a) / b)
  }

  function Digits(dims: seq<nat>, index: int): (cell: seq<int>)
    requires Positive(dims)
    ensures |cell| == |dims|
  {
    if dims == [] then [] else [index % dims[0]] + Digits(dims[1..], Truncated(index, dims[0]))
  }

  /** get_uniform_map with a cell. */
  function IndexOf(dims: seq<nat>, cell: seq<int>): Option<int>
    requires |cell| == |dims|
  {
    if IsInside(dims, cell) then Some(Value(dims, cell)) else None
  }

  /** get_uniform_map with an index. */
  function CellOf(dims: seq<nat>, index: int): Option<seq<int>>
    requires Positive(dims)
  {
    var cell := Digits(dims, index);
    if IndexOf(dims, cell) == Some(index) then Some(cell) else None
  }

  // ---- the bijection ----

  lemma {:induction false} ValueBound(dims: seq<nat>, cell: seq<int>)
    requires IsInside(dims, cell)
    ensures 0 <= Value(dims, cell) < Size(dims)
  {
    if cell != [] {
      InsideTail(dims, cell);
      ValueBound(dims[1..], cell[1..]);
      RadixBound(dims[0], Size(dims[1..]), cell[0], Value(dims[1..], cell[1..]));
    }
  }

  lemma InsideTail(dims: seq<nat>, cell: seq<int>)
    requires IsInside(dims, cell) && cell != []
    ensures IsInside(dims[1..], cell[1..])
  {
  }

  lemma RadixBound(d: nat, n: nat, c: int, v: int)
    requires 0 <= c < d && 0 <= v < n
    ensures 0 <= c + d * v < d * n
  {
    assert d * v <= d * (n - 1) == d * n - d;
    assert d * v >= 0;
  }

  lemma {:induction false} DigitsOfValue(dims: seq<nat>, cell: seq<int>)
    requires IsInside(dims, cell) && Positive(dims)
    ensures Digits(dims, Value(dims, cell)) == cell
  {
    if cell != [] {
      InsideTail(dims, cell);
      ValueBound(dims[1..], cell[1..]);
      RadixBound(dims[0], Size(dims[1..]), cell[0], Value(dims[1..], cell[1..]));
      DigitOf(dims[0], Value(dims[1..], cell[1..]), cell[0]);
      DigitsOfValue(dims[1..], cell[1..]);
    }
  }

  lemma {:induction false} ValueOfDigits(dims: seq<nat>, index: int)
    requires Positive(dims) && 0 <= index < Size(dims)
    ensures IsInside(dims, Digits(dims, index)) && Value(dims, Digits(dims, index)) == index
  {
    if dims != [] {
      var d, n := dims[0], Size(dims[1..]);
      QuotientBound(index, d, n);
      ValueOfDigits(dims[1..], index / d);
      assert Digits(dims, index)[1..] == Digits(dims[1..], index / d);
    }
  }

  lemma QuotientBound(index: int, d: nat, n: nat)
    requires d > 0 && 0 <= index < d * n
    ensures 0 <= index / d < n && index == index % d + d * (index / d)
  {
    FactorBelow(d, index / d, n);
  }

  /** Main result: an index has a cell exactly if it is below the number of cells, and the two directions of
      get_uniform_map are inverse to each other. */
  lemma UniformMapIsBijective(dims: seq<nat>, index: int, cell: seq<int>)
    requires Positive(dims) && |cell| == |dims|
    ensures CellOf(dims, index).Some? <==> 0 <= index < Size(dims)
    ensures CellOf(dims, index) == Some(cell) <==> IndexOf(dims, cell) == Some(index)
  {
    if 0 <= index < Size(dims) {
      ValueOfDigits(dims, index);
    }
    if IsInside(dims, Digits(dims, index)) {
      ValueBound(dims, Digits(dims, index));
    }
    if IsInside(dims, cell) {
      DigitsOfValue(dims, cell);
    }
  }

  lemma {:induction false} SizeAppend(dims: seq<nat>, d: nat)
    ensures Size(dims + [d]) == Size(dims) * d
  {
    if dims == [] {
      assert [d][1..] == [] && dims + [d] == [d];
    } else {
      assert (dims + [d])[1..] == dims[1..] + [d];
      SizeAppend(dims[1..], d);
      assert dims[0] * (Size(dims[1..]) * d) == dims[0] * Size(dims[1..]) * d;
    }
  }

  lemma {:induction false} ValueAppend(dims: seq<nat>, cell: seq<int>, d: nat, c: int)
    requires |cell| == |dims|
    ensures Value(dims + [d], cell + [c]) == Value(dims, cell) + c * Size(dims)
  {
    if cell == [] {
      assert dims + [d] == [d] && cell + [c] == [c];
      assert [d][1..] == [] && [c][1..] == [];
    } else {
      assert (dims + [d])[1..] == dims[1..] + [d] && (cell + [c])[1..] == cell[1..] + [c];
      ValueAppend(dims[1..], cell[1..], d, c);
      assert dims[0] * (c * Size(dims[1..])) == c * (dims[0] * Size(dims[1..]));
      assert dims[0] * (Value(dims[1..], cell[1..]) + c * Size(dims[1..]))
          == dims[0] * Value(dims[1..], cell[1..]) + dims[0] * (c * Size(dims[1..]));
    }
  }

  /** get_uniform_map with a cell: bounds are tested on the way, the multiplier grows by each dimension. */
  method GetIndex(dims: seq<nat>, cell: seq<int>) returns (r: Option<int>)
    requires |cell| == |dims|
    ensures r == IndexOf(dims, cell)
  {
    var multiplier, index := 1, 0;
    for i := 0 to |cell|
      invariant multiplier == Size(dims[..i]) && index == Value(dims[..i], cell[..i])
      invariant forall k :: 0 <= k < i ==> 0 <= cell[k] < dims[k]
    {
      var c, d := cell[i], dims[i];
      if c >= d || c < 0 {
        return None;
      }
      SizeAppend(dims[..i], d);
      ValueAppend(dims[..i], cell[..i], d, c);
      assert dims[..i + 1] == dims[..i] + [d] && cell[..i + 1] == cell[..i] + [c];
      index := index + c * multiplier;
      multiplier := multiplier * d;
    }
    assert dims[..|cell|] == dims && cell[..|cell|] == cell;
    return Some(index);
  }

  /** get_uniform_map with an index: the digits, kept only if they lead back to the index. */
  method GetCell(dims: seq<nat>, index: int) returns (r: Option<seq<int>>)
    requires Positive(dims)
    ensures r == CellOf(dims, index)
  {
    var cell: seq<int>, rest := [], index;
    assert dims[0..] == dims;
    for i := 0 to |dims|
      invariant |cell| == i && cell + Digits(dims[i..], rest) == Digits(dims, index)
    {
      assert dims[i..][1..] == dims[i + 1..];
      cell := cell + [rest % dims[i]];
      rest := Truncated(rest, dims[i]);
    }
    assert cell == Digits(dims, index);
    var back := GetIndex(dims, cell);
    if back == Some(index) {
      return Some(cell);
    } else {
      return None;
    }
  }

  // ---- recursor ----

  function NonZeros(offset: seq<int>): nat {
    if offset == [] then 0 else NonZeros(offset[..|offset| - 1]) + if offset[|offset| - 1] != 0 then 1 else 0
  }

  function Moved(cell: seq<int>, offset: seq<int>): seq<int>
    requires |cell| == |offset|
  {
    seq(|cell|, i requires 0 <= i < |cell| => cell[i] + offset[i])
  }

  /** recursor with its accumulated list. */
  function Recursor(changes: nat, cell: seq<int>, acc: seq<seq<int>>, offset: seq<int>): seq<seq<int>>
    requires |offset| <= |cell|
    decreases |cell| - |offset|
  {
    if |offset| >= |cell| then acc + [Moved(cell, offset)]
    else
      var moved := if changes > 0
        then Recursor(changes - 1, cell, Recursor(changes - 1, cell, acc, offset + [-1]), offset + [1])
        else acc;
      Recursor(changes, cell, moved, offset + [0])
  }

  /** The offsets below a prefix, in the order of the recursion. */
  function Offsets(changes: nat, dim: nat, offset: seq<int>): seq<seq<int>>
    requires |offset| <= dim
    decreases dim - |offset|
  {
    if |offset| == dim then [offset]
    else
      (if changes > 0 then Offsets(changes - 1, dim, offset + [-1]) + Offsets(changes - 1, dim, offset + [1]) else [])
      + Offsets(changes, dim, offset + [0])
  }

  function MovedAll(cell: seq<int>, offsets: seq<seq<int>>): (cells: seq<seq<int>>)
    requires forall o :: o in offsets ==> |o| == |cell|
    ensures |cells| == |offsets|
  {
    if offsets == [] then [] else MovedAll(cell, offsets[..|offsets| - 1]) + [Moved(cell, offsets[|offsets| - 1])]
  }

  lemma {:induction false} MovedAllConcat(cell: seq<int>, a: seq<seq<int>>, b: seq<seq<int>>)
    requires forall o :: o in a || o in b ==> |o| == |cell|
    ensures (forall o :: o in a + b ==> |o| == |cell|) && MovedAll(cell, a + b) == MovedAll(cell, a) + MovedAll(cell, b)
  {
    if b == [] {
      assert a + b == a;
    } else {
      assert (a + b)[..|a + b| - 1] == a + b[..|b| - 1];
      MovedAllConcat(cell, a, b[..|b| - 1]);
    }
  }

  /** Offsets of a grid of the given dimension with steps of at most one and at most some changed coordinates. */
  predicate IsOffset(o: seq<int>, dim: nat, changes: nat) {
    |o| == dim && (forall i :: 0 <= i < |o| ==> -1 <= o[i] <= 1) && NonZeros(o) <= changes
  }

  /** Extensions of a prefix by at most some changes. */
  ghost predicate Extends(o: seq<int>, dim: nat, prefix: seq<int>, changes: nat) {
    && |o| == dim && |prefix| <= dim && o[..|prefix|] == prefix
    && (forall i :: |prefix| <= i < dim ==> -1 <= o[i] <= 1)
    && NonZeros(o) <= NonZeros(prefix) + changes
  }

  lemma ExtendsSplit(o: seq<int>, dim: nat, prefix: seq<int>, changes: nat)
    requires |prefix| < dim
    ensures Extends(o, dim, prefix, changes)
       <==> || (changes > 0
                && (Extends(o, dim, prefix + [-1], changes - 1) || Extends(o, dim, prefix + [1], changes - 1)))
            || Extends(o, dim, prefix + [0], changes)
  {
    var n := |prefix|;
    NonZerosAppend(prefix, -1);
    NonZerosAppend(prefix, 1);
    NonZerosAppend(prefix, 0);
    if |o| == dim {
      assert o[..n + 1][..n] == o[..n];
      NonZerosGrow(o, n + 1);
      NonZerosAppend(o[..n], o[n]);
      assert o[..n + 1] == o[..n] + [o[n]];
    }
  }

  lemma NonZerosAppend(o: seq<int>, x: int)
    ensures NonZeros(o + [x]) == NonZeros(o) + if x != 0 then 1 else 0
  {
    assert (o + [x])[..|o|] == o;
  }

  lemma {:induction false} NonZerosGrow(o: seq<int>, n: nat)
    requires n <= |o|
    ensures NonZeros(o[..n]) <= NonZeros(o)
    decreases |o| - n
  {
    if n < |o| {
      NonZerosGrow(o, n + 1);
      assert o[..n + 1] == o[..n] + [o[n]];
      NonZerosAppend(o[..n], o[n]);
    } else {
      assert o[..n] == o;
    }
  }

  predicate NoDuplicates<T(==)>(s: seq<T>) {
    forall i, j :: 0 <= i < j < |s| ==> s[i] != s[j]
  }

  lemma NoDuplicatesConcat<T>(a: seq<T>, b: seq<T>)
    requires NoDuplicates(a) && NoDuplicates(b) && forall x :: x in a ==> x !in b
    ensures NoDuplicates(a + b)
  {
    forall i, j | 0 <= i < j < |a + b| ensures (a + b)[i] != (a + b)[j] {
      assert i < |a| ==> a[i] in a;
      assert j >= |a| ==> b[j - |a|] in b;
    }
  }

  lemma {:induction false} OffsetsAreExtensions(changes: nat, dim: nat, prefix: seq<int>, o: seq<int>)
    requires |prefix| <= dim
    ensures o in Offsets(changes, dim, prefix) <==> Extends(o, dim, prefix, changes)
    decreases dim - |prefix|
  {
    if |prefix| == dim {
      assert Offsets(changes, dim, prefix) == [prefix];
      assert |o| == dim ==> o[..dim] == o;
    } else {
      ExtendsSplit(o, dim, prefix, changes);
      OffsetsAreExtensions(changes, dim, prefix + [0], o);
      if changes > 0 {
        OffsetsAreExtensions(changes - 1, dim, prefix + [-1], o);
        OffsetsAreExtensions(changes - 1, dim, prefix + [1], o);
      }
    }
  }

  lemma {:induction false} OffsetsDiffer(changes: nat, dim: nat, prefix: seq<int>)
    requires |prefix| <= dim
    ensures NoDuplicates(Offsets(changes, dim, prefix))
    decreases dim - |prefix|
  {
    if |prefix| < dim {
      OffsetsDiffer(changes, dim, prefix + [0]);
      if changes > 0 {
        var a, b, c := Offsets(changes - 1, dim, prefix + [-1]), Offsets(changes - 1, dim, prefix + [1]),
          Offsets(changes, dim, prefix + [0]);
        OffsetsDiffer(changes - 1, dim, prefix + [-1]);
        OffsetsDiffer(changes - 1, dim, prefix + [1]);
        Apart(changes - 1, changes - 1, dim, prefix, -1, 1);
        NoDuplicatesConcat(a, b);
        Apart(changes - 1, changes, dim, prefix, -1, 0);
        Apart(changes - 1, changes, dim, prefix, 1, 0);
        NoDuplicatesConcat(a + b, c);
        assert Offsets(changes, dim, prefix) == a + b + c;
      } else {
        assert Offsets(changes, dim, prefix) == Offsets(changes, dim, prefix + [0]);
      }
    }
  }

  /** Different next coordinates give different offsets. */
  lemma Apart(p: nat, q: nat, dim: nat, prefix: seq<int>, x: int, y: int)
    requires |prefix| < dim && x != y
    ensures forall o :: o in Offsets(p, dim, prefix + [x]) ==> o !in Offsets(q, dim, prefix + [y])
  {
    forall o | o in Offsets(p, dim, prefix + [x]) ensures o !in Offsets(q, dim, prefix + [y]) {
      OffsetsAreExtensions(p, dim, prefix + [x], o);
      OffsetsAreExtensions(q, dim, prefix + [y], o);
      assert o[..|prefix| + 1][|prefix|] == x;
    }
  }

  lemma OffsetsHaveSize(changes: nat, dim: nat, prefix: seq<int>)
    requires |prefix| <= dim
    ensures forall o :: o in Offsets(changes, dim, prefix) ==> |o| == dim
  {
    forall o | o in Offsets(changes, dim, prefix) ensures |o| == dim {
      OffsetsAreExtensions(changes, dim, prefix, o);
    }
  }

  /** The cells moved by all offsets below a prefix. */
  function Cells(changes: nat, cell: seq<int>, prefix: seq<int>): seq<seq<int>>
    requires |prefix| <= |cell|
  {
    OffsetsHaveSize(changes, |cell|, prefix);
    MovedAll(cell, Offsets(changes, |cell|, prefix))
  }

  lemma CellsSplit(changes: nat, cell: seq<int>, prefix: seq<int>)
    requires |prefix| < |cell|
    ensures Cells(changes, cell, prefix)
         == (if changes > 0
             then Cells(changes - 1, cell, prefix + [-1]) + Cells(changes - 1, cell, prefix + [1])
             else [])
            + Cells(changes, cell, prefix + [0])
  {
    var dim := |cell|;
    OffsetsHaveSize(changes, dim, prefix);
    OffsetsHaveSize(changes, dim, prefix + [0]);
    var zero := Offsets(changes, dim, prefix + [0]);
    if changes > 0 {
      var down, up := Offsets(changes - 1, dim, prefix + [-1]), Offsets(changes - 1, dim, prefix + [1]);
      OffsetsHaveSize(changes - 1, dim, prefix + [-1]);
      OffsetsHaveSize(changes - 1, dim, prefix + [1]);
      assert Offsets(changes, dim, prefix) == down + up + zero;
      hide Offsets;
      MovedAllConcat(cell, down, up);
      MovedAllConcat(cell, down + up, zero);
    } else {
      assert Offsets(changes, dim, prefix) == zero;
    }
  }

  lemma CellsAtEnd(changes: nat, cell: seq<int>, prefix: seq<int>)
    requires |prefix| == |cell|
    ensures Cells(changes, cell, prefix) == [Moved(cell, prefix)]
  {
    assert Offsets(changes, |cell|, prefix) == [prefix] && [prefix][..0] == [];
  }

  lemma RecursorUnfold(changes: nat, cell: seq<int>, acc: seq<seq<int>>, prefix: seq<int>)
    requires |prefix| <= |cell|
    ensures Recursor(changes, cell, acc, prefix)
         == if |prefix| == |cell| then acc + [Moved(cell, prefix)]
            else if changes == 0 then Recursor(changes, cell, acc, prefix + [0])
            else Recursor(changes, cell,
                          Recursor(changes - 1, cell, Recursor(changes - 1, cell, acc, prefix + [-1]), prefix + [1]),
                          prefix + [0])
  {
  }

  /** The recursion appends the cells moved by all offsets below the prefix. */
  lemma {:induction false} RecursorAppends(changes: nat, cell: seq<int>, acc: seq<seq<int>>, prefix: seq<int>)
    requires |prefix| <= |cell|
    ensures Recursor(changes, cell, acc, prefix) == acc + Cells(changes, cell, prefix)
    decreases |cell| - |prefix|
  {
    hide *;
    RecursorUnfold(changes, cell, acc, prefix);
    if |prefix| == |cell| {
      CellsAtEnd(changes, cell, prefix);
    } else {
      CellsSplit(changes, cell, prefix);
      var zero := Cells(changes, cell, prefix + [0]);
      if changes == 0 {
        RecursorAppends(changes, cell, acc, prefix + [0]);
        assert [] + zero == zero;
      } else {
        var down, up := Cells(changes - 1, cell, prefix + [-1]), Cells(changes - 1, cell, prefix + [1]);
        RecursorAppends(changes - 1, cell, acc, prefix + [-1]);
        RecursorAppends(changes - 1, cell, acc + down, prefix + [1]);
        RecursorAppends(changes, cell, acc + down + up, prefix + [0]);
        assert acc + down + up + zero == acc + (down + up + zero);
      }
    }
  }

  lemma {:induction false} MovedAllMembers(cell: seq<int>, offsets: seq<seq<int>>, c: seq<int>)
    requires forall o :: o in offsets ==> |o| == |cell|
    ensures c in MovedAll(cell, offsets) <==> |c| == |cell| && Difference(c, cell) in offsets
  {
    if offsets != [] {
      var n := |offsets| - 1;
      assert offsets[n] in offsets;
      MovedAllMembers(cell, offsets[..n], c);
      MovedIff(cell, offsets[n], c);
      assert offsets == offsets[..n] + [offsets[n]];
    }
  }

  function Difference(c: seq<int>, cell: seq<int>): seq<int> {
    seq(|c|, i requires 0 <= i < |c| => if i < |cell| then c[i] - cell[i] else 0)
  }

  lemma MovedIff(cell: seq<int>, o: seq<int>, c: seq<int>)
    requires |o| == |cell|
    ensures c == Moved(cell, o) <==> |c| == |cell| && Difference(c, cell) == o
  {
    if |c| == |cell| && Difference(c, cell) == o {
      forall i | 0 <= i < |c| ensures c[i] == Moved(cell, o)[i] {
        assert Difference(c, cell)[i] == o[i];
      }
    }
    if c == Moved(cell, o) {
      forall i | 0 <= i < |c| ensures Difference(c, cell)[i] == o[i] {
        assert c[i] == Moved(cell, o)[i];
      }
    }
  }

  lemma {:induction false} MovedAllDiffer(cell: seq<int>, offsets: seq<seq<int>>)
    requires NoDuplicates(offsets) && forall o :: o in offsets ==> |o| == |cell|
    ensures NoDuplicates(MovedAll(cell, offsets))
  {
    if offsets != [] {
      var n := |offsets| - 1;
      assert offsets[n] in offsets;
      var last := Moved(cell, offsets[n]);
      MovedAllDiffer(cell, offsets[..n]);
      MovedAllMembers(cell, offsets[..n], last);
      MovedIff(cell, offsets[n], last);
      assert offsets[n] !in offsets[..n];
      NoDuplicatesConcat(MovedAll(cell, offsets[..n]), [last]);
    }
  }

  /** Main result: recursor lists every cell that differs from the given one by at most one in every coordinate, and in
      at most changes coordinates, exactly once. */
  lemma RecursorIsNeighbourhood(changes: nat, cell: seq<int>, c: seq<int>)
    ensures c in Recursor(changes, cell, [], []) <==> |c| == |cell| && IsOffset(Difference(c, cell), |cell|, changes)
    ensures NoDuplicates(Recursor(changes, cell, [], []))
  {
    hide NoDuplicates;
    var offsets := Offsets(changes, |cell|, []);
    OffsetsHaveSize(changes, |cell|, []);
    OffsetsDiffer(changes, |cell|, []);
    OffsetsAreExtensions(changes, |cell|, [], Difference(c, cell));
    assert Cells(changes, cell, []) == MovedAll(cell, offsets);
    RecursorAppends(changes, cell, [], []);
    assert [] + Cells(changes, cell, []) == Cells(changes, cell, []);
    hide Recursor;
    hide Offsets;
    hide Cells;
    MovedAllDiffer(cell, offsets);
    MovedAllMembers(cell, offsets, c);
  }

  /** The call that extract_neighbours makes. */
  function Neighbourhood(order: nat, cell: seq<int>): (cells: seq<seq<int>>)
    ensures AllOfSize(cells, |cell|)
  {
    NeighboursHaveSize(order, cell);
    Recursor(order, cell, [], [])
  }

  predicate AllOfSize(cells: seq<seq<int>>, n: nat) {
    forall k :: 0 <= k < |cells| ==> |cells[k]| == n
  }

  lemma NeighboursHaveSize(changes: nat, cell: seq<int>)
    ensures AllOfSize(Recursor(changes, cell, [], []), |cell|)
  {
    hide Recursor;
    var cells := Recursor(changes, cell, [], []);
    forall k | 0 <= k < |cells| ensures |cells[k]| == |cell| {
      assert cells[k] in cells;
      RecursorIsNeighbourhood(changes, cell, cells[k]);
    }
  }

  // ---- the edge list ----

  type Edge = (int, int)

  /** Two cells of the grid are neighbours. */
  ghost predicate Near(dims: seq<nat>, order: nat, i: int, j: int)
    requires Positive(dims)
  {
    && 0 <= i < Size(dims) && 0 <= j < Size(dims)
    && IsOffset(Difference(Digits(dims, j), Digits(dims, i)), |dims|, order)
  }

  /** The neighbours of one cell that lie in the grid, as edges; the filter and map of the source. */
  function EdgesFrom(dims: seq<nat>, index: int, cells: seq<seq<int>>): seq<Edge>
    requires AllOfSize(cells, |dims|)
  {
    if cells == [] then []
    else
      var n := |cells| - 1;
      EdgesFrom(dims, index, cells[..n])
      + match IndexOf(dims, cells[n]) case Some(j) => [(index, j)] case None => []
  }

  function EdgesUpTo(dims: seq<nat>, order: nat, n: nat): seq<Edge>
    requires Positive(dims)
  {
    if n == 0 then []
    else
      EdgesUpTo(dims, order, n - 1) + CellEdges(dims, order, n - 1)
  }

  function CellEdges(dims: seq<nat>, order: nat, index: int): seq<Edge>
    requires Positive(dims)
  {
    EdgesFrom(dims, index, Neighbourhood(order, Digits(dims, index)))
  }

  lemma {:induction false} EdgesFromMembers(dims: seq<nat>, index: int, cells: seq<seq<int>>, e: Edge)
    requires Positive(dims) && AllOfSize(cells, |dims|)
    ensures e in EdgesFrom(dims, index, cells)
       <==> e.0 == index && 0 <= e.1 < Size(dims) && Digits(dims, e.1) in cells
  {
    if cells != [] {
      var n := |cells| - 1;
      EdgesFromMembers(dims, index, cells[..n], e);
      UniformMapIsBijective(dims, e.1, cells[n]);
      assert cells == cells[..n] + [cells[n]];
      assert cells[n] in cells;
    }
  }

  lemma {:induction false} EdgesFromDiffer(dims: seq<nat>, index: int, cells: seq<seq<int>>)
    requires Positive(dims) && NoDuplicates(cells) && AllOfSize(cells, |dims|)
    ensures NoDuplicates(EdgesFrom(dims, index, cells))
  {
    if cells != [] {
      var n := |cells| - 1;
      assert cells[n] in cells;
      EdgesFromDiffer(dims, index, cells[..n]);
      if IndexOf(dims, cells[n]).Some? {
        var j := IndexOf(dims, cells[n]).value;
        UniformMapIsBijective(dims, j, cells[n]);
        EdgesFromMembers(dims, index, cells[..n], (index, j));
        assert cells[n] !in cells[..n];
        NoDuplicatesConcat(EdgesFrom(dims, index, cells[..n]), [(index, j)]);
      }
    }
  }

  /** The edges of one cell. */
  lemma EdgesOfCell(dims: seq<nat>, order: nat, i: nat, e: Edge)
    requires Positive(dims) && i < Size(dims)
    ensures e in CellEdges(dims, order, i) <==> e.0 == i && Near(dims, order, i, e.1)
    ensures NoDuplicates(CellEdges(dims, order, i))
  {
    var cell := Digits(dims, i);
    RecursorIsNeighbourhood(order, cell, Digits(dims, e.1));
    assert Neighbourhood(order, cell) == Recursor(order, cell, [], []);
    hide Recursor;
    hide Neighbourhood;
    hide Digits;
    hide EdgesFrom;
    EdgesFromMembers(dims, i, Neighbourhood(order, cell), e);
    EdgesFromDiffer(dims, i, Neighbourhood(order, cell));
  }

  lemma EdgesUnfold(dims: seq<nat>, order: nat, n: nat)
    requires Positive(dims)
    ensures EdgesUpTo(dims, order, n)
         == if n == 0 then [] else EdgesUpTo(dims, order, n - 1) + CellEdges(dims, order, n - 1)
  {
    hide CellEdges;
  }

  lemma NoEdgesDiffer()
    ensures NoDuplicates<Edge>([])
  {
  }

  lemma {:induction false} EdgesMembers(dims: seq<nat>, order: nat, n: nat, e: Edge)
    requires Positive(dims) && n <= Size(dims)
    ensures e in EdgesUpTo(dims, order, n) <==> e.0 < n && Near(dims, order, e.0, e.1)
  {
    hide *;
    EdgesUnfold(dims, order, n);
    if n > 0 {
      EdgesMembers(dims, order, n - 1, e);
      EdgesOfCell(dims, order, n - 1, e);
    } else {
      NearIsInside(dims, order, e);
    }
  }

  lemma NearIsInside(dims: seq<nat>, order: nat, e: Edge)
    requires Positive(dims)
    ensures Near(dims, order, e.0, e.1) ==> 0 <= e.0
  {
  }

  lemma {:induction false} EdgesDiffer(dims: seq<nat>, order: nat, n: nat)
    requires Positive(dims) && n <= Size(dims)
    ensures NoDuplicates(EdgesUpTo(dims, order, n))
  {
    hide *;
    EdgesUnfold(dims, order, n);
    NoEdgesDiffer();
    if n > 0 {
      var before, more := EdgesUpTo(dims, order, n - 1), CellEdges(dims, order, n - 1);
      EdgesDiffer(dims, order, n - 1);
      EdgesOfCell(dims, order, n - 1, (0, 0));
      forall e: Edge | e in before ensures e !in more {
        EdgesMembers(dims, order, n - 1, e);
        EdgesOfCell(dims, order, n - 1, e);
      }
      NoDuplicatesConcat(before, more);
    }
  }

  lemma {:induction false} NonZerosSymmetric(a: seq<int>, b: seq<int>)
    requires |a| == |b|
    ensures NonZeros(Difference(a, b)) == NonZeros(Difference(b, a))
  {
    if a != [] {
      var n := |a| - 1;
      NonZerosSymmetric(a[..n], b[..n]);
      assert Difference(a, b)[..n] == Difference(a[..n], b[..n]);
      assert Difference(b, a)[..n] == Difference(b[..n], a[..n]);
    }
  }

  lemma {:induction false} NonZerosOfSame(a: seq<int>)
    ensures NonZeros(Difference(a, a)) == 0
  {
    if a != [] {
      var n := |a| - 1;
      NonZerosOfSame(a[..n]);
      assert Difference(a, a)[..n] == Difference(a[..n], a[..n]);
    }
  }

  /** A set of edges that relates every node below n with itself and every edge with its reverse, without repeats. */
  ghost predicate WellBuilt(edges: seq<Edge>, n: nat) {
    && NoDuplicates(edges)
    && (forall i, j :: (i, j) in edges ==> 0 <= i < n && 0 <= j < n && (j, i) in edges)
    && forall i :: 0 <= i < n ==> (i, i) in edges
  }

  /** Main result: the edge list holds exactly the pairs of neighbouring cells; it is reflexive, symmetric and free of
      duplicates. */
  lemma EdgeListIsComplete(dims: seq<nat>, order: nat)
    requires Positive(dims)
    ensures forall i, j :: (i, j) in EdgesUpTo(dims, order, Size(dims)) <==> Near(dims, order, i, j)
    ensures WellBuilt(EdgesUpTo(dims, order, Size(dims)), Size(dims))
  {
    var edges := EdgesUpTo(dims, order, Size(dims));
    forall i, j ensures (i, j) in edges <==> Near(dims, order, i, j) {
      EdgesMembers(dims, order, Size(dims), (i, j));
    }
    EdgesDiffer(dims, order, Size(dims));
    forall i, j | Near(dims, order, i, j) ensures Near(dims, order, j, i) {
      NonZerosSymmetric(Digits(dims, i), Digits(dims, j));
      var d, e := Difference(Digits(dims, j), Digits(dims, i)), Difference(Digits(dims, i), Digits(dims, j));
      assert forall k :: 0 <= k < |e| ==> e[k] == -d[k];
    }
    forall i | 0 <= i < Size(dims) ensures Near(dims, order, i, i) {
      NonZerosOfSame(Digits(dims, i));
    }
  }

  /** extract_neighbours (the second definition): for every index the cells of recursor that lie in the grid. */
  method ExtractNeighbours(dims: seq<nat>, order: nat) returns (edgeList: seq<Edge>)
    requires Positive(dims)
    ensures edgeList == EdgesUpTo(dims, order, Size(dims))
  {
    hide Recursor;
    hide Neighbourhood;
    hide Digits;
    hide Size;
    hide IndexOf;
    edgeList := [];
    for index := 0 to Size(dims)
      invariant edgeList == EdgesUpTo(dims, order, index)
    {
      CellOfIndex(dims, index);
      var c := GetCell(dims, index);
      var edges := Connect(dims, index, Neighbourhood(order, c.value));
      edgeList := edgeList + edges;
    }
  }

  lemma CellOfIndex(dims: seq<nat>, index: nat)
    requires Positive(dims) && index < Size(dims)
    ensures CellOf(dims, index) == Some(Digits(dims, index))
  {
    ValueOfDigits(dims, index);
  }

  /** The filter and the inner loop of extract_neighbours. */
  method Connect(dims: seq<nat>, index: int, ncs: seq<seq<int>>) returns (edges: seq<Edge>)
    requires AllOfSize(ncs, |dims|)
    ensures edges == EdgesFrom(dims, index, ncs)
  {
    edges := [];
    for k := 0 to |ncs|
      invariant edges == EdgesFrom(dims, index, ncs[..k])
    {
      assert ncs[..k + 1][..k] == ncs[..k];
      var nc := GetIndex(dims, ncs[k]);
      if nc.Some? {
        edges := edges + [(index, nc.value)];
      }
    }
    assert ncs[..|ncs|] == ncs;
  }

  // ---- blocks of parameters ----

  /** The entries of one edge for parameter k1 of its source, up to parameter m of its target. */
  function Row(e: Edge, n: nat, k1: nat, m: nat): seq<Edge> {
    if m == 0 then [] else Row(e, n, k1, m - 1) + [(e.0 * n + k1, e.1 * n + (m - 1))]
  }

  function Rows(e: Edge, n: nat, m: nat): seq<Edge> {
    if m == 0 then [] else Rows(e, n, m - 1) + Row(e, n, m - 1, n)
  }

  function Extended(edges: seq<Edge>, n: nat): seq<Edge> {
    if edges == [] then [] else Extended(edges[..|edges| - 1], n) + Rows(edges[|edges| - 1], n, n)
  }

  /** The edge whose block an entry lies in. */
  function BlockOf(x: Edge, n: nat): Edge
    requires n > 0
  {
    (x.0 / n, x.1 / n)
  }

  lemma BlockIndex(i: int, n: nat, k: nat, x: int)
    requires k < n
    ensures x == i * n + k <==> x / n == i && x % n == k
  {
    if x == i * n + k {
      assert x == k + n * i;
      DigitOf(n, i, k);
    }
  }

  lemma {:induction false} RowMembers(e: Edge, n: nat, k1: nat, m: nat, x: Edge)
    requires k1 < n && m <= n
    ensures x in Row(e, n, k1, m) <==> BlockOf(x, n) == e && x.0 % n == k1 && x.1 % n < m
    ensures NoDuplicates(Row(e, n, k1, m))
  {
    if m > 0 {
      var last := (e.0 * n + k1, e.1 * n + (m - 1));
      RowMembers(e, n, k1, m - 1, x);
      RowMembers(e, n, k1, m - 1, last);
      BlockIndex(e.0, n, k1, x.0);
      BlockIndex(e.1, n, m - 1, x.1);
      BlockIndex(e.1, n, m - 1, last.1);
      NoDuplicatesConcat(Row(e, n, k1, m - 1), [last]);
    }
  }

  lemma RowsUnfold(e: Edge, n: nat, m: nat)
    ensures Rows(e, n, m) == if m == 0 then [] else Rows(e, n, m - 1) + Row(e, n, m - 1, n)
  {
    hide Row;
  }

  lemma {:induction false} RowsMembers(e: Edge, n: nat, m: nat, x: Edge)
    requires m <= n && n > 0
    ensures x in Rows(e, n, m) <==> BlockOf(x, n) == e && x.0 % n < m
    ensures NoDuplicates(Rows(e, n, m))
  {
    hide *;
    RowsUnfold(e, n, m);
    NoEdgesDiffer();
    if m > 0 {
      var before, more := Rows(e, n, m - 1), Row(e, n, m - 1, n);
      RowsMembers(e, n, m - 1, x);
      RowMembers(e, n, m - 1, n, x);
      forall y: Edge | y in before ensures y !in more {
        RowsMembers(e, n, m - 1, y);
        RowMembers(e, n, m - 1, n, y);
      }
      NoDuplicatesConcat(before, more);
    }
  }

  lemma ExtendedUnfold(edges: seq<Edge>, n: nat)
    ensures Extended(edges, n)
         == if edges == [] then [] else Extended(edges[..|edges| - 1], n) + Rows(edges[|edges| - 1], n, n)
  {
    hide Rows;
  }

  /** An entry is listed exactly if the edge of its block is. */
  lemma {:induction false} ExtendedMembers(edges: seq<Edge>, n: nat, x: Edge)
    requires n > 0
    ensures x in Extended(edges, n) <==> BlockOf(x, n) in edges
  {
    hide *;
    ExtendedUnfold(edges, n);
    if edges != [] {
      var last := |edges| - 1;
      ExtendedMembers(edges[..last], n, x);
      RowsMembers(edges[last], n, n, x);
      RemainderBelow(x.0, n);
      assert edges == edges[..last] + [edges[last]];
    }
  }

  lemma RemainderBelow(a: int, n: nat)
    requires n > 0
    ensures 0 <= a % n < n
  {
  }

  lemma {:induction false} ExtendedDiffer(edges: seq<Edge>, n: nat)
    requires n > 0 && NoDuplicates(edges)
    ensures NoDuplicates(Extended(edges, n))
  {
    if edges != [] {
      var last := |edges| - 1;
      assert NoDuplicates(edges[..last]) && edges[last] !in edges[..last];
      hide *;
      ExtendedUnfold(edges, n);
      var before, more := Extended(edges[..last], n), Rows(edges[last], n, n);
      ExtendedDiffer(edges[..last], n);
      RowsMembers(edges[last], n, n, (0, 0));
      forall y: Edge | y in before ensures y !in more {
        ExtendedMembers(edges[..last], n, y);
        RowsMembers(edges[last], n, n, y);
      }
      NoDuplicatesConcat(before, more);
    }
  }

  lemma BlockBound(x: int, n: nat, size: nat)
    requires n > 0
    ensures 0 <= x < size * n <==> 0 <= x / n < size
  {
    var q, r := x / n, x % n;
    assert x == n * q + r && 0 <= r < n;
    RadixInside(n, q, r, size);
  }

  lemma RadixInside(n: nat, q: int, r: nat, size: nat)
    requires r < n
    ensures 0 <= n * q + r < size * n <==> 0 <= q < size
  {
    if 0 <= q < size {
      assert n * q <= n * (size - 1) == size * n - n;
    }
    assert q <= -1 ==> n * q + n <= 0;
    assert q >= size ==> n * q >= n * size;
  }

  /** Main result: extending by blocks keeps an edge list complete, reflexive, symmetric and free of duplicates. */
  lemma ExtendedIsWellBuilt(edges: seq<Edge>, n: nat, size: nat)
    requires n > 0 && WellBuilt(edges, size)
    ensures WellBuilt(Extended(edges, n), size * n)
    ensures forall x: Edge :: x in Extended(edges, n) <==> BlockOf(x, n) in edges
  {
    forall x: Edge ensures x in Extended(edges, n) <==> BlockOf(x, n) in edges {
      ExtendedMembers(edges, n, x);
    }
    ExtendedDiffer(edges, n);
    forall i, j | (i, j) in Extended(edges, n)
      ensures 0 <= i < size * n && 0 <= j < size * n && (j, i) in Extended(edges, n)
    {
      ExtendedMembers(edges, n, (i, j));
      ExtendedMembers(edges, n, (j, i));
      assert (i / n, j / n) in edges;
      BlockBound(i, n, size);
      BlockBound(j, n, size);
    }
    forall i | 0 <= i < size * n ensures (i, i) in Extended(edges, n) {
      BlockBound(i, n, size);
      ExtendedMembers(edges, n, (i, i));
    }
  }

  /** extend_neighbourhood */
  method ExtendNeighbourhood(edgeList: seq<Edge>, numberOfParameters: nat) returns (extended: seq<Edge>)
    ensures extended == Extended(edgeList, numberOfParameters)
  {
    var n := numberOfParameters;
    extended := [];
    for e := 0 to |edgeList|
      invariant extended == Extended(edgeList[..e], n)
    {
      ExtendedUnfold(edgeList[..e + 1], n);
      assert edgeList[..e + 1][..e] == edgeList[..e];
      var rows := ExtendEdge(edgeList[e], n);
      extended := extended + rows;
    }
    assert edgeList[..|edgeList|] == edgeList;
  }

  /** The two inner loops of extend_neighbourhood. */
  method ExtendEdge(e: Edge, n: nat) returns (rows: seq<Edge>)
    ensures rows == Rows(e, n, n)
  {
    rows := [];
    for k1 := 0 to n
      invariant rows == Rows(e, n, k1)
    {
      ghost var before := rows;
      for k2 := 0 to n
        invariant rows == before + Row(e, n, k1, k2)
      {
        rows := rows + [(e.0 * n + k1, e.1 * n + k2)];
      }
    }
  }

  /** The two calls of the example: the neighbours of the grid, extended by the parameters of each cell. */
  method NeighboursOfGrid(dims: seq<nat>, order: nat, numberOfParameters: nat) returns (nbs: seq<Edge>)
    requires Positive(dims) && numberOfParameters > 0
    ensures WellBuilt(nbs, Size(dims) * numberOfParameters)
    ensures forall x: Edge :: x in nbs <==>
              Near(dims, order, x.0 / numberOfParameters, x.1 / numberOfParameters)
  {
    hide Near;
    hide EdgesUpTo;
    hide Size;
    hide WellBuilt;
    hide Extended;
    EdgeListIsComplete(dims, order);
    var edges := ExtractNeighbours(dims, order);
    ExtendedIsWellBuilt(edges, numberOfParameters, Size(dims));
    nbs := ExtendNeighbourhood(edges, numberOfParameters);
  }
}
