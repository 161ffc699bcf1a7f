/** The growing and shrinking vector of common/vector.c. */
module Vector {

  /** A pointer slot. */
  datatype Item<T> = Null | Ptr(value: T)

  /** Credit for the next resize: it peaks at a quarter of the capacity and at the full capacity. */
  function Credit(size: nat, capacity: nat): int {
    if 4 * size <= capacity then 2 * size
    else if 2 * size <= capacity then capacity - 2 * size
    else 2 * size - capacity
  }

  lemma CreditIsNatural(size: nat, capacity: nat)
    requires size <= capacity
    ensures Credit(size, capacity) >= 0
  {
  }

  /** Doubling a full vector makes room for one more item if and only if it had any capacity at all; so a vector that
      was allocated with capacity 0 never takes an item. */
  lemma DoublingMakesRoom(size: nat, capacity: nat)
    requires size <= capacity
    ensures size < (if size == capacity then capacity * 2 else capacity) <==> capacity > 0
  {
  }

  /** An addition pays for the slots that doubling moves. */
  lemma AddIsPaid(size: nat, capacity: nat)
    requires size <= capacity && capacity > 0
    ensures var newCapacity := if size == capacity then capacity * 2 else capacity;
            var moved := if size == capacity then capacity else 0;
            size + 1 <= newCapacity && moved + Credit(size + 1, newCapacity) <= Credit(size, capacity) + 3
  {
  }

  /** A deletion pays for the slots that halving moves. */
  lemma DeleteIsPaid(size: nat, capacity: nat)
    requires 0 < size <= capacity
    ensures var shrinks := size - 1 > 0 && size - 1 == capacity / 4;
            var newCapacity := if shrinks then capacity / 2 else capacity;
            var moved := if shrinks then capacity / 2 else 0;
            && 0 < newCapacity && size - 1 <= newCapacity
            && moved + Credit(size - 1, newCapacity) <= Credit(size, capacity) + 3
  {
  }

  function Removed<T>(s: seq<T>, index: nat): seq<T>
    requires index < |s|
  {
    s[..index] + s[index + 1..]
  }

  lemma IsRemoved<T>(s: seq<T>, r: seq<T>, index: nat)
    requires index < |s| && |r| == |s| - 1
    requires (forall k :: 0 <= k < index ==> r[k] == s[k]) && forall k :: index <= k < |r| ==> r[k] == s[k + 1]
    ensures r == Removed(s, index)
  {
  }

  /** moved counts the slots copied by resizing, calls the calls of VectorAdd and VectorDelete. */
  class Vector<T> {
    var items: array<Item<T>>
    var size: nat
    var capacity: nat
    ghost var moved: nat
    ghost var calls: nat

    ghost predicate Valid()
      reads this, items
    {
      && capacity == items.Length && size <= capacity
      && moved + Credit(size, capacity) <= 3 * calls
    }

    ghost function Contents(): seq<Item<T>>
      reads this, items
      requires Valid()
    {
      items[..size]
    }

    /** alloc_vector */
    constructor (initial: nat)
      ensures Valid() && fresh(items) && Contents() == [] && capacity == initial && moved == calls == 0
    {
      items := new Item<T>[initial](_ => Null);
      size, capacity, moved, calls := 0, initial, 0, 0;
    }

    /** resize_vector: realloc keeps the common prefix; what new slots hold is not specified. */
    method ResizeVector(newCapacity: nat)
      requires size <= newCapacity && capacity == items.Length && size <= capacity
      modifies this
      ensures capacity == items.Length == newCapacity && fresh(items)
      ensures size == old(size) && items[..size] == old(items[..size])
      ensures calls == old(calls)
      ensures moved == old(moved) + if newCapacity < old(capacity) then newCapacity else old(capacity)
    {
      var kept := if newCapacity < capacity then newCapacity else capacity;
      var grown := new Item<T>[newCapacity](_ => Null);
      forall i | 0 <= i < kept {
        grown[i] := items[i];
      }
      items, capacity := grown, newCapacity;
      moved := moved + kept;
    }

    /** The write behind the last slot needs the room that DoublingMakesRoom speaks of. */
    method VectorAdd(item: Item<T>)
      requires Valid() && capacity > 0
      modifies this, items
      ensures Valid() && (items == old(items) || fresh(items)) && capacity > 0
      ensures Contents() == old(Contents()) + [item]
      ensures calls == old(calls) + 1
    {
      AddIsPaid(size, capacity);
      DoublingMakesRoom(size, capacity);
      hide Credit;
      if capacity == size {
        ResizeVector(capacity * 2);
      }
      items[size] := item;
      size := size + 1;
      calls := calls + 1;
    }

    method VectorGet(index: int) returns (item: Item<T>)
      requires Valid()
      ensures item == if 0 <= index < |Contents()| then Contents()[index] else Null
    {
      if index >= 0 && index < size {
        item := items[index];
      } else {
        item := Null;
      }
    }

    /** Later items move down by one; the vector is halved when three quarters of it are free. */
    method VectorDelete(index: int)
      requires Valid()
      modifies this, items
      ensures Valid() && (items == old(items) || fresh(items)) && (capacity > 0 <==> old(capacity) > 0)
      ensures Contents()
           == if 0 <= index < |old(Contents())| then Removed(old(Contents()), index) else old(Contents())
      ensures calls == old(calls) + 1
    {
      calls := calls + 1;
      if index < 0 || index >= size {
        return;
      }
      DeleteIsPaid(size, capacity);
      hide Credit;
      hide Removed;
      ShiftDown(index);
      IsRemoved(old(items[..size]), items[..size - 1], index);
      size := size - 1;
      if size > 0 && size == capacity / 4 {
        ResizeVector(capacity / 2);
      }
    }

    method ShiftDown(index: nat)
      requires index < size <= items.Length
      modifies items
      ensures forall k :: 0 <= k < index ==> items[k] == old(items[k])
      ensures forall k :: index <= k < size - 1 ==> items[k] == old(items[k + 1])
    {
      items[index] := Null;
      for i := index to size - 1
        invariant forall k :: 0 <= k < index ==> items[k] == old(items[k])
        invariant forall k :: index <= k < i ==> items[k] == old(items[k + 1])
        invariant forall k :: i < k < size ==> items[k] == old(items[k])
      {
        items[i] := items[i + 1];
        items[i + 1] := Null;
      }
    }

    /** Resizing moves at most three slots per call, whatever the calls were. */
    lemma MovesAreAmortised()
      requires Valid()
      ensures moved <= 3 * calls && size <= capacity
    {
      CreditIsNatural(size, capacity);
    }
  }
}
