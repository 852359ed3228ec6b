/** The slice-backed queue of the state writer (internal/action/statewriter.go). */
module Fifos {

  /** Below this many dead slots a pop never moves the live items. */
  const COMPACT_ABOVE := 1024

  /**
   * A first-in first-out queue over a growable buffer. `items[..len]` is the
   * Go slice, `items.Length` its capacity; `items[head..len]` is live.
   */
  class Fifo<T> {
    const zero: T
    var items: array<T>
    var len: nat
    var head: nat

    /** Items moved by compactions and items popped, since the queue was made. */
    ghost var moved: nat
    ghost var popped: nat

    ghost predicate Valid()
      reads this, items
    {
      && head <= len <= items.Length
      // The dead prefix is bounded.
      && head <= (if len - head < COMPACT_ABOVE then COMPACT_ABOVE else len - head)
      // No dead or spare slot keeps a popped value reachable.
      && (forall i :: 0 <= i < items.Length && !(head <= i < len) ==> items[i] == zero)
      // Every moved item is paid for by an earlier pop.
      && moved + head <= popped
    }

    ghost function Contents(): seq<T>
      requires Valid()
      reads this, items
    {
      items[head..len]
    }

    constructor (zero: T)
      ensures Valid() && Contents() == [] && fresh(items)
    {
      this.zero := zero;
      items := new T[0];
      len, head := 0, 0;
      moved, popped := 0, 0;
    }

    function Size(): (n: nat)
      requires Valid()
      reads this, items
      ensures n == |Contents()|
    {
      len - head
    }

    method Push(v: T)
      requires Valid()
      modifies this, items
      ensures Valid()
      ensures items == old(items) || fresh(items)
      ensures Contents() == old(Contents()) + [v]
      ensures moved == old(moved) && popped == old(popped)
    {
      if len == items.Length {
        Grow();
      }
      ghost var was := Contents();
      items[len] := v;
      len := len + 1;
      assert Contents() == was + [v];
    }

    /** Moves the slice to a larger buffer. */
    method Grow()
      requires Valid()
      modifies this`items
      ensures Valid() && fresh(items) && len < items.Length && Contents() == old(Contents())
    {
      var grown := new T[2 * len + 1](_ => zero);
      forall i | 0 <= i < len {
        grown[i] := items[i];
      }
      assert grown[head..len] == items[head..len];
      items := grown;
    }

    method Pop() returns (v: T)
      requires Valid() && Contents() != []
      modifies this, items
      ensures Valid() && items == old(items)
      ensures v == old(Contents())[0]
      ensures Contents() == old(Contents())[1..]
      ensures popped == old(popped) + 1
    {
      ghost var was := Contents();
      v := items[head];
      items[head] := zero;
      head := head + 1;
      popped := popped + 1;
      if head == len {
        len, head := 0, 0;
      } else if head > COMPACT_ABOVE && head * 2 > len {
        assert items[head..len] == was[1..];
        Compact();
      }
      assert Contents() == was[1..];
    }

    /** Moves the live items to the front of the buffer and clears the rest. */
    method Compact()
      requires head <= len <= items.Length && 0 < head
      requires forall i :: 0 <= i < items.Length && !(head <= i < len) ==> items[i] == zero
      modifies this`len, this`head, this`moved, items
      ensures head == 0 && len == old(len) - old(head) && moved == old(moved) + len
      ensures items[..len] == old(items[head..len])
      ensures forall i :: len <= i < items.Length ==> items[i] == zero
    {
      var n := len - head;
      CopyDown(n);
      Clear(n);
      len, head, moved := n, 0, moved + n;
    }

    method CopyDown(n: nat)
      requires head + n <= items.Length
      modifies items
      ensures forall k :: 0 <= k < n ==> items[k] == old(items[head + k])
      ensures forall k :: n <= k < items.Length ==> items[k] == old(items[k])
    {
      for i := 0 to n
        invariant forall k :: 0 <= k < i ==> items[k] == old(items[head + k])
        invariant forall k :: i <= k < items.Length ==> items[k] == old(items[k])
      {
        items[i] := items[head + i];
      }
    }

    method Clear(n: nat)
      requires n <= len <= items.Length
      modifies items
      ensures forall k :: n <= k < len ==> items[k] == zero
      ensures forall k :: 0 <= k < items.Length && !(n <= k < len) ==> items[k] == old(items[k])
    {
      for i := n to len
        invariant forall k :: n <= k < i ==> items[k] == zero
        invariant forall k :: 0 <= k < items.Length && !(n <= k < i) ==> items[k] == old(items[k])
      {
        items[i] := zero;
      }
    }
  }
}
