/** Sorting and removing duplicates, as Go's slices.Sort and slices.Compact do. */
module Sorting {

  predicate Increasing(ids: seq<nat>) {
    forall i, j :: 0 <= i < j < |ids| ==> ids[i] < ids[j]
  }

  predicate Sorted(ids: seq<nat>) {
    forall i, j :: 0 <= i < j < |ids| ==> ids[i] <= ids[j]
  }

  lemma InsertedIsSorted(a: seq<nat>, id: nat, b: seq<nat>)
    requires Sorted(a + b) && (a != [] ==> a[|a| - 1] <= id) && (b != [] ==> id <= b[0])
    ensures Sorted(a + [id] + b)
  {
    var r, s := a + [id] + b, a + b;
    forall i, j | 0 <= i < j < |r|
      ensures r[i] <= r[j]
    {
      if i != |a| && j != |a| {
        var i', j' := if i < |a| then i else i - 1, if j < |a| then j else j - 1;
        assert r[i] == s[i'] && r[j] == s[j'];
      } else if i == |a| {
        assert r[j] == s[j - 1] && s[|a|] == b[0];
      } else {
        assert r[i] == s[i] && s[|a| - 1] == a[|a| - 1];
      }
    }
  }

  lemma InsertedIsOneMore(a: seq<nat>, id: nat, b: seq<nat>)
    ensures multiset(a + [id] + b) == multiset(a + b) + multiset{id}
  {
  }

  /** Where the value goes: behind everything that is not greater. */
  method Position(sorted: seq<nat>, id: nat) returns (i: nat)
    ensures i <= |sorted| && (i > 0 ==> sorted[i - 1] <= id) && (i < |sorted| ==> id < sorted[i])
  {
    i := |sorted|;
    while i > 0 && sorted[i - 1] > id
      invariant i <= |sorted| && (i < |sorted| ==> id < sorted[i])
    {
      i := i - 1;
    }
  }

  method Insert(sorted: seq<nat>, id: nat) returns (r: seq<nat>)
    requires Sorted(sorted)
    ensures Sorted(r) && multiset(r) == multiset(sorted) + multiset{id}
  {
    var i := Position(sorted, id);
    var a, b := sorted[..i], sorted[i..];
    assert sorted == a + b;
    InsertedIsSorted(a, id, b);
    InsertedIsOneMore(a, id, b);
    r := a + [id] + b;
  }

  method Sort(ids: seq<nat>) returns (r: seq<nat>)
    ensures Sorted(r) && multiset(r) == multiset(ids)
    ensures forall x :: x in r <==> x in ids
  {
    r := [];
    for i := 0 to |ids|
      invariant Sorted(r) && multiset(r) == multiset(ids[..i])
    {
      r := Insert(r, ids[i]);
      assert ids[..i + 1] == ids[..i] + [ids[i]];
    }
    assert ids[..|ids|] == ids;
    assert forall x :: x in r <==> x in multiset(r);
    assert forall x :: x in ids <==> x in multiset(ids);
  }

  lemma AppendIncreasing(r: seq<nat>, id: nat)
    requires Increasing(r) && (r != [] ==> r[|r| - 1] < id)
    ensures Increasing(r + [id])
  {
    assert forall k :: 0 <= k < |r| ==> r[k] <= r[|r| - 1];
  }

  /** Drops repeated neighbours. */
  method Compact(ids: seq<nat>) returns (r: seq<nat>)
    requires Sorted(ids)
    ensures Increasing(r) && forall id :: id in r <==> id in ids
  {
    r := [];
    for i := 0 to |ids|
      invariant Increasing(r) && (r == [] <==> i == 0) && (i > 0 ==> r[|r| - 1] == ids[i - 1])
      invariant forall id :: id in r <==> id in ids[..i]
    {
      if i == 0 || ids[i] != ids[i - 1] {
        assert i > 0 ==> ids[i - 1] <= ids[i];
        AppendIncreasing(r, ids[i]);
        r := r + [ids[i]];
      }
      assert ids[..i + 1] == ids[..i] + [ids[i]];
    }
    assert ids[..|ids|] == ids;
  }
}
