/** Identifier rules of the ledger's two collections: how addItem numbers a
    new entry, how deleteItem finds the entry to remove, and why the
    numbering never hands out an id that is still in use. */
module Ids {

  /** Ids strictly increase along the stored order of a collection. */
  predicate Increasing(ids: seq<int>) {
    forall i, j :: 0 <= i < j < |ids| ==> ids[i] < ids[j]
  }

  /** The shape every collection keeps: non-negative, strictly increasing ids. */
  predicate WellFormed(ids: seq<int>) {
    Increasing(ids) && forall i :: 0 <= i < |ids| ==> 0 <= ids[i]
  }

  /** The id addItem gives a new entry: one past the id of the LAST stored
      entry, or 0 when the collection is empty. */
  function NextId(ids: seq<int>): (r: int)
    ensures Increasing(ids) ==> forall i :: 0 <= i < |ids| ==> ids[i] < r
    ensures (forall i :: 0 <= i < |ids| ==> 0 <= ids[i]) ==> 0 <= r
  {
    if |ids| > 0 then ids[|ids| - 1] + 1 else 0
  }

  /** The largest id of a non-empty collection. */
  function MaxId(ids: seq<int>): (m: int)
    requires |ids| > 0
    ensures m in ids
    ensures forall i :: 0 <= i < |ids| ==> ids[i] <= m
  {
    if |ids| == 1 then ids[0]
    else
      var m' := MaxId(ids[..|ids| - 1]);
      if ids[|ids| - 1] > m' then ids[|ids| - 1] else m'
  }

  /** Position of the first occurrence of id, or -1 when id is absent
      (the contract of Array.prototype.indexOf). */
  function IndexOf(ids: seq<int>, id: int): (r: int)
    ensures -1 <= r < |ids|
    ensures r == -1 <==> id !in ids
    ensures r >= 0 ==> ids[r] == id && forall j :: 0 <= j < r ==> ids[j] != id
  {
    if |ids| == 0 then -1
    else if ids[0] == id then 0
    else
      var r' := IndexOf(ids[1..], id);
      if r' == -1 then -1 else r' + 1
  }

  /** The left-to-right scan deleteItem performs over the mapped ids. */
  method FindIndex(ids: seq<int>, id: int) returns (index: int)
    ensures index == IndexOf(ids, id)
  {
    index := 0;
    while index < |ids| && ids[index] != id
      invariant 0 <= index <= |ids|
      invariant forall j :: 0 <= j < index ==> ids[j] != id
    {
      index := index + 1;
    }
    if index == |ids| {
      index := -1;
    }
  }

  /** splice(i, 1): drop the element at position i, keep the rest in order. */
  function RemoveAt<T>(s: seq<T>, i: nat): (r: seq<T>)
    requires i < |s|
    ensures |r| == |s| - 1
    ensures forall j :: 0 <= j < i ==> r[j] == s[j]
    ensures forall j :: i <= j < |r| ==> r[j] == s[j + 1]
  {
    s[..i] + s[i + 1..]
  }

  /** With ordered ids the last id is the maximum, so the "last + 1" rule
      is the "max + 1" rule. */
  lemma NextIdIsMaxPlusOne(ids: seq<int>)
    requires Increasing(ids) && |ids| > 0
    ensures NextId(ids) == MaxId(ids) + 1
  {
  }

  /** The new id is unused, and appending it keeps the collection well formed. */
  lemma NextIdIsFresh(ids: seq<int>)
    requires WellFormed(ids)
    ensures NextId(ids) !in ids
    ensures WellFormed(ids + [NextId(ids)])
  {
    var ids' := ids + [NextId(ids)];
    forall i, j | 0 <= i < j < |ids'| ensures ids'[i] < ids'[j] {
      if j == |ids| {
        assert i < |ids| - 1 ==> ids[i] < ids[|ids| - 1];
      }
    }
  }

  /** Removing an entry keeps the remaining ids well formed. */
  lemma RemoveAtWellFormed(ids: seq<int>, i: nat)
    requires WellFormed(ids) && i < |ids|
    ensures WellFormed(RemoveAt(ids, i))
  {
    var r := RemoveAt(ids, i);
    forall a, b | 0 <= a < b < |r| ensures r[a] < r[b] {
      var a' := if a < i then a else a + 1;
      var b' := if b < i then b else b + 1;
      assert r[a] == ids[a'] && r[b] == ids[b'] && a' < b';
    }
  }

  /** The id just handed out is found at the tail, and removing it there
      gives back the collection as it was before the add. */
  lemma AddThenRemove<T>(s: seq<T>, ids: seq<int>, x: T)
    requires |s| == |ids| && WellFormed(ids)
    ensures IndexOf(ids + [NextId(ids)], NextId(ids)) == |ids|
    ensures RemoveAt(s + [x], |s|) == s
  {
    NextIdIsFresh(ids);
    assert (ids + [NextId(ids)])[|ids|] == NextId(ids);
  }

  /** The ids of a collection after n adds and no deletes, in stored order. */
  function IdsAfterAdds(n: nat): seq<int> {
    if n == 0 then [] else var p := IdsAfterAdds(n - 1); p + [NextId(p)]
  }

  /** n adds to an empty collection, with no deletes, give ids 0 .. n-1. */
  lemma {:induction false} IdsAfterAddsAreIndices(n: nat)
    ensures |IdsAfterAdds(n)| == n
    ensures forall i :: 0 <= i < n ==> IdsAfterAdds(n)[i] == i
  {
    if n > 0 {
      IdsAfterAddsAreIndices(n - 1);
    }
  }
}
