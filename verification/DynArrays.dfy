/** The growable pointer array of the simulator, with its order-breaking removal. */
module DynArrays {

  /** What removal at `i` leaves: the last element takes the place of the removed one. */
  function SwapRemoveAt<T>(s: seq<T>, i: nat): (r: seq<T>)
    requires i < |s|
    ensures |r| == |s| - 1
  {
    s[i := s[|s| - 1]][..|s| - 1]
  }

  /** Removes the first occurrence of `x`, if there is one. */
  function SwapRemove<T(==)>(s: seq<T>, x: T): seq<T> {
    var i := FirstIndex(s, x);
    if i < |s| then SwapRemoveAt(s, i) else s
  }

  /** The position of the first occurrence of `x`, or |s|. */
  function FirstIndex<T(==)>(s: seq<T>, x: T): (i: nat)
    ensures i <= |s|
    ensures i < |s| ==> s[i] == x
    ensures x !in s[..i]
  {
    if s == [] || s[0] == x then 0
    else
      var i := 1 + FirstIndex(s[1..], x);
      assert s[..i] == [s[0]] + s[1..][..i - 1];
      i
  }

  lemma FirstIndexFinds<T>(s: seq<T>, x: T)
    requires x in s
    ensures FirstIndex(s, x) < |s|
  {
    assert s[..|s|] == s;
  }

  ghost predicate Distinct<T(!new)>(s: seq<T>) {
    forall i, j | 0 <= i < j < |s| :: s[i] != s[j]
  }

  /** Removal loses exactly one occurrence and nothing else. */
  lemma SwapRemoveAtMultiset<T>(s: seq<T>, i: nat)
    requires i < |s|
    ensures multiset(SwapRemoveAt(s, i)) == multiset(s) - multiset{s[i]}
  {
    var n := |s| - 1;
    assert s == s[..n] + [s[n]];
    if i == n {
      assert SwapRemoveAt(s, i) == s[..n];
    } else {
      var left, right := s[..i], s[i + 1..n];
      assert s[..n] == left + [s[i]] + right;
      assert SwapRemoveAt(s, i) == left + [s[n]] + right;
    }
  }

  /** On a list without repetitions, removal takes `x` away and keeps the list without repetitions. */
  lemma SwapRemoveDistinct<T(!new)>(s: seq<T>, x: T)
    requires Distinct(s) && x in s
    ensures Distinct(SwapRemove(s, x))
    ensures |SwapRemove(s, x)| == |s| - 1
    ensures forall y :: y in SwapRemove(s, x) <==> y in s && y != x
  {
    FirstIndexFinds(s, x);
    var i := FirstIndex(s, x);
    var r := SwapRemoveAt(s, i);
    forall y ensures y in r <==> y in s && y != x {
      if y in s && y != x {
        var j :| 0 <= j < |s| && s[j] == y;
        if j == |s| - 1 {
          assert r[i] == y;
        } else {
          assert r[j] == y;
        }
      }
    }
  }

  class DynArray<T(==,0)> {
    var items: array<T>
    var size: nat

    ghost predicate Valid()
      reads this
    {
      0 < items.Length && size <= items.Length
    }

    ghost function Contents(): seq<T>
      requires Valid()
      reads this, items
    {
      items[..size]
    }

    constructor (initialCapacity: nat)
      ensures Valid() && fresh(items)
      ensures Contents() == []
    {
      items := new T[if initialCapacity > 0 then initialCapacity else 8];
      size := 0;
    }

    method Push(item: T)
      requires Valid()
      modifies this, items
      ensures Valid() && (items == old(items) || fresh(items))
      ensures Contents() == old(Contents()) + [item]
    {
      if size == items.Length {
        var grown := new T[2 * items.Length];
        for i := 0 to size
          modifies grown
          invariant items.Length == size
          invariant grown[..i] == items[..i]
        {
          grown[i] := items[i];
        }
        items := grown;
      }
      items[size] := item;
      size := size + 1;
    }

    /** The scan for `item`, then the last element moved into its place. */
    method Remove(item: T) returns (found: bool)
      requires Valid()
      modifies this`size, items
      ensures Valid()
      ensures found == (item in old(Contents()))
      ensures Contents() == SwapRemove(old(Contents()), item)
    {
      for i := 0 to size
        invariant item !in items[..i]
        invariant items[..] == old(items[..])
      {
        if items[i] == item {
          ghost var was := Contents();
          FirstIndexUnique(was, item, i);
          size := size - 1;
          items[i] := items[size];
          assert Contents() == SwapRemoveAt(was, i);
          return true;
        }
      }
      assert Contents()[..size] == Contents();
      return false;
    }

    method Contains(item: T) returns (found: bool)
      requires Valid()
      ensures found == (item in Contents())
    {
      for i := 0 to size
        invariant item !in items[..i]
      {
        if items[i] == item {
          return true;
        }
      }
      return false;
    }
  }

  lemma {:induction false} FirstIndexUnique<T>(s: seq<T>, x: T, i: nat)
    requires i < |s| && s[i] == x && x !in s[..i]
    ensures FirstIndex(s, x) == i
  {
    if i > 0 {
      assert s[..i][0] == s[0];
      assert s[1..][..i - 1] == s[..i][1..];
      FirstIndexUnique(s[1..], x, i - 1);
    }
  }
}
