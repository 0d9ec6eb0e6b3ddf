/** The event queue: an array heap ordered by time, then by scheduling order. */
module EventQueue {
  datatype Entry<K> = Entry(time: real, order: nat, k: K)

  predicate Less<K>(a: Entry<K>, b: Entry<K>) {
    if a.time != b.time then a.time < b.time else a.order < b.order
  }

  function Parent(i: nat): nat
    requires i > 0
  {
    (i - 1) / 2
  }

  /** No entry comes before its parent. */
  ghost predicate Heap<K>(s: seq<Entry<K>>) {
    forall i | 0 < i < |s| :: !Less(s[i], s[Parent(i)])
  }

  function Swap<T>(s: seq<T>, i: nat, j: nat): (r: seq<T>)
    requires i < |s| && j < |s|
    ensures |r| == |s|
  {
    s[i := s[j]][j := s[i]]
  }

  function SiftUp<K>(s: seq<Entry<K>>, i: nat): (r: seq<Entry<K>>)
    requires i < |s|
    ensures |r| == |s|
    decreases i
  {
    if i > 0 && Less(s[i], s[Parent(i)]) then SiftUp(Swap(s, i, Parent(i)), Parent(i)) else s
  }

  /** The smallest of position i and its children. */
  function Smallest<K>(s: seq<Entry<K>>, i: nat): (m: nat)
    requires i < |s|
    ensures m == i || m == 2 * i + 1 || m == 2 * i + 2
    ensures m < |s|
  {
    var left, right := 2 * i + 1, 2 * i + 2;
    var m := if left < |s| && Less(s[left], s[i]) then left else i;
    if right < |s| && Less(s[right], s[m]) then right else m
  }

  function SiftDown<K>(s: seq<Entry<K>>, i: nat): (r: seq<Entry<K>>)
    requires i < |s|
    ensures |r| == |s|
    decreases |s| - i
  {
    var m := Smallest(s, i);
    if m != i then SiftDown(Swap(s, i, m), m) else s
  }

  lemma SwapMultiset<T>(s: seq<T>, i: nat, j: nat)
    requires i < |s| && j < |s|
    ensures multiset(Swap(s, i, j)) == multiset(s)
  {
  }

  lemma {:induction false} SiftUpMultiset<K>(s: seq<Entry<K>>, i: nat)
    requires i < |s|
    ensures multiset(SiftUp(s, i)) == multiset(s)
    decreases i
  {
    if i > 0 && Less(s[i], s[Parent(i)]) {
      SwapMultiset(s, i, Parent(i));
      SiftUpMultiset(Swap(s, i, Parent(i)), Parent(i));
    }
  }

  lemma {:induction false} SiftDownMultiset<K>(s: seq<Entry<K>>, i: nat)
    requires i < |s|
    ensures multiset(SiftDown(s, i)) == multiset(s)
    decreases |s| - i
  {
    var m := Smallest(s, i);
    if m != i {
      SwapMultiset(s, i, m);
      SiftDownMultiset(Swap(s, i, m), m);
    }
  }

  /** A heap but for position i, which may be too early for its parent. */
  ghost predicate HeapUpTo<K>(s: seq<Entry<K>>, i: nat) {
    && i < |s|
    && (forall j | 0 < j < |s| && j != i :: !Less(s[j], s[Parent(j)]))
    && (i > 0 ==> forall j | 0 < j < |s| && Parent(j) == i :: !Less(s[j], s[Parent(i)]))
  }

  /** A heap but for position i, which may be too late for its children. */
  ghost predicate HeapDownFrom<K>(s: seq<Entry<K>>, i: nat) {
    && i < |s|
    && (forall j | 0 < j < |s| && Parent(j) != i :: !Less(s[j], s[Parent(j)]))
    && (i > 0 ==> forall j | 0 < j < |s| && Parent(j) == i :: !Less(s[j], s[Parent(i)]))
  }

  lemma SwapUpAt<K>(s: seq<Entry<K>>, i: nat, j: nat)
    requires HeapUpTo(s, i) && i > 0 && Less(s[i], s[Parent(i)]) && 0 < j < |s|
    ensures var p, t := Parent(i), Swap(s, i, Parent(i));
            && (j != p ==> !Less(t[j], t[Parent(j)]))
            && (p > 0 && Parent(j) == p ==> !Less(t[j], t[Parent(p)]))
  {
  }

  lemma SwapUp<K>(s: seq<Entry<K>>, i: nat)
    requires HeapUpTo(s, i) && i > 0 && Less(s[i], s[Parent(i)])
    ensures HeapUpTo(Swap(s, i, Parent(i)), Parent(i))
  {
    forall j | 0 < j < |s|
      ensures var p, t := Parent(i), Swap(s, i, Parent(i));
              && (j != p ==> !Less(t[j], t[Parent(j)]))
              && (p > 0 && Parent(j) == p ==> !Less(t[j], t[Parent(p)]))
    {
      SwapUpAt(s, i, j);
    }
    hide Less, Swap;
  }

  lemma SwapDownAt<K>(s: seq<Entry<K>>, i: nat, j: nat)
    requires HeapDownFrom(s, i) && Smallest(s, i) != i && 0 < j < |s|
    ensures var m, t := Smallest(s, i), Swap(s, i, Smallest(s, i));
            && (Parent(j) != m ==> !Less(t[j], t[Parent(j)]))
            && (Parent(j) == m ==> !Less(t[j], t[Parent(m)]))
  {
  }

  lemma SwapDown<K>(s: seq<Entry<K>>, i: nat)
    requires HeapDownFrom(s, i) && Smallest(s, i) != i
    ensures HeapDownFrom(Swap(s, i, Smallest(s, i)), Smallest(s, i))
  {
    forall j | 0 < j < |s|
      ensures var m, t := Smallest(s, i), Swap(s, i, Smallest(s, i));
              && (Parent(j) != m ==> !Less(t[j], t[Parent(j)]))
              && (Parent(j) == m ==> !Less(t[j], t[Parent(m)]))
    {
      SwapDownAt(s, i, j);
    }
    hide Less, Swap;
  }

  lemma {:induction false} SiftUpHeap<K>(s: seq<Entry<K>>, i: nat)
    requires HeapUpTo(s, i)
    ensures Heap(SiftUp(s, i))
    decreases i
  {
    if i > 0 && Less(s[i], s[Parent(i)]) {
      SwapUp(s, i);
      SiftUpHeap(Swap(s, i, Parent(i)), Parent(i));
    }
  }

  lemma {:induction false} SiftDownHeap<K>(s: seq<Entry<K>>, i: nat)
    requires HeapDownFrom(s, i)
    ensures Heap(SiftDown(s, i))
    decreases |s| - i
  {
    var m := Smallest(s, i);
    if m != i {
      SwapDown(s, i);
      SiftDownHeap(Swap(s, i, m), m);
    }
  }

  /** The root of a heap comes before everything else. */
  lemma {:induction false} RootIsFirst<K>(s: seq<Entry<K>>, i: nat)
    requires Heap(s) && i < |s|
    ensures !Less(s[i], s[0])
  {
    if i > 0 {
      RootIsFirst(s, Parent(i));
    }
  }

  class PriorityQueue<K(0)> {
    var entries: array<Entry<K>>
    var size: nat

    ghost predicate Valid()
      reads this, entries
    {
      0 < entries.Length && size <= entries.Length && Heap(entries[..size])
    }

    /** The pending entries, in heap order. */
    ghost function Layout(): seq<Entry<K>>
      requires Valid()
      reads this, entries
    {
      entries[..size]
    }

    constructor (initialCapacity: nat)
      ensures Valid() && fresh(entries)
      ensures Layout() == []
    {
      entries := new Entry<K>[if initialCapacity > 0 then initialCapacity else 4096];
      size := 0;
    }

    /** The loop of pq_sift_up, on the first n entries. */
    method SiftUpLoop(start: nat, n: nat)
      requires start < n <= entries.Length
      modifies entries
      ensures entries[..n] == SiftUp(old(entries[..n]), start)
      ensures entries[n..] == old(entries[n..])
    {
      var i := start;
      while i > 0
        invariant 0 <= i < n
        invariant SiftUp(entries[..n], i) == SiftUp(old(entries[..n]), start)
        invariant entries[n..] == old(entries[n..])
      {
        var parent := (i - 1) / 2;
        if Less(entries[i], entries[parent]) {
          ghost var was := entries[..n];
          entries[i], entries[parent] := entries[parent], entries[i];
          assert entries[..n] == Swap(was, i, parent);
          i := parent;
        } else {
          break;
        }
      }
    }

    /** The loop of pq_sift_down. */
    method SiftDownLoop(start: nat)
      requires start < size <= entries.Length
      modifies entries
      ensures entries[..size] == SiftDown(old(entries[..size]), start)
    {
      var n := size;
      var i := start;
      while true
        invariant 0 <= i < n
        invariant SiftDown(entries[..n], i) == SiftDown(old(entries[..n]), start)
        decreases n - i
      {
        var smallest := i;
        var left, right := 2 * i + 1, 2 * i + 2;
        if left < n && Less(entries[left], entries[smallest]) {
          smallest := left;
        }
        if right < n && Less(entries[right], entries[smallest]) {
          smallest := right;
        }
        assert smallest == Smallest(entries[..n], i);
        if smallest != i {
          ghost var was := entries[..n];
          entries[i], entries[smallest] := entries[smallest], entries[i];
          assert entries[..n] == Swap(was, i, smallest);
          i := smallest;
        } else {
          break;
        }
      }
    }

    /** Doubles a full array. */
    method Grow()
      requires 0 < entries.Length == size
      modifies this`entries
      ensures fresh(entries) && size < entries.Length
      ensures entries[..size] == old(entries[..size])
    {
      var bigger := new Entry<K>[2 * entries.Length];
      for i := 0 to size
        invariant entries.Length == size && entries == old(entries)
        invariant entries[..] == old(entries[..])
        invariant bigger[..i] == entries[..i]
      {
        bigger[i] := entries[i];
      }
      entries := bigger;
    }

    /** Writes an entry behind the last one, in a larger array if need be. */
    method Store(e: Entry<K>)
      requires 0 < entries.Length && size <= entries.Length
      modifies this`entries, entries
      ensures entries == old(entries) || fresh(entries)
      ensures size < entries.Length
      ensures entries[..size + 1] == old(entries[..size]) + [e]
    {
      if size == entries.Length {
        Grow();
      }
      entries[size] := e;
    }

    method Push(time: real, order: nat, k: K)
      requires Valid()
      modifies this, entries
      ensures Valid() && (entries == old(entries) || fresh(entries))
      ensures Layout() == SiftUp(old(Layout()) + [Entry(time, order, k)], |old(Layout())|)
      ensures multiset(Layout()) == multiset(old(Layout())) + multiset{Entry(time, order, k)}
    {
      Appended(Layout(), Entry(time, order, k));
      hide SiftUp, Heap;
      Store(Entry(time, order, k));
      SiftUpLoop(size, size + 1);
      size := size + 1;
    }

    method Pop() returns (top: Entry<K>)
      requires Valid() && size > 0
      modifies this`size, entries
      ensures Valid()
      ensures top in old(Layout())
      ensures multiset(Layout()) == multiset(old(Layout())) - multiset{top}
      ensures forall e | e in old(Layout()) :: !Less(e, top)
    {
      ghost var was := Layout();
      forall i | 0 <= i < |was| ensures !Less(was[i], was[0]) {
        RootIsFirst(was, i);
      }
      top := entries[0];
      size := size - 1;
      if size > 0 {
        entries[0] := entries[size];
        Replaced(was);
        assert entries[..size] == was[..size][0 := was[size]];
        SiftDownHeap(entries[..size], 0);
        SiftDownMultiset(entries[..size], 0);
        SiftDownLoop(0);
      } else {
        assert was == [top];
      }
    }
  }

  lemma Appended<K>(s: seq<Entry<K>>, e: Entry<K>)
    requires Heap(s)
    ensures Heap(SiftUp(s + [e], |s|))
    ensures multiset(SiftUp(s + [e], |s|)) == multiset(s) + multiset{e}
  {
    assert HeapUpTo(s + [e], |s|);
    SiftUpHeap(s + [e], |s|);
    SiftUpMultiset(s + [e], |s|);
  }

  /** The last entry in place of the root: the rest is still a heap, and one entry is gone. */
  lemma Replaced<K>(s: seq<Entry<K>>)
    requires Heap(s) && |s| > 1
    ensures var t := s[..|s| - 1][0 := s[|s| - 1]];
            HeapDownFrom(t, 0) && multiset(t) == multiset(s) - multiset{s[0]}
  {
    var n := |s| - 1;
    assert s == [s[0]] + s[1..n] + [s[n]];
    assert s[..n][0 := s[n]] == [s[n]] + s[1..n];
  }
}
