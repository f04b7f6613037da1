/** Binary heaps on lists, as `heapq` keeps them: the entry at `i` is not before its parent at `(i - 1) / 2`. */
module Heap {

  /** A heap entry; no two entries of a queue have the same number, so the value never decides. */
  datatype Item<T> = Item(key: int, sequence: nat, value: T)

  predicate Less<T>(a: Item<T>, b: Item<T>) {
    a.key < b.key || (a.key == b.key && a.sequence < b.sequence)
  }

  function Parent(i: int): int
    requires i > 0
    ensures 0 <= Parent(i) < i
  {
    (i - 1) / 2
  }

  ghost predicate IsHeap<T>(s: seq<Item<T>>) {
    forall i | 0 < i < |s| :: !Less(s[i], s[Parent(i)])
  }

  /** A heap except that the entry at `pos` may be before its parent. */
  ghost predicate HeapButUp<T>(s: seq<Item<T>>, pos: int) {
    && 0 <= pos < |s|
    && (forall i | 0 < i < |s| && i != pos :: !Less(s[i], s[Parent(i)]))
    && (forall i | 0 < i < |s| && 0 < pos && Parent(i) == pos :: !Less(s[i], s[Parent(pos)]))
  }

  /** A heap around a hole: nothing is claimed of the entry at `pos` itself. */
  ghost predicate HeapAround<T>(s: seq<Item<T>>, pos: int) {
    && 0 <= pos < |s|
    && (forall i | 0 < i < |s| && i != pos && Parent(i) != pos :: !Less(s[i], s[Parent(i)]))
    && (forall i | 0 < i < |s| && 0 < pos && Parent(i) == pos :: !Less(s[i], s[Parent(pos)]))
  }

  lemma {:induction false} RootIsFirst<T>(s: seq<Item<T>>, i: nat)
    requires IsHeap(s) && i < |s|
    ensures !Less(s[i], s[0])
  {
    if i > 0 { RootIsFirst(s, Parent(i)); }
  }

  lemma Swapped<T>(s: seq<Item<T>>, i: nat, j: nat)
    requires i < |s| && j < |s|
    ensures multiset(s[i := s[j]][j := s[i]]) == multiset(s)
  {
  }

  /** `_siftdown`: the entry at `start` moves up until its parent is not after it. */
  method SiftUpwards<T>(heap: seq<Item<T>>, start: nat) returns (s: seq<Item<T>>)
    requires HeapButUp(heap, start)
    ensures IsHeap(s) && multiset(s) == multiset(heap) && |s| == |heap|
  {
    hide HeapButUp, IsHeap;
    InHeap(heap, start);
    s := heap;
    var pos, item := start, heap[start];
    while pos > 0 && Less(item, s[Parent(pos)])
      invariant 0 <= pos < |s| && |s| == |heap|
      invariant HeapButUp(s[pos := item], pos) && multiset(s[pos := item]) == multiset(heap)
      decreases pos
    {
      var parent := Parent(pos);
      OneUp(s, pos, item);
      s := s[pos := s[parent]];
      pos := parent;
    }
    UpFarEnough(s[pos := item], pos);
    s := s[pos := item];
  }

  lemma InHeap<T>(s: seq<Item<T>>, pos: int)
    requires HeapButUp(s, pos)
    ensures 0 <= pos < |s| && s[pos := s[pos]] == s
  {
  }

  lemma UpFarEnough<T>(s: seq<Item<T>>, pos: int)
    requires HeapButUp(s, pos) && (pos > 0 ==> !Less(s[pos], s[Parent(pos)]))
    ensures IsHeap(s)
  {
  }

  lemma OneUp<T>(s: seq<Item<T>>, pos: nat, item: Item<T>)
    requires 0 < pos < |s| && HeapButUp(s[pos := item], pos) && Less(item, s[Parent(pos)])
    ensures var p := Parent(pos); var s' := s[pos := s[p]][p := item];
      HeapButUp(s', p) && multiset(s') == multiset(s[pos := item])
  {
    hide HeapButUp;
    var p, before := Parent(pos), s[pos := item];
    Swapped(before, pos, p);
    assert s[pos := s[p]][p := item] == before[pos := before[p]][p := before[pos]];
    MovedUp(before, pos, s[pos := s[p]][p := item]);
  }

  lemma MovedUp<T>(s: seq<Item<T>>, pos: nat, s': seq<Item<T>>)
    requires 0 < pos && HeapButUp(s, pos) && Less(s[pos], s[Parent(pos)])
    requires s' == s[pos := s[Parent(pos)]][Parent(pos) := s[pos]]
    ensures HeapButUp(s', Parent(pos))
  {
    var p := Parent(pos);
    forall i | 0 < i < |s'| && i != p ensures !Less(s'[i], s'[Parent(i)]) {
      if i == pos {
      } else if Parent(i) == pos {
      } else if Parent(i) == p {
        assert !Less(s[i], s[p]);
      }
    }
    if 0 < p {
      forall i | 0 < i < |s'| && Parent(i) == p ensures !Less(s'[i], s'[Parent(p)]) {
        assert !Less(s[p], s[Parent(p)]);
        if i != pos { assert !Less(s[i], s[p]); }
      }
    }
  }

  /** `heappush`. */
  method Push<T>(heap: seq<Item<T>>, item: Item<T>) returns (s: seq<Item<T>>)
    requires IsHeap(heap)
    ensures IsHeap(s) && multiset(s) == multiset(heap) + multiset{item}
  {
    assert forall i | 0 < i < |heap| :: (heap + [item])[i] == heap[i] && (heap + [item])[Parent(i)] == heap[Parent(i)];
    s := SiftUpwards(heap + [item], |heap|);
  }

  /** `_siftup`: the hole at the root moves down along the smaller children to a leaf, then the entry
      that fills it moves up. */
  method SiftFromRoot<T>(heap: seq<Item<T>>) returns (s: seq<Item<T>>)
    requires heap != [] && HeapAround(heap, 0)
    ensures IsHeap(s) && multiset(s) == multiset(heap) && |s| == |heap|
  {
    hide HeapAround, HeapButUp, IsHeap, Less;
    s := heap;
    var pos, item := 0, heap[0];
    assert s[pos := item] == heap;
    while 2 * pos + 1 < |s|
      invariant 0 <= pos < |s| && |s| == |heap|
      invariant HeapAround(s[pos := item], pos) && multiset(s[pos := item]) == multiset(heap)
      decreases |s| - pos
    {
      var child := SmallerChild(s, pos);
      OneDown(s, pos, child, item);
      s := s[pos := s[child]];
      pos := child;
    }
    DownFarEnough(s[pos := item], pos);
    s := s[pos := item];
    s := SiftUpwards(s, pos);
  }

  method SmallerChild<T>(s: seq<Item<T>>, pos: nat) returns (child: nat)
    requires 2 * pos + 1 < |s|
    ensures child < |s| && (child == 2 * pos + 1 || child == 2 * pos + 2)
    ensures forall i | i in {2 * pos + 1, 2 * pos + 2} && i < |s| :: !Less(s[i], s[child])
  {
    child := 2 * pos + 1;
    if child + 1 < |s| && !Less(s[child], s[child + 1]) { child := child + 1; }
  }

  lemma DownFarEnough<T>(s: seq<Item<T>>, pos: nat)
    requires HeapAround(s, pos) && |s| <= 2 * pos + 1
    ensures HeapButUp(s, pos)
  {
    assert forall i | 0 < i < |s| :: Parent(i) != pos;
  }

  lemma OneDown<T>(s: seq<Item<T>>, pos: nat, child: nat, item: Item<T>)
    requires pos < child < |s| && HeapAround(s[pos := item], pos)
    requires child == 2 * pos + 1 || child == 2 * pos + 2
    requires forall i | i in {2 * pos + 1, 2 * pos + 2} && i < |s| :: !Less(s[i], s[child])
    ensures var s' := s[pos := s[child]][child := item];
      HeapAround(s', child) && multiset(s') == multiset(s[pos := item])
  {
    hide HeapAround;
    var before := s[pos := item];
    Swapped(before, pos, child);
    assert s[pos := s[child]][child := item] == before[pos := before[child]][child := before[pos]];
    forall i | 0 < i < |s| && Parent(i) == pos ensures !Less(before[i], before[child]) {
      assert i == 2 * pos + 1 || i == 2 * pos + 2;
    }
    MovedDown(before, pos, child, s[pos := s[child]][child := item]);
  }

  lemma MovedDown<T>(s: seq<Item<T>>, pos: nat, child: nat, s': seq<Item<T>>)
    requires HeapAround(s, pos) && child < |s| && (child == 2 * pos + 1 || child == 2 * pos + 2)
    requires forall i | 0 < i < |s| && Parent(i) == pos :: !Less(s[i], s[child])
    requires s' == s[pos := s[child]][child := s[pos]]
    ensures HeapAround(s', child)
  {
    assert Parent(child) == pos;
    forall i | 0 < i < |s'| && i != child && Parent(i) != child ensures !Less(s'[i], s'[Parent(i)]) {
      if i == pos { assert !Less(s[child], s[Parent(pos)]); }
    }
    forall i | 0 < i < |s'| && Parent(i) == child ensures !Less(s'[i], s'[Parent(child)]) {
      assert !Less(s[i], s[child]);
    }
  }

  /** `heappop`: the first entry leaves. */
  method Pop<T>(heap: seq<Item<T>>) returns (first: Item<T>, s: seq<Item<T>>)
    requires IsHeap(heap) && heap != []
    ensures IsHeap(s) && multiset(heap) == multiset(s) + multiset{first}
    ensures forall x | x in s :: !Less(x, first)
  {
    var last := heap[|heap| - 1];
    var rest := heap[..|heap| - 1];
    assert heap == rest + [last];
    first := heap[0];
    forall x | x in heap ensures !Less(x, first) {
      var i :| 0 <= i < |heap| && heap[i] == x;
      RootIsFirst(heap, i);
    }
    if rest == [] {
      s := [];
    } else {
      assert rest == [first] + rest[1..];
      var filled := rest[0 := last];
      assert filled == [last] + rest[1..];
      assert forall i | 0 < i < |filled| :: filled[i] == heap[i];
      s := SiftFromRoot(filled);
      forall x | x in s ensures x in heap {
        assert x in multiset(s);
        assert x in multiset(filled);
        assert x in filled;
      }
    }
  }
}
