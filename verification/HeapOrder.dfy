/** Sequence-level facts about binary heaps laid out in an array. */
module HeapOrder {
  import opened TimerOrder

  /** The array layout: slot `p` has its children at `2p + 1` and `2p + 2`. */
  predicate Child(k: nat, p: nat) {
    k == 2 * p + 1 || k == 2 * p + 2
  }

  /** Every child of a slot at or after `lo` is no earlier than that slot. */
  ghost predicate HeapFrom(s: seq<TimerEntry>, lo: nat) {
    forall k: nat, p: nat :: Child(k, p) && lo <= p && k < |s| ==> !Before(s[k], s[p])
  }

  ghost predicate Heap(s: seq<TimerEntry>) {
    HeapFrom(s, 0)
  }

  /** A heap except that slot `i` may be earlier than its parent. */
  ghost predicate RisingAt(s: seq<TimerEntry>, i: nat) {
    && (forall k: nat, p: nat :: Child(k, p) && k < |s| && k != i ==> !Before(s[k], s[p]))
    && (forall k: nat, p: nat :: Child(k, i) && Child(i, p) && k < |s| ==> !Before(s[k], s[p]))
  }

  /** A heap from `lo` on except that slot `i` may be later than its children. */
  ghost predicate SinkingAt(s: seq<TimerEntry>, lo: nat, i: nat) {
    && (forall k: nat, p: nat :: Child(k, p) && lo <= p && p != i && k < |s| ==> !Before(s[k], s[p]))
    && (forall k: nat, p: nat :: Child(k, i) && Child(i, p) && lo <= p && k < |s| ==> !Before(s[k], s[p]))
  }

  ghost predicate SameEntries(s: seq<TimerEntry>, t: seq<TimerEntry>) {
    multiset(s) == multiset(t)
  }

  lemma SameEntriesReflexive(s: seq<TimerEntry>)
    ensures SameEntries(s, s)
  {
  }

  function Swap(s: seq<TimerEntry>, i: nat, j: nat): (r: seq<TimerEntry>)
    requires i < |s| && j < |s|
    ensures |r| == |s|
  {
    s[i := s[j]][j := s[i]]
  }

  lemma RiseStep(s0: seq<TimerEntry>, s: seq<TimerEntry>, i: nat, parent: nat)
    requires i < |s| && Child(i, parent) && RisingAt(s, i) && Before(s[i], s[parent]) && SameEntries(s, s0)
    ensures RisingAt(Swap(s, i, parent), parent) && SameEntries(Swap(s, i, parent), s0)
  {
  }

  /** The child to compare with: the right one if it is strictly earlier, otherwise the left one. */
  function EarlierChild(s: seq<TimerEntry>, i: nat): (child: nat)
    requires 2 * i + 1 < |s|
    ensures child < |s| && Child(child, i)
    ensures forall k: nat :: Child(k, i) && k < |s| ==> !Before(s[k], s[child])
  {
    if 2 * i + 2 < |s| && Before(s[2 * i + 2], s[2 * i + 1]) then 2 * i + 2 else 2 * i + 1
  }

  lemma SinkStep(s0: seq<TimerEntry>, s: seq<TimerEntry>, lo: nat, i: nat)
    requires lo <= i && SinkingAt(s, lo, i) && SameEntries(s, s0)
    requires 2 * i + 1 < |s| && Before(s[EarlierChild(s, i)], s[i])
    ensures var child := EarlierChild(s, i);
      SinkingAt(Swap(s, i, child), lo, child) && SameEntries(Swap(s, i, child), s0)
  {
  }

  lemma SinkDone(s: seq<TimerEntry>, lo: nat, i: nat)
    requires i < |s| && SinkingAt(s, lo, i)
    requires 2 * i + 1 < |s| ==> !Before(s[EarlierChild(s, i)], s[i])
    ensures HeapFrom(s, lo)
  {
  }

  /** The root of a heap is no later than any other slot. */
  lemma {:induction false} RootIsFirst(s: seq<TimerEntry>, k: nat)
    requires Heap(s) && k < |s|
    ensures !Before(s[k], s[0])
  {
    if k > 0 {
      assert Child(k, (k - 1) / 2);
      RootIsFirst(s, (k - 1) / 2);
    }
  }

  /** The heap layout `heap` stands for the list `sorted`, after `order` insertions. */
  ghost predicate Represents(heap: seq<TimerEntry>, sorted: seq<TimerEntry>, order: nat) {
    && Heap(heap)
    && Sorted(sorted) && OrdersUpTo(sorted, order)
    && multiset(heap) == multiset(sorted)
  }

  lemma SameSize(heap: seq<TimerEntry>, sorted: seq<TimerEntry>, order: nat)
    requires Represents(heap, sorted, order)
    ensures |heap| == |sorted|
  {
    assert |multiset(heap)| == |heap| && |multiset(sorted)| == |sorted|;
  }

  /** The root of a heap is the head of its sorted view. */
  lemma RootIsHead(heap: seq<TimerEntry>, sorted: seq<TimerEntry>, order: nat)
    requires Represents(heap, sorted, order) && heap != []
    ensures sorted != [] && sorted[0] == heap[0]
  {
    InMultiset(heap[0], sorted);
    InMultiset(sorted[0], heap);
    var k :| 0 <= k < |heap| && heap[k] == sorted[0];
    RootIsFirst(heap, k);
  }

  lemma Appended(heap: seq<TimerEntry>, sorted: seq<TimerEntry>, order: nat, entry: TimerEntry)
    requires Represents(heap, sorted, order)
    ensures RisingAt(heap + [entry], |heap|)
  {
  }

  lemma Pushed(heap: seq<TimerEntry>, sorted: seq<TimerEntry>, order: nat, entry: TimerEntry, heap': seq<TimerEntry>)
    requires Represents(heap, sorted, order) && entry.order == order + 1
    requires Heap(heap') && SameEntries(heap', heap + [entry])
    ensures Represents(heap', Insert(entry, sorted), order + 1)
  {
    var sorted' := Insert(entry, sorted);
    InsertSorted(entry, sorted);
    InsertElements(entry, sorted);
    forall e | e in sorted' ensures e.order <= order + 1 {
      InMultiset(e, sorted');
      InMultiset(e, sorted);
    }
  }

  /** The last entry moved into the root's slot. */
  function RootMoved(heap: seq<TimerEntry>): (r: seq<TimerEntry>)
    requires |heap| >= 2
    ensures |r| == |heap| - 1
  {
    heap[..|heap| - 1][0 := heap[|heap| - 1]]
  }

  /** Only the moved root may violate the heap order. */
  lemma RootReplaced(heap: seq<TimerEntry>, sorted: seq<TimerEntry>, order: nat)
    requires Represents(heap, sorted, order) && |heap| >= 2
    ensures SinkingAt(RootMoved(heap), 0, 0)
    ensures multiset(RootMoved(heap)) == multiset(heap) - multiset{heap[0]}
  {
    var n := |heap| - 1;
    assert heap == [heap[0]] + heap[1..n] + [heap[n]];
    assert RootMoved(heap) == [heap[n]] + heap[1..n];
  }

  lemma LastPopped(heap: seq<TimerEntry>, sorted: seq<TimerEntry>, order: nat)
    requires Represents(heap, sorted, order) && |heap| == 1
    ensures sorted != [] && Represents([], sorted[1..], order)
  {
    RootIsHead(heap, sorted, order);
    SameSize(heap, sorted, order);
  }

  lemma RestPopped(heap: seq<TimerEntry>, sorted: seq<TimerEntry>, order: nat, heap': seq<TimerEntry>)
    requires Represents(heap, sorted, order) && |heap| >= 2
    requires HeapFrom(heap', 0) && SameEntries(heap', RootMoved(heap))
    ensures sorted != [] && Represents(heap', sorted[1..], order)
  {
    RootReplaced(heap, sorted, order);
    RootIsHead(heap, sorted, order);
    assert sorted == [sorted[0]] + sorted[1..];
  }

  lemma Compacted(heap: seq<TimerEntry>, sorted: seq<TimerEntry>, order: nat,
                  drop: Handle -> bool, heap': seq<TimerEntry>)
    requires Represents(heap, sorted, order)
    requires Heap(heap') && SameEntries(heap', Keep(heap, drop))
    ensures Represents(heap', Keep(sorted, drop), order)
  {
    KeepRespectsMultiset(heap, sorted, drop);
    KeepSorted(sorted, drop);
    forall e | e in Keep(sorted, drop) ensures e.order <= order {
      KeepMembers(sorted, drop, e);
    }
  }
}
