/** The lazily cancelled timer heap, kept in place in one array. */
module TimerHeap {
  import opened Options
  import opened TimerOrder
  import opened HeapOrder

  const NO_ENTRY := TimerEntry(0.0, 0, 0)

  class Timers {
    var items: array<TimerEntry>
    var len: nat
    var order: nat
    var cancelled: nat
    /** The array's live part, and the list it stands for: earliest deadline first. */
    ghost var heap: seq<TimerEntry>
    ghost var sorted: seq<TimerEntry>

    ghost predicate Valid()
      reads this, items
    {
      len <= items.Length && heap == items[..len] && Represents(heap, sorted, order)
    }

    constructor ()
      ensures Valid() && fresh(items) && sorted == [] && cancelled == 0 && order == 0
    {
      items := new TimerEntry[0](_ => NO_ENTRY);
      len, order, cancelled, heap, sorted := 0, 0, 0, [], [];
    }

    method Push(when: real, handle: Handle)
      requires Valid()
      modifies this, items
      ensures Valid() && (items == old(items) || fresh(items))
      ensures order == old(order) + 1 && cancelled == old(cancelled)
      ensures sorted == Insert(TimerEntry(when, order, handle), old(sorted))
    {
      hide Represents, Insert;
      if len == items.Length { Grow(); }
      Place(TimerEntry(when, order + 1, handle));
    }

    /** Appends an entry and sifts it up; there is room for it. */
    method Place(entry: TimerEntry)
      requires Valid() && len < items.Length && entry.order == order + 1
      modifies this`len, this`order, this`heap, this`sorted, items
      ensures Valid() && order == old(order) + 1 && sorted == Insert(entry, old(sorted))
    {
      hide Represents, Insert, RisingAt;
      Appended(heap, sorted, order, entry);
      items[len] := entry;
      len := len + 1;
      ghost var heap' := SiftUp(len - 1, heap + [entry]);
      Pushed(heap, sorted, order, entry, heap');
      order := order + 1;
      heap, sorted := heap', Insert(entry, sorted);
    }

    method Peek() returns (first: Option<TimerEntry>)
      requires Valid()
      ensures first == if sorted == [] then None else Some(sorted[0])
    {
      SameSize(heap, sorted, order);
      if len == 0 { return None; }
      RootIsHead(heap, sorted, order);
      return Some(items[0]);
    }

    method Pop() returns (first: Option<TimerEntry>)
      requires Valid()
      modifies this`len, this`heap, this`sorted, items
      ensures Valid()
      ensures if old(sorted) == [] then first == None && sorted == []
              else first == Some(old(sorted)[0]) && sorted == old(sorted)[1..]
    {
      hide Represents;
      SameSize(heap, sorted, order);
      if len == 0 { return None; }
      RootIsHead(heap, sorted, order);
      first := Some(items[0]);
      RemoveRoot();
    }

    method RemoveRoot()
      requires Valid() && len > 0 && sorted != []
      modifies this`len, this`heap, this`sorted, items
      ensures Valid() && sorted == old(sorted)[1..]
    {
      hide Represents;
      if len == 1 {
        LastPopped(heap, sorted, order);
        len, heap, sorted := 0, [], sorted[1..];
      } else {
        MoveLastToRoot();
      }
    }

    method MoveLastToRoot()
      requires Valid() && len > 1 && sorted != []
      modifies this`len, this`heap, this`sorted, items
      ensures Valid() && sorted == old(sorted)[1..]
    {
      hide Represents, HeapFrom, SinkingAt, SameEntries;
      RootReplaced(heap, sorted, order);
      OverwriteRoot();
      ghost var heap' := SiftDown(0, RootMoved(heap));
      RestPopped(heap, sorted, order, heap');
      heap, sorted := heap', sorted[1..];
    }

    method OverwriteRoot()
      requires 1 < len <= items.Length && heap == items[..len]
      modifies this`len, items
      ensures len == old(len) - 1 && items[..len] == RootMoved(heap)
    {
      len := len - 1;
      items[0] := items[len];
    }

    method NoteCancelled()
      requires Valid()
      modifies this`cancelled
      ensures Valid() && cancelled == old(cancelled) + 1
    {
      cancelled := cancelled + 1;
    }

    /** A cancelled entry has surfaced. The count is a hint, so it never goes below zero. */
    method NoteRetired()
      requires Valid()
      modifies this`cancelled
      ensures Valid() && cancelled == if old(cancelled) == 0 then 0 else old(cancelled) - 1
    {
      if cancelled != 0 { cancelled := cancelled - 1; }
    }

    /** Drops every doomed entry and restores the heap before anything is released. */
    method CompactHeap(drop: Handle -> bool) returns (doomed: seq<Handle>)
      requires Valid()
      modifies this`len, this`cancelled, this`heap, this`sorted, items
      ensures Valid() && cancelled == 0
      ensures sorted == Keep(old(sorted), drop)
      ensures doomed == Dropped(old(heap), drop) && |doomed| + |sorted| == |old(sorted)|
    {
      SameSize(heap, sorted, order);
      KeptOrDropped(heap, drop);
      var write;
      write, doomed := Partition(drop);
      len := write;
      cancelled := 0;
      ghost var heap' := Heapify(Keep(heap, drop));
      Compacted(heap, sorted, order, drop, heap');
      heap, sorted := heap', Keep(sorted, drop);
      SameSize(heap, sorted, order);
    }

    /** Moves the entries to keep to the front of the array, in order. */
    method Partition(drop: Handle -> bool) returns (write: nat, doomed: seq<Handle>)
      requires len <= items.Length && heap == items[..len]
      modifies items
      ensures write <= len && items[..write] == Keep(heap, drop)
      ensures doomed == Dropped(heap, drop)
    {
      hide Keep, Dropped;
      NothingKept(heap[..0], drop);
      doomed, write := [], 0;
      var read := 0;
      while read < len
        invariant 0 <= write <= read <= len
        invariant items[..write] == Keep(heap[..read], drop)
        invariant forall k :: read <= k < len ==> items[k] == heap[k]
        invariant doomed == Dropped(heap[..read], drop)
      {
        var entry := items[read];
        KeepStep(heap, read, drop);
        if drop(entry.handle) {
          doomed := doomed + [entry.handle];
        } else {
          items[write] := entry;
          write := write + 1;
        }
        read := read + 1;
      }
      assert heap[..read] == heap;
    }

    /** As the source's `compact`: finalizers of the released handles meet a whole heap, and may do anything to it. */
    method Compact(drop: Handle -> bool, finalizers: seq<HeapCalls>, ghost c: Contents)
      returns (released: seq<Handle>, ghost c': Contents)
      requires Valid() && Matches(c)
      modifies this, items
      ensures Valid() && Matches(c') && (items == old(items) || fresh(items))
      ensures released == Dropped(old(heap), drop)
      ensures c' == Replay(c, HeapCall.Compact(drop, finalizers))
      decreases finalizers, 1
    {
      hide Represents, Insert, Keep, Dropped;
      DroppedCount(heap, sorted, order, drop);
      var doomed := CompactHeap(drop);
      released := [];
      ghost var purged := Purged(c, drop);
      c' := purged;
      while |released| < |doomed|
        invariant Valid() && Matches(c') && (items == old(items) || fresh(items))
        invariant released <= doomed
        invariant c' == ReplayFinalizers(purged, finalizers, Least(|released|, |finalizers|))
      {
        var k := |released|;
        if k < |finalizers| {
          c' := Perform(finalizers[k].calls, c');
        }
        released := released + [doomed[k]];
      }
    }

    ghost predicate Matches(c: Contents)
      reads this`sorted, this`order
    {
      c.sorted == sorted && c.order == order
    }

    method Perform(calls: seq<HeapCall>, ghost c: Contents) returns (ghost c': Contents)
      requires Valid() && Matches(c)
      modifies this, items
      ensures Valid() && Matches(c') && (items == old(items) || fresh(items))
      ensures c' == ReplayAll(c, calls, |calls|)
      decreases calls, 0
    {
      hide Timers.Valid, Replay;
      c' := c;
      var i := 0;
      while i < |calls|
        invariant i <= |calls| && Valid() && Matches(c') && (items == old(items) || fresh(items))
        invariant c' == ReplayAll(c, calls, i)
      {
        c' := Do(calls[i], c');
        i := i + 1;
      }
    }

    method Do(call: HeapCall, ghost c: Contents) returns (ghost c': Contents)
      requires Valid() && Matches(c)
      modifies this, items
      ensures Valid() && Matches(c') && (items == old(items) || fresh(items))
      ensures c' == Replay(c, call)
      decreases call
    {
      hide Represents, Insert, Keep;
      c' := Replay(c, call);
      match call {
        case Push(when, handle) => Push(when, handle);
        case Pop => var first := Pop();
        case Compact(drop, finalizers) =>
          var released;
          released, c' := Compact(drop, finalizers, c);
      }
    }

    /** Pops everything: what comes out is the sorted contents. */
    method Drain() returns (fired: seq<TimerEntry>)
      requires Valid()
      modifies this`len, this`heap, this`sorted, items
      ensures Valid() && sorted == [] && fired == old(sorted)
    {
      hide Represents;
      fired := [];
      var first := Pop();
      while first.Some?
        invariant Valid()
        invariant fired + (if first.Some? then [first.value] + sorted else []) == old(sorted)
        invariant first == None ==> sorted == []
        decreases first.Some?, |sorted|
      {
        fired := fired + [first.value];
        ghost var rest := sorted;
        first := Pop();
        assert rest != [] ==> rest == [rest[0]] + rest[1..];
      }
    }

    /** Draining after a compaction yields what draining before it would have, without the dropped entries. */
    method CompactAndDrain(drop: Handle -> bool) returns (doomed: seq<Handle>, fired: seq<TimerEntry>)
      requires Valid()
      modifies this`len, this`cancelled, this`heap, this`sorted, items
      ensures Valid() && sorted == []
      ensures fired == Keep(old(sorted), drop) && doomed == Dropped(old(heap), drop)
    {
      doomed := CompactHeap(drop);
      fired := Drain();
    }

    method Heapify(ghost s0: seq<TimerEntry>) returns (ghost s: seq<TimerEntry>)
      requires len <= items.Length && s0 == items[..len]
      modifies items
      ensures s == items[..len] && Heap(s) && SameEntries(s, s0)
    {
      s := s0;
      if len >= 2 {
        var i := len / 2;
        while i > 0
          invariant 0 <= i <= len / 2
          invariant s == items[..len] && HeapFrom(s, i) && SameEntries(s, s0)
        {
          i := i - 1;
          s := SiftDown(i, s);
        }
      }
    }

    method Grow()
      requires Valid() && len == items.Length
      modifies this`items
      ensures Valid() && fresh(items) && items.Length > len
    {
      var newCap := if items.Length == 0 then 32 else items.Length * 2;
      var newItems := new TimerEntry[newCap](i requires 0 <= i reads this, items =>
        if i < items.Length then items[i] else NO_ENTRY);
      assert newItems[..len] == items[..len];
      items := newItems;
    }

    method SiftUp(start: nat, ghost s0: seq<TimerEntry>) returns (ghost s: seq<TimerEntry>)
      requires start < len <= items.Length && s0 == items[..len] && RisingAt(s0, start)
      modifies items
      ensures s == items[..len] && Heap(s) && SameEntries(s, s0)
    {
      var i := start;
      var item := items[i];
      s := s0;
      while i > 0
        invariant 0 <= i < len == |s| && s[i] == item
        invariant forall k :: 0 <= k < len && k != i ==> items[k] == s[k]
        invariant RisingAt(s, i) && SameEntries(s, s0)
      {
        var parent := (i - 1) / 2;
        assert Child(i, parent);
        if !Before(item, items[parent]) { break; }
        RiseStep(s0, s, i, parent);
        s := Swap(s, i, parent);
        items[i] := items[parent];
        i := parent;
      }
      items[i] := item;
    }

    method SiftDown(start: nat, ghost s0: seq<TimerEntry>) returns (ghost s: seq<TimerEntry>)
      requires start < len <= items.Length && s0 == items[..len] && SinkingAt(s0, start, start)
      modifies items
      ensures s == items[..len] && HeapFrom(s, start) && SameEntries(s, s0)
    {
      hide SinkingAt, HeapFrom, SameEntries;
      var i := start;
      var item := items[i];
      s := s0;
      SameEntriesReflexive(s);
      while true
        invariant start <= i < len == |s| && s[i] == item
        invariant forall k :: 0 <= k < len && k != i ==> items[k] == s[k]
        invariant SinkingAt(s, start, i) && SameEntries(s, s0)
        decreases len - i
      {
        var left := i * 2 + 1;
        if left >= len { break; }
        var right := left + 1;
        var child := if right < len && Before(items[right], items[left]) then right else left;
        assert child == EarlierChild(s, i);
        if !Before(items[child], item) { break; }
        SinkStep(s0, s, start, i);
        s := Swap(s, i, child);
        items[i] := items[child];
        i := child;
      }
      SinkDone(s, start, i);
      items[i] := item;
    }
  }

  /** What may happen to a heap; a compaction's k-th released handle runs the k-th finalizer. */
  datatype HeapCall = Push(when: real, handle: Handle) | Pop | Compact(drop: Handle -> bool, finalizers: seq<HeapCalls>)
  datatype HeapCalls = HeapCalls(calls: seq<HeapCall>)

  /** A sorted list, and all that has gone into it and come out of it. */
  datatype Contents = Contents(
    sorted: seq<TimerEntry>, order: nat,
    pushed: seq<TimerEntry>, popped: seq<TimerEntry>, dropped: multiset<TimerEntry>)

  const EMPTY := Contents([], 0, [], [], multiset{})

  function Least(a: nat, b: nat): nat {
    if a < b then a else b
  }

  ghost function Purged(c: Contents, drop: Handle -> bool): Contents {
    c.(sorted := Keep(c.sorted, drop), dropped := c.dropped + (multiset(c.sorted) - multiset(Keep(c.sorted, drop))))
  }

  /** The calls on a sorted list instead of a heap. */
  ghost function Replay(c: Contents, call: HeapCall): Contents
    decreases call
  {
    match call
    case Push(when, handle) =>
      var e := TimerEntry(when, c.order + 1, handle);
      c.(sorted := Insert(e, c.sorted), order := c.order + 1, pushed := c.pushed + [e])
    case Pop => if c.sorted == [] then c else c.(sorted := c.sorted[1..], popped := c.popped + [c.sorted[0]])
    case Compact(drop, finalizers) =>
      ReplayFinalizers(Purged(c, drop), finalizers, Least(|Dropped(c.sorted, drop)|, |finalizers|))
  }

  ghost function ReplayFinalizers(c: Contents, finalizers: seq<HeapCalls>, k: nat): Contents
    requires k <= |finalizers|
    decreases finalizers, k
  {
    if k == 0 then c
    else
      var calls := finalizers[k - 1].calls;
      ReplayAll(ReplayFinalizers(c, finalizers, k - 1), calls, |calls|)
  }

  /** The first `k` calls. */
  ghost function ReplayAll(c: Contents, calls: seq<HeapCall>, k: nat): Contents
    requires k <= |calls|
    decreases calls, k
  {
    if k == 0 then c else Replay(ReplayAll(c, calls, k - 1), calls[k - 1])
  }

  /** How many handles a compaction releases does not depend on the heap's layout. */
  lemma DroppedCount(heap: seq<TimerEntry>, sorted: seq<TimerEntry>, order: nat, drop: Handle -> bool)
    requires Represents(heap, sorted, order)
    ensures |Dropped(heap, drop)| == |Dropped(sorted, drop)|
  {
    KeepSizes(heap, drop);
    KeepSizes(sorted, drop);
    KeepRespectsMultiset(heap, sorted, drop);
    SameLength(heap, sorted);
    SameLength(Keep(heap, drop), Keep(sorted, drop));
  }

  lemma {:induction false} KeepSizes(s: seq<TimerEntry>, drop: Handle -> bool)
    ensures |Keep(s, drop)| + |Dropped(s, drop)| == |s|
  {
    if s != [] {
      KeepSizes(s[..|s| - 1], drop);
    }
  }

  lemma SameLength(a: seq<TimerEntry>, b: seq<TimerEntry>)
    requires multiset(a) == multiset(b)
    ensures |a| == |b|
  {
    assert |multiset(a)| == |a| && |multiset(b)| == |b|;
  }

  // ----- what every session with a heap guarantees

  /** Everything pushed is still there, was popped or was dropped, once; pushes are numbered in turn. */
  ghost predicate Sound(c: Contents) {
    && Sorted(c.sorted) && OrdersUpTo(c.sorted, c.order)
    && |c.pushed| == c.order && (forall i :: 0 <= i < |c.pushed| ==> c.pushed[i].order == i + 1)
    && multiset(c.sorted) + multiset(c.popped) + c.dropped == multiset(c.pushed)
  }

  lemma PushSound(c: Contents, when: real, handle: Handle)
    requires Sound(c)
    ensures Sound(Replay(c, HeapCall.Push(when, handle)))
  {
    var e := TimerEntry(when, c.order + 1, handle);
    InsertSorted(e, c.sorted);
    InsertElements(e, c.sorted);
    forall x | x in Insert(e, c.sorted) ensures x.order <= c.order + 1 {
      InMultiset(x, Insert(e, c.sorted));
      InMultiset(x, c.sorted);
    }
  }

  lemma PopSound(c: Contents)
    requires Sound(c)
    ensures Sound(Replay(c, HeapCall.Pop))
  {
    if c.sorted != [] {
      assert c.sorted == [c.sorted[0]] + c.sorted[1..];
    }
  }

  lemma PurgeSound(c: Contents, drop: Handle -> bool)
    requires Sound(c)
    ensures Sound(Purged(c, drop))
  {
    var kept := Keep(c.sorted, drop);
    KeepSorted(c.sorted, drop);
    forall e ensures multiset(kept)[e] <= multiset(c.sorted)[e] {
      KeepCounts(c.sorted, drop, e);
    }
    forall e | e in kept ensures e.order <= c.order {
      KeepMembers(c.sorted, drop, e);
    }
  }

  lemma {:induction false} ReplaySound(c: Contents, call: HeapCall)
    requires Sound(c)
    ensures Sound(Replay(c, call))
    decreases call
  {
    hide Sound, Insert, Keep, Purged;
    match call
    case Push(when, handle) => PushSound(c, when, handle);
    case Pop => PopSound(c);
    case Compact(drop, finalizers) =>
      PurgeSound(c, drop);
      FinalizersSound(Purged(c, drop), finalizers, Least(|Dropped(c.sorted, drop)|, |finalizers|));
  }

  lemma {:induction false} FinalizersSound(c: Contents, finalizers: seq<HeapCalls>, k: nat)
    requires k <= |finalizers| && Sound(c)
    ensures Sound(ReplayFinalizers(c, finalizers, k))
    decreases finalizers, k
  {
    hide Sound;
    if k > 0 {
      FinalizersSound(c, finalizers, k - 1);
      var calls := finalizers[k - 1].calls;
      AllSound(ReplayFinalizers(c, finalizers, k - 1), calls, |calls|);
    }
  }

  lemma {:induction false} AllSound(c: Contents, calls: seq<HeapCall>, k: nat)
    requires k <= |calls| && Sound(c)
    ensures Sound(ReplayAll(c, calls, k))
    decreases calls, k
  {
    hide Sound, Replay;
    if k > 0 {
      AllSound(c, calls, k - 1);
      ReplaySound(ReplayAll(c, calls, k - 1), calls[k - 1]);
    }
  }

  /** By deadline, and in push order where deadlines are equal. */
  ghost predicate StablySorted(fired: seq<TimerEntry>) {
    forall i, j :: 0 <= i < j < |fired| ==>
      fired[i].when <= fired[j].when && (fired[i].when == fired[j].when ==> fired[i].order < fired[j].order)
  }

  lemma SortedIsStable(s: seq<TimerEntry>)
    requires Sorted(s)
    ensures StablySorted(s)
  {
    forall i, j | 0 <= i < j < |s|
      ensures s[i].when <= s[j].when && (s[i].when == s[j].when ==> s[i].order < s[j].order)
    {
      assert Before(s[i], s[j]);
    }
  }

  /**
   Any pushes, pops and compactions on a new heap, then a drain: it yields the rest of what was pushed, stably
   sorted.
   */
  method DrainIsStableSort(calls: seq<HeapCall>) returns (fired: seq<TimerEntry>, ghost c: Contents)
    ensures c == ReplayAll(EMPTY, calls, |calls|)
    ensures fired == c.sorted && StablySorted(fired)
    ensures multiset(fired) + multiset(c.popped) + c.dropped == multiset(c.pushed)
    ensures forall i :: 0 <= i < |c.pushed| ==> c.pushed[i].order == i + 1
  {
    hide Timers.Valid, Replay, ReplayAll;
    var timers := new Timers();
    c := timers.Perform(calls, EMPTY);
    AllSound(EMPTY, calls, |calls|);
    fired := timers.Drain();
    SortedIsStable(fired);
  }
}
