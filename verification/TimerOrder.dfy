/** Deadlines, their total order, and the sorted list the timer heap stands for. */
module TimerOrder {

  type Handle = nat

  datatype TimerEntry = TimerEntry(when: real, order: nat, handle: Handle)

  predicate Before(a: TimerEntry, b: TimerEntry) {
    if a.when != b.when then a.when < b.when else a.order < b.order
  }

  /** Earliest deadline first, ties by insertion order. Strict, so no two entries are equal. */
  ghost predicate Sorted(s: seq<TimerEntry>) {
    forall i, j :: 0 <= i < j < |s| ==> Before(s[i], s[j])
  }

  /** No entry of `s` was inserted after `limit` insertions. */
  ghost predicate OrdersUpTo(s: seq<TimerEntry>, limit: nat) {
    forall e :: e in s ==> e.order <= limit
  }

  // ----- insertion

  ghost function Insert(e: TimerEntry, s: seq<TimerEntry>): (r: seq<TimerEntry>)
    ensures |r| == |s| + 1
  {
    if s == [] then [e]
    else if Before(e, s[0]) then [e] + s
    else [s[0]] + Insert(e, s[1..])
  }

  lemma {:induction false} InsertElements(e: TimerEntry, s: seq<TimerEntry>)
    ensures multiset(Insert(e, s)) == multiset(s) + multiset{e}
  {
    if s == [] {
    } else if Before(e, s[0]) {
    } else {
      InsertElements(e, s[1..]);
      assert s == [s[0]] + s[1..];
    }
  }

  lemma InMultiset(e: TimerEntry, s: seq<TimerEntry>)
    ensures e in s <==> e in multiset(s)
  {
  }

  lemma {:induction false} InsertSorted(e: TimerEntry, s: seq<TimerEntry>)
    requires Sorted(s) && forall x :: x in s ==> x.order < e.order
    ensures Sorted(Insert(e, s))
  {
    if s == [] {
    } else if Before(e, s[0]) {
    } else {
      var rest := Insert(e, s[1..]);
      InsertSorted(e, s[1..]);
      InsertElements(e, s[1..]);
      forall j | 0 <= j < |rest| ensures Before(s[0], rest[j]) {
        InMultiset(rest[j], rest);
        InMultiset(rest[j], s[1..]);
        assert rest[j] == e || rest[j] in s[1..];
      }
    }
  }

  // ----- filtering

  function Keep(s: seq<TimerEntry>, drop: Handle -> bool): (r: seq<TimerEntry>) {
    if s == [] then []
    else
      var rest := Keep(s[..|s| - 1], drop);
      if drop(s[|s| - 1].handle) then rest else rest + [s[|s| - 1]]
  }

  /** The handles `Keep` leaves behind, in the order they were met. */
  function Dropped(s: seq<TimerEntry>, drop: Handle -> bool): (r: seq<Handle>) {
    if s == [] then []
    else
      var rest := Dropped(s[..|s| - 1], drop);
      if drop(s[|s| - 1].handle) then rest + [s[|s| - 1].handle] else rest
  }

  lemma NothingKept(s: seq<TimerEntry>, drop: Handle -> bool)
    requires s == []
    ensures Keep(s, drop) == [] && Dropped(s, drop) == []
  {
  }

  lemma KeepStep(s: seq<TimerEntry>, i: nat, drop: Handle -> bool)
    requires i < |s|
    ensures Keep(s[..i + 1], drop) == Keep(s[..i], drop) + if drop(s[i].handle) then [] else [s[i]]
    ensures Dropped(s[..i + 1], drop) == Dropped(s[..i], drop) + if drop(s[i].handle) then [s[i].handle] else []
  {
    assert s[..i + 1][..i] == s[..i];
  }

  /** Every entry is kept or dropped. */
  lemma {:induction false} KeptOrDropped(s: seq<TimerEntry>, drop: Handle -> bool)
    ensures |Keep(s, drop)| + |Dropped(s, drop)| == |s|
  {
    if s != [] { KeptOrDropped(s[..|s| - 1], drop); }
  }

  lemma {:induction false} KeepCounts(s: seq<TimerEntry>, drop: Handle -> bool, e: TimerEntry)
    ensures multiset(Keep(s, drop))[e] == if drop(e.handle) then 0 else multiset(s)[e]
  {
    if s == [] {
    } else {
      KeepCounts(s[..|s| - 1], drop, e);
      assert s == s[..|s| - 1] + [s[|s| - 1]];
    }
  }

  lemma KeepRespectsMultiset(s: seq<TimerEntry>, t: seq<TimerEntry>, drop: Handle -> bool)
    requires multiset(s) == multiset(t)
    ensures multiset(Keep(s, drop)) == multiset(Keep(t, drop))
  {
    forall e ensures multiset(Keep(s, drop))[e] == multiset(Keep(t, drop))[e] {
      KeepCounts(s, drop, e);
      KeepCounts(t, drop, e);
    }
  }

  lemma KeepMembers(s: seq<TimerEntry>, drop: Handle -> bool, e: TimerEntry)
    ensures e in Keep(s, drop) <==> e in s && !drop(e.handle)
  {
    KeepCounts(s, drop, e);
    InMultiset(e, s);
    InMultiset(e, Keep(s, drop));
  }

  lemma {:induction false} KeepSorted(s: seq<TimerEntry>, drop: Handle -> bool)
    requires Sorted(s)
    ensures Sorted(Keep(s, drop)) && |Keep(s, drop)| + |Dropped(s, drop)| == |s|
  {
    if s == [] {
    } else {
      var front := s[..|s| - 1];
      KeepSorted(front, drop);
      var kept := Keep(front, drop);
      forall i | 0 <= i < |kept| ensures Before(kept[i], s[|s| - 1]) {
        KeepMembers(front, drop, kept[i]);
      }
    }
  }

  function CountHandle(s: seq<TimerEntry>, h: Handle): (n: nat) {
    if s == [] then 0 else CountHandle(s[..|s| - 1], h) + (if s[|s| - 1].handle == h then 1 else 0)
  }

  /** Each doomed entry gives up its handle exactly once, and no other entry does. */
  lemma {:induction false} DroppedExactlyOnce(s: seq<TimerEntry>, drop: Handle -> bool, h: Handle)
    ensures multiset(Dropped(s, drop))[h] == if drop(h) then CountHandle(s, h) else 0
  {
    if s == [] {
    } else {
      DroppedExactlyOnce(s[..|s| - 1], drop, h);
    }
  }

  // ----- uniqueness

  /** A strictly sorted list is determined by its elements. */
  lemma {:induction false} SortedUnique(a: seq<TimerEntry>, b: seq<TimerEntry>)
    requires Sorted(a) && Sorted(b) && multiset(a) == multiset(b)
    ensures a == b
  {
    assert |multiset(a)| == |a| && |multiset(b)| == |b|;
    if a == [] {
    } else {
      InMultiset(a[0], b);
      InMultiset(b[0], a);
      assert a[0] in multiset(a) && b[0] in multiset(b);
      assert a[0] == b[0];
      assert a == [a[0]] + a[1..] && b == [b[0]] + b[1..];
      assert multiset(a[1..]) == multiset(a) - multiset{a[0]};
      SortedUnique(a[1..], b[1..]);
    }
  }
}
