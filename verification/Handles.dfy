/** The handles a loop counts towards its I/O: opened, closing, and closed by libuv's callback. */
module Handles {
  datatype HandleId = HandleId(number: nat)
  datatype Phase = Open | Closing | Closed

  ghost function InPhase(table: map<HandleId, Phase>, phase: Phase): set<HandleId> {
    set h | h in table && table[h] == phase
  }

  /** Exactly the handles that left the open phase had `uv_close` called on them, once each. */
  ghost predicate ClosedOnce(table: map<HandleId, Phase>, closes: multiset<HandleId>, callbacks: multiset<HandleId>) {
    && (forall h :: closes[h] == if h in table && table[h] != Open then 1 else 0)
    && (forall h :: callbacks[h] == if h in table && table[h] == Closed then 1 else 0)
  }

  lemma Moved(table: map<HandleId, Phase>, h: HandleId, phase: Phase)
    requires h in table && table[h] != phase
    ensures InPhase(table[h := phase], phase) == InPhase(table, phase) + {h}
    ensures InPhase(table[h := phase], table[h]) == InPhase(table, table[h]) - {h}
    ensures forall p :: p != phase && p != table[h] ==> InPhase(table[h := phase], p) == InPhase(table, p)
    ensures |InPhase(table[h := phase], phase)| == |InPhase(table, phase)| + 1
    ensures |InPhase(table[h := phase], table[h])| == |InPhase(table, table[h])| - 1
  {
    assert InPhase(table[h := phase], phase) == InPhase(table, phase) + {h};
    assert InPhase(table[h := phase], table[h]) == InPhase(table, table[h]) - {h};
    assert h in InPhase(table, table[h]) && h !in InPhase(table, phase);
  }

  lemma Appeared(table: map<HandleId, Phase>, h: HandleId)
    requires h !in table
    ensures |InPhase(table[h := Open], Open)| == |InPhase(table, Open)| + 1
    ensures InPhase(table[h := Open], Closing) == InPhase(table, Closing)
  {
    assert InPhase(table[h := Open], Open) == InPhase(table, Open) + {h};
  }

  class Counters {
    var external: nat
    var closing: nat
    var closed: bool                        // the loop itself is closed
    var table: map<HandleId, Phase>         // what libuv knows of each handle
    ghost var closes: multiset<HandleId>    // `uv_close` calls
    ghost var callbacks: multiset<HandleId> // close callbacks

    ghost predicate Valid()
      reads this
    {
      && external == |InPhase(table, Open)| + |InPhase(table, Closing)|
      && closing == |InPhase(table, Closing)|
      && ClosedOnce(table, closes, callbacks)
    }

    constructor ()
      ensures Valid() && table == map[] && external == 0 && closing == 0 && !closed
    {
      external, closing, closed, table := 0, 0, false, map[];
      closes, callbacks := multiset{}, multiset{};
      new;
      assert InPhase(table, Open) == {} && InPhase(table, Closing) == {};
    }

    /** A handle was initialised. */
    method Opened(h: HandleId)
      requires Valid() && h !in table
      modifies this`external, this`table
      ensures Valid() && table == old(table)[h := Open]
    {
      Appeared(table, h);
      external := external + 1;
      table := table[h := Open];
    }

    /** `closeExternalHandle`. */
    method CloseExternal(h: HandleId)
      requires Valid() && h in table
      modifies this`closing, this`table, this`closes
      ensures Valid()
      ensures table == if old(table)[h] == Open then old(table)[h := Closing] else old(table)
    {
      if table[h] != Open { return; }
      Moved(table, h, Closing);
      closing := closing + 1;
      closes := closes + multiset{h};
      table := table[h := Closing];
    }

    /** libuv runs the close callback, which begins with `externalHandleClosed`. */
    method CloseCallback(h: HandleId)
      requires Valid() && h in table && table[h] == Closing
      modifies this`external, this`closing, this`table, this`callbacks
      ensures Valid() && table == old(table)[h := Closed]
    {
      Moved(table, h, Closed);
      assert |InPhase(table, Closing)| > 0 by { assert h in InPhase(table, Closing); }
      external := external - 1;
      closing := closing - 1;
      callbacks := callbacks + multiset{h};
      table := table[h := Closed];
    }

    /** The loop is closed; what it still counts is left to be shut down. */
    method MarkClosed()
      requires Valid()
      modifies this`closed
      ensures Valid() && closed
    {
      closed := true;
    }
  }

  /** A child process handle, whose open flag keeps it from being closed again. */
  class Process {
    const loop: Counters
    const handle: HandleId
    var open: bool

    ghost predicate Valid()
      reads this, loop
    {
      && loop.Valid() && handle in loop.table
      && (open <==> loop.table[handle] == Open)
    }

    /** `uv_spawn` links the handle into the loop even when it fails. */
    constructor (loop: Counters, handle: HandleId, spawned: bool)
      requires loop.Valid() && handle !in loop.table
      modifies loop
      ensures Valid() && open == spawned && this.loop == loop && this.handle == handle
      ensures loop.Valid() && loop.table == old(loop.table)[handle := if spawned then Open else Closing]
      ensures loop.closed == old(loop.closed)
    {
      this.loop, this.handle, open := loop, handle, spawned;
      new;
      loop.Opened(handle);
      if !spawned {
        loop.CloseExternal(handle);
      }
    }

    method CloseHandle()
      requires Valid()
      modifies this, loop
      ensures Valid() && !open && loop.closed == old(loop.closed)
      ensures loop.table == if old(open) then old(loop.table)[handle := Closing] else old(loop.table)
    {
      if !open { return; }
      open := false;
      loop.CloseExternal(handle);
    }

    method CloseFromLoop()
      requires Valid()
      modifies this, loop
      ensures Valid() && !open && loop.closed == old(loop.closed)
      ensures loop.table == if old(open) then old(loop.table)[handle := Closing] else old(loop.table)
    {
      open := false;
      loop.CloseExternal(handle);
    }
  }
}
