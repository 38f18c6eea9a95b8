/** All the counted handles of one loop, in use and being shut down. */
module LoopShutdown {
  import opened Handles
  import opened Datagram
  import Pollers

  /** An object that owns one handle. */
  datatype Item = Socket(endpoint: Endpoint) | Child(process: Process)

  function HandleOf(item: Item): HandleId {
    match item
    case Socket(endpoint) => endpoint.handle
    case Child(process) => process.handle
  }

  function LoopOf(item: Item): Counters {
    match item
    case Socket(endpoint) => endpoint.loop
    case Child(process) => process.loop
  }

  function ObjectOf(item: Item): object {
    match item
    case Socket(endpoint) => endpoint
    case Child(process) => process
  }

  /** Between two turns, the object is consistent with the loop's view of its handle. */
  ghost predicate ItemOk(item: Item)
    reads ObjectOf(item), LoopOf(item)
  {
    match item
    case Socket(endpoint) => endpoint.Valid() && !endpoint.settling && !endpoint.detaching
    case Child(process) => process.Valid()
  }

  /** An object is consistent as long as neither it nor its handle is touched. */
  twostate lemma ItemFramed(item: Item)
    requires old(ItemOk(item)) && unchanged(ObjectOf(item))
    requires LoopOf(item).Valid() && HandleOf(item) in old(LoopOf(item).table) && HandleOf(item) in LoopOf(item).table
    requires LoopOf(item).table[HandleOf(item)] == old(LoopOf(item).table)[HandleOf(item)]
    ensures ItemOk(item)
  {
  }

  twostate lemma WatchersFramed(watchers: Pollers.Watchers)
    requires old(watchers.Valid() && watchers.Quiet()) && unchanged(watchers) && unchanged(watchers.repr)
    requires watchers.loop.Valid() && (old(watchers.loop.closed) ==> watchers.loop.closed)
    requires forall u :: u in watchers.polls ==>
      u in old(watchers.loop.table) && u in watchers.loop.table && watchers.loop.table[u] == old(watchers.loop.table)[u]
    ensures watchers.Valid() && watchers.Quiet()
  {
  }

  twostate lemma PollsKnown(watchers: Pollers.Watchers)
    requires old(watchers.Valid())
    ensures forall u :: u in old(watchers.polls) ==> u in old(watchers.loop.table)
  {
  }

  lemma SocketLoop(endpoint: Endpoint)
    requires endpoint.Valid()
    ensures endpoint.loop.Valid()
  {
  }

  lemma WatchersLoop(watchers: Pollers.Watchers)
    requires watchers.Valid()
    ensures watchers.loop.Valid()
  {
  }

  /** One thing that happens on the loop; every tree of reentrant calls is covered. */
  datatype Turn =
    | OnSocket(k: nat, step: Datagram.Step)
    | OnExit(k: nat)
    | OnWatchers(event: Pollers.Step)
    | OnCloseCallback(handle: HandleId)
    | NewSocket(handle: HandleId)
    | NewChild(handle: HandleId, spawned: bool)

  /**
   All that is left open about a shutdown: the order in which the map yields its descriptors, what finalizers do to
   the watchers and detaching sockets to themselves, and which turns happen to other objects: before the watchers are
   destroyed, after each of them, after each object, and while the loop drains.
   */
  datatype Plan = Plan(
    first: seq<Turn>,
    order: seq<Pollers.Fd>, finalizers: seq<seq<Pollers.Reaction>>, meanwhile: seq<seq<Turn>>,
    detaching: seq<seq<Datagram.Reaction>>, between: seq<seq<Turn>>,
    draining: seq<Turn>)

  class Registry {
    const loop: Counters
    const watchers: Pollers.Watchers
    var items: seq<Item>

    ghost function Frame(): set<object>
      reads this, watchers
    {
      {this, loop, watchers} + watchers.repr + set i | 0 <= i < |items| :: ObjectOf(items[i])
    }

    ghost predicate Apart()
      reads this, watchers
    {
      && (forall i :: 0 <= i < |items| ==> LoopOf(items[i]) == loop && HandleOf(items[i]) !in watchers.polls)
      && (forall i, j :: 0 <= i < j < |items| ==>
            HandleOf(items[i]) != HandleOf(items[j]) && ObjectOf(items[i]) != ObjectOf(items[j]))
      && watchers.loop == loop
    }

    /** Every handle the loop knows is a poll or some object's. */
    ghost predicate Accounted()
      reads this, loop, watchers
    {
      forall u :: u in loop.table ==> u in watchers.polls || exists i :: 0 <= i < |items| && HandleOf(items[i]) == u
    }

    ghost predicate Valid()
      reads Frame()
    {
      && Apart() && Accounted() && loop.Valid()
      && watchers.Valid() && watchers.Quiet()
      && (forall i :: 0 <= i < |items| ==> HandleOf(items[i]) in loop.table && ItemOk(items[i]))
    }

    constructor (loop: Counters)
      requires loop.Valid() && loop.table == map[]
      ensures Valid() && this.loop == loop && items == [] && fresh(Frame() - {loop})
    {
      hide Pollers.Watchers.Valid, Counters.Valid;
      this.loop := loop;
      watchers := new Pollers.Watchers(loop);
      items := [];
    }

    /** Whatever only touches one object and its handle keeps all others consistent. */
    twostate lemma OthersFramed(k: nat)
      requires old(Valid()) && k < |items| && items == old(items)
      requires forall i :: 0 <= i < |items| && i != k ==> unchanged(ObjectOf(items[i]))
      requires unchanged(watchers) && unchanged(watchers.repr)
      requires loop.Valid() && HandleOf(items[k]) in loop.table && ItemOk(items[k]) && loop.closed == old(loop.closed)
      requires loop.table == old(loop.table)[HandleOf(items[k]) := loop.table[HandleOf(items[k])]]
      ensures Valid()
    {
      forall i | 0 <= i < |items| && i != k ensures HandleOf(items[i]) in loop.table && ItemOk(items[i]) {
        ItemFramed(items[i]);
      }
      WatchersFramed(watchers);
    }

    /** The watchers have not been touched. */
    twostate predicate SameWatchers()
      reads this, watchers
    {
      && watchers.repr == old(watchers.repr) && watchers.polls == old(watchers.polls)
      && watchers.pollers == old(watchers.pollers)
    }

    /** A closed loop gets no new objects or polls, and watches nothing new. */
    twostate predicate Shrunk()
      reads this, watchers, loop
    {
      loop.closed ==>
        && items == old(items) && watchers.polls == old(watchers.polls)
        && forall fd :: fd in Pollers.Watched(watchers.pollers) ==> fd in Pollers.Watched(old(watchers.pollers))
    }

    method SocketTurn(k: nat, step: Datagram.Step)
      requires Valid() && k < |items| && items[k].Socket?
      modifies Frame()
      ensures Valid() && items == old(items) && SameWatchers() && items[k].endpoint.Took(step)
      ensures loop.closed == old(loop.closed) && Onward(old(loop.table), loop.table, loop.closed)
    {
      var endpoint := items[k].endpoint;
      assert ItemOk(items[k]);
      hide Endpoint.Valid, Pollers.Watchers.Valid, Counters.Valid;
      StepEndpoint(endpoint, step);
      hide Onward, Stepped, FlatStep, Endpoint.Now;
      OthersFramed(k);
      OneMoved(old(loop.table), HandleOf(items[k]), loop.table, loop.closed);
    }

    /** A child process exits, which closes its handle. */
    method ChildTurn(k: nat, fromLoop: bool)
      requires Valid() && k < |items| && items[k].Child?
      modifies Frame()
      ensures Valid() && items == old(items) && SameWatchers()
      ensures loop.closed == old(loop.closed) && Onward(old(loop.table), loop.table, loop.closed)
      ensures HandleOf(items[k]) in loop.table && loop.table[HandleOf(items[k])] != Open
    {
      var process := items[k].process;
      assert ItemOk(items[k]);
      hide Endpoint.Valid, Pollers.Watchers.Valid, Counters.Valid;
      hide Process.Valid;
      CloseProcess(process, fromLoop);
      ProcessLoop(process);
      hide Onward;
      OthersFramed(k);
      OneMoved(old(loop.table), HandleOf(items[k]), loop.table, loop.closed);
    }

    method WatchersTurn(event: Pollers.Step)
      requires Valid()
      modifies Frame()
      ensures watchers.Took(event)
      ensures Valid() && items == old(items) && fresh(Frame() - old(Frame())) && Shrunk()
      ensures loop.closed == old(loop.closed) && Onward(old(loop.table), loop.table, loop.closed)
    {
      hide Endpoint.Valid, Pollers.Watchers.Valid, Counters.Valid, Pollers.Later;
      watchers.Take(event);
      WatchersLoop(watchers);
      forall i | 0 <= i < |items| ensures unchanged(ObjectOf(items[i])) {
        match items[i]
        case Socket(endpoint) => assert unchanged(endpoint);
        case Child(process) => assert unchanged(process);
      }
      ItemsFramed();
    }

    /** Whatever the watchers do to their own polls keeps all objects consistent. */
    twostate lemma ItemsFramed()
      requires old(Valid()) && items == old(items)
      requires forall i :: 0 <= i < |items| ==> unchanged(ObjectOf(items[i]))
      requires watchers.Valid() && watchers.Quiet() && loop.Valid()
      requires Pollers.Later(old(watchers.Common()), watchers.Common())
      ensures Valid() && loop.closed == old(loop.closed) && Onward(old(loop.table), loop.table, loop.closed) && Shrunk()
    {
      var a, b := old(watchers.Common()), watchers.Common();
      assert a.table == old(loop.table) && b.table == loop.table;
      forall i | 0 <= i < |items| ensures HandleOf(items[i]) in loop.table && ItemOk(items[i]) {
        ItemFramed(items[i]);
      }
    }

    /** libuv calls back about a closed poll or process; a socket's callback is a turn of its own. */
    method CallbackTurn(handle: HandleId)
      requires Valid() && handle in loop.table && loop.table[handle] == Closing
      requires forall i :: 0 <= i < |items| && items[i].Socket? ==> HandleOf(items[i]) != handle
      modifies loop
      ensures Valid() && loop.closed == old(loop.closed) && loop.table == old(loop.table)[handle := Closed]
    {
      loop.CloseCallback(handle);
      CallbackFramed(handle);
    }

    twostate lemma CallbackFramed(handle: HandleId)
      requires old(Valid()) && unchanged(this) && unchanged(watchers) && unchanged(watchers.repr)
      requires forall i :: 0 <= i < |items| ==> unchanged(ObjectOf(items[i]))
      requires handle in old(loop.table) && old(loop.table)[handle] == Closing
      requires loop.table == old(loop.table)[handle := Closed]
      requires forall i :: 0 <= i < |items| && items[i].Socket? ==> HandleOf(items[i]) != handle
      requires loop.Valid() && loop.closed == old(loop.closed)
      ensures Valid()
    {
      CallbackSparesWatchers(handle);
      assert Accounted() by {
        forall u | u in loop.table
          ensures u in watchers.polls || exists i :: 0 <= i < |items| && HandleOf(items[i]) == u
        {
          assert u in old(loop.table);
        }
      }
      forall i | 0 <= i < |items| ensures HandleOf(items[i]) in loop.table && ItemOk(items[i]) {
        if HandleOf(items[i]) != handle {
          ItemFramed(items[i]);
        }
      }
    }

    // ----- new objects

    method OpenSocket(handle: HandleId)
      requires Valid() && handle !in loop.table && !loop.closed
      modifies this`items, loop
      ensures Valid() && fresh(Frame() - old(Frame())) && !loop.closed
      ensures loop.table == old(loop.table)[handle := Open]
    {
      hide Endpoint.Valid, Pollers.Watchers.Valid, Counters.Valid;
      var endpoint := new Endpoint(loop, handle);
      AppendFramed(Socket(endpoint));
      Append(Socket(endpoint));
    }

    method OpenChild(handle: HandleId, spawned: bool)
      requires Valid() && handle !in loop.table && !loop.closed
      modifies this`items, loop
      ensures Valid() && fresh(Frame() - old(Frame())) && !loop.closed
      ensures loop.table == old(loop.table)[handle := if spawned then Open else Closing]
    {
      hide Endpoint.Valid, Pollers.Watchers.Valid, Counters.Valid;
      var process := new Process(loop, handle, spawned);
      AppendFramed(Child(process));
      Append(Child(process));
    }

    method Append(item: Item)
      requires Apart() && loop.Valid() && watchers.Valid() && watchers.Quiet()
      requires forall i :: 0 <= i < |items| ==> HandleOf(items[i]) in loop.table && ItemOk(items[i])
      requires forall i :: 0 <= i < |items| ==>
        HandleOf(items[i]) != HandleOf(item) && ObjectOf(items[i]) != ObjectOf(item)
      requires ItemOk(item) && LoopOf(item) == loop && HandleOf(item) !in watchers.polls && HandleOf(item) in loop.table
      requires forall u :: u in loop.table && u != HandleOf(item) ==>
        u in watchers.polls || exists i :: 0 <= i < |items| && HandleOf(items[i]) == u
      modifies this`items
      ensures Valid() && items == old(items) + [item]
    {
      hide Endpoint.Valid, Pollers.Watchers.Valid, Counters.Valid;
      ghost var n, before := |items|, items;
      items := items + [item];
      assert items[n] == item && forall i :: 0 <= i < n ==> items[i] == before[i];
      forall u | u in loop.table
        ensures u in watchers.polls || exists i :: 0 <= i < |items| && HandleOf(items[i]) == u
      {
        if u != HandleOf(item) && u !in watchers.polls {
          var i :| 0 <= i < n && HandleOf(before[i]) == u;
          assert HandleOf(items[i]) == u;
        }
      }
    }

    twostate lemma AppendFramed(new item: Item)
      requires old(Valid()) && unchanged(this) && unchanged(watchers) && unchanged(watchers.repr)
      requires forall i :: 0 <= i < |items| ==> unchanged(ObjectOf(items[i]))
      requires fresh(ObjectOf(item)) && ItemOk(item) && LoopOf(item) == loop && HandleOf(item) !in old(loop.table)
      requires HandleOf(item) in loop.table
      requires loop.table == old(loop.table)[HandleOf(item) := loop.table[HandleOf(item)]]
      requires loop.Valid() && loop.closed == old(loop.closed)
      ensures watchers.Valid() && watchers.Quiet() && HandleOf(item) !in watchers.polls
      ensures forall i :: 0 <= i < |items| ==>
        HandleOf(items[i]) in loop.table && ItemOk(items[i]) && HandleOf(items[i]) != HandleOf(item)
    {
      PollsKnown(watchers);
      WatchersFramed(watchers);
      forall i | 0 <= i < |items| ensures HandleOf(items[i]) in loop.table && ItemOk(items[i]) {
        ItemFramed(items[i]);
      }
    }

    twostate lemma CallbackSparesWatchers(handle: HandleId)
      requires old(watchers.Valid() && watchers.Quiet()) && unchanged(watchers) && unchanged(watchers.repr)
      requires watchers.loop == loop
      requires handle in old(loop.table) && old(loop.table)[handle] == Closing
      requires loop.table == old(loop.table)[handle := Closed]
      requires loop.Valid() && loop.closed == old(loop.closed)
      ensures watchers.Valid() && watchers.Quiet()
    {
    }

    // ----- turns

    method FindSocket(handle: HandleId) returns (k: nat)
      ensures k <= |items|
      ensures k < |items| ==> items[k].Socket? && HandleOf(items[k]) == handle
      ensures k == |items| ==> forall i :: 0 <= i < |items| && items[i].Socket? ==> HandleOf(items[i]) != handle
    {
      k := 0;
      while k < |items| && !(items[k].Socket? && HandleOf(items[k]) == handle)
        invariant k <= |items| && forall i :: 0 <= i < k && items[i].Socket? ==> HandleOf(items[i]) != handle
      {
        k := k + 1;
      }
    }

    /** libuv calls back about a closed handle, whoever owned it. */
    method Deliver(handle: HandleId)
      requires Valid() && handle in loop.table && loop.table[handle] == Closing
      modifies Frame()
      ensures Valid() && items == old(items) && SameWatchers()
      ensures loop.closed == old(loop.closed) && loop.table == old(loop.table)[handle := Closed]
    {
      hide Endpoint.Valid, Pollers.Watchers.Valid, Counters.Valid;
      var k := FindSocket(handle);
      if k == |items| {
        CallbackTurn(handle);
      } else {
        SocketClosed(k);
      }
    }

    method SocketClosed(k: nat)
      requires Valid() && k < |items| && items[k].Socket? && loop.table[HandleOf(items[k])] == Closing
      modifies Frame()
      ensures Valid() && items == old(items) && SameWatchers()
      ensures loop.closed == old(loop.closed) && loop.table == old(loop.table)[HandleOf(items[k]) := Closed]
    {
      var endpoint := items[k].endpoint;
      assert ItemOk(items[k]);
      hide Endpoint.Valid, Pollers.Watchers.Valid, Counters.Valid;
      endpoint.OnClosed();
      SocketLoop(endpoint);
      OthersFramed(k);
    }

    method Take(turn: Turn)
      requires Valid()
      modifies Frame()
      ensures Valid() && fresh(Frame() - old(Frame())) && Shrunk()
      ensures loop.closed == old(loop.closed) && Onward(old(loop.table), loop.table, loop.closed)
      ensures turn.OnSocket? && turn.k < |old(items)| && old(items)[turn.k].Socket? ==>
        old(items)[turn.k].endpoint.Took(turn.step)
      ensures turn.OnExit? && turn.k < |old(items)| && old(items)[turn.k].Child? ==>
        HandleOf(old(items)[turn.k]) in loop.table && loop.table[HandleOf(old(items)[turn.k])] != Open
      ensures turn.OnWatchers? ==> watchers.Took(turn.event)
      ensures turn.OnCloseCallback? && turn.handle in old(loop.table) && old(loop.table)[turn.handle] == Closing ==>
        loop.table == old(loop.table)[turn.handle := Closed]
      ensures turn.NewSocket? && turn.handle !in old(loop.table) && !loop.closed ==>
        loop.table == old(loop.table)[turn.handle := Open]
      ensures turn.NewChild? && turn.handle !in old(loop.table) && !loop.closed ==>
        loop.table == old(loop.table)[turn.handle := if turn.spawned then Open else Closing]
    {
      hide Registry.Valid;
      match turn {
        case OnSocket(k, step) =>
          if k < |items| && items[k].Socket? { SocketTurn(k, step); }
        case OnExit(k) =>
          if k < |items| && items[k].Child? { ChildTurn(k, false); }
        case OnWatchers(event) => WatchersTurn(event);
        case OnCloseCallback(handle) =>
          if handle in loop.table && loop.table[handle] == Closing { Deliver(handle); }
        case NewSocket(handle) =>
          if handle !in loop.table && !loop.closed { OpenSocket(handle); }
        case NewChild(handle, spawned) =>
          if handle !in loop.table && !loop.closed { OpenChild(handle, spawned); }
      }
    }

    /** Every mix of sends, closes, exits, polls and callbacks keeps both counters equal to their populations. */
    method Run(turns: seq<Turn>)
      requires Valid()
      modifies Frame()
      ensures Valid() && fresh(Frame() - old(Frame())) && Shrunk()
      ensures loop.closed == old(loop.closed) && Onward(old(loop.table), loop.table, loop.closed)
    {
      hide Registry.Valid, Onward;
      OnwardSame(loop.table, loop.closed);
      for i := 0 to |turns|
        invariant Valid() && fresh(Frame() - old(Frame())) && Shrunk()
        invariant loop.closed == old(loop.closed) && Onward(old(loop.table), loop.table, loop.closed)
      {
        ghost var table := loop.table;
        Take(turns[i]);
        OnwardTwice(old(loop.table), table, loop.table, loop.closed);
      }
    }

    // ----- shutdown

    /** `walkClose` on a datagram socket, which detaches its Python socket on the way. */
    method CloseSocket(k: nat, points: seq<Datagram.Reaction>)
      requires Valid() && k < |items| && items[k].Socket?
      modifies Frame()
      ensures Valid() && items == old(items) && SameWatchers()
      ensures loop.closed == old(loop.closed) && Onward(old(loop.table), loop.table, loop.closed)
      ensures loop.table[HandleOf(items[k])] != Open
    {
      var endpoint := items[k].endpoint;
      assert ItemOk(items[k]);
      hide Endpoint.Valid, Pollers.Watchers.Valid, Counters.Valid;
      CloseEndpoint(endpoint, points);
      hide Onward;
      OthersFramed(k);
      OneMoved(old(loop.table), HandleOf(items[k]), loop.table, loop.closed);
    }

    /** Destroys the watcher of one descriptor. */
    method CloseWatcher(fd: Pollers.Fd, points: seq<Pollers.Reaction>)
      requires Valid() && loop.closed
      modifies Frame()
      ensures Valid() && items == old(items) && fresh(Frame() - old(Frame())) && Shrunk() && loop.closed
      ensures fd !in Pollers.Watched(watchers.pollers) && Onward(old(loop.table), loop.table, true)
    {
      hide Endpoint.Valid, Pollers.Watchers.Valid, Counters.Valid, Pollers.Later, Pollers.Watched;
      watchers.DestroyNext(fd, points);
      WatchersLoop(watchers);
      forall i | 0 <= i < |items| ensures unchanged(ObjectOf(items[i])) {
        match items[i]
        case Socket(endpoint) => assert unchanged(endpoint);
        case Child(process) => assert unchanged(process);
      }
      ItemsFramed();
    }

    /** Destroys every watcher; `between` is what happens to other objects as their callbacks are released. */
    method CloseWatchers(order: seq<Pollers.Fd>, script: seq<seq<Pollers.Reaction>>, between: seq<seq<Turn>>)
      requires Valid() && loop.closed && forall fd :: fd in Pollers.Watched(watchers.pollers) ==> fd in order
      modifies Frame()
      ensures Valid() && items == old(items) && fresh(Frame() - old(Frame())) && loop.closed
      ensures forall u :: u in watchers.polls ==> u in loop.table && loop.table[u] != Open
      ensures Onward(old(loop.table), loop.table, true)
    {
      hide Registry.Valid, Onward, Pollers.Watched;
      OnwardSame(loop.table, true);
      for i := 0 to |order|
        invariant Valid() && items == old(items) && fresh(Frame() - old(Frame())) && loop.closed
        invariant Onward(old(loop.table), loop.table, true)
        invariant forall fd :: fd in Pollers.Watched(watchers.pollers) ==> fd in order[i..]
      {
        assert order[i..] == [order[i]] + order[i + 1..];
        ghost var table := loop.table;
        CloseWatcher(order[i], if i < |script| then script[i] else []);
        ghost var closer := loop.table;
        Run(if i < |between| then between[i] else []);
        OnwardTwice(table, closer, loop.table, true);
        OnwardTwice(old(loop.table), table, loop.table, true);
      }
      ghost var table := loop.table;
      DropWatchers();
      OnwardTwice(old(loop.table), table, loop.table, true);
    }

    method DropWatchers()
      requires Valid() && loop.closed && Pollers.Watched(watchers.pollers) == {}
      modifies watchers`pollers
      ensures Valid() && Onward(old(loop.table), loop.table, true)
      ensures forall u :: u in watchers.polls ==> u in loop.table && loop.table[u] != Open
    {
      hide Endpoint.Valid, Pollers.Watchers.Valid, Counters.Valid, Pollers.Watched, Pollers.Later;
      watchers.DropMap();
      WatchersLoop(watchers);
      ItemsFramed();
    }

    /**
     Walks over every object that owns a handle; `script` is what happens to each while it is being closed, and
     `between` what happens to the others.
     */
    method WalkClose(script: seq<seq<Datagram.Reaction>>, between: seq<seq<Turn>>)
      requires Valid() && loop.closed
      modifies Frame()
      ensures Valid() && fresh(Frame() - old(Frame())) && Shrunk() && loop.closed
      ensures Onward(old(loop.table), loop.table, true)
      ensures forall i :: 0 <= i < |items| ==>
        HandleOf(items[i]) in loop.table && loop.table[HandleOf(items[i])] != Open
    {
      hide Registry.Valid, Onward, Pollers.Watched;
      OnwardSame(loop.table, true);
      for k := 0 to |items|
        invariant Valid() && items == old(items) && fresh(Frame() - old(Frame())) && Shrunk() && loop.closed
        invariant Onward(old(loop.table), loop.table, true)
        invariant forall i :: 0 <= i < k ==> HandleOf(items[i]) in loop.table && loop.table[HandleOf(items[i])] != Open
      {
        ghost var table := loop.table;
        CloseItem(k, if k < |script| then script[k] else [], if k < |between| then between[k] else []);
        OnwardTwice(old(loop.table), table, loop.table, true);
        OnwardKeeps(table, loop.table, true);
      }
    }

    /** Closes one object; then something happens to the others. */
    method CloseItem(k: nat, points: seq<Datagram.Reaction>, turns: seq<Turn>)
      requires Valid() && loop.closed && k < |items|
      modifies Frame()
      ensures Valid() && fresh(Frame() - old(Frame())) && Shrunk() && loop.closed && items == old(items)
      ensures Onward(old(loop.table), loop.table, true)
      ensures HandleOf(items[k]) in loop.table && loop.table[HandleOf(items[k])] != Open
    {
      hide Registry.Valid, Onward, Pollers.Watched;
      if items[k].Socket? {
        CloseSocket(k, points);
      } else {
        ChildTurn(k, true);
      }
      Known(k);
      ghost var closer := loop.table;
      Run(turns);
      OnwardTwice(old(loop.table), closer, loop.table, true);
      OnwardKeeps(closer, loop.table, true);
    }

    lemma Known(k: nat)
      requires Valid() && k < |items|
      ensures HandleOf(items[k]) in loop.table
    {
    }

    /** Nothing is left open once the polls and every object are closed. */
    lemma NothingOpen()
      requires Valid()
      requires forall u :: u in watchers.polls ==> u in loop.table && loop.table[u] != Open
      requires forall i :: 0 <= i < |items| ==>
        HandleOf(items[i]) in loop.table && loop.table[HandleOf(items[i])] != Open
      ensures NoneOpen(loop.table)
    {
    }

    /** Runs the loop until libuv has called back about every handle. */
    method DeliverAll()
      requires Valid() && NoneOpen(loop.table) && loop.closed
      modifies Frame()
      ensures Valid() && items == old(items) && SameWatchers()
      ensures loop.closed && forall u :: u in old(loop.table) ==> u in loop.table
      ensures forall u :: u in loop.table ==> loop.table[u] == Closed
    {
      hide Registry.Valid;
      while exists u :: u in loop.table && loop.table[u] == Closing
        invariant Valid() && NoneOpen(loop.table) && loop.closed && items == old(items) && SameWatchers()
        invariant forall u :: u in old(loop.table) ==> u in loop.table
        decreases |InPhase(loop.table, Closing)|
      {
        var u :| u in loop.table && loop.table[u] == Closing;
        Moved(loop.table, u, Closed);
        Deliver(u);
      }
      forall u | u in loop.table ensures loop.table[u] == Closed {
        assert loop.table[u] != Open && loop.table[u] != Closing;
      }
    }

    method MarkClosed()
      requires Valid()
      modifies loop`closed
      ensures Valid() && loop.closed && loop.table == old(loop.table)
    {
      hide Endpoint.Valid, Pollers.Watchers.Valid, Counters.Valid;
      loop.MarkClosed();
      forall i | 0 <= i < |items| ensures ItemOk(items[i]) {
        ItemFramed(items[i]);
      }
      PollsKnown(watchers);
      WatchersFramed(watchers);
    }

    /** With every handle closed, nothing is counted any more. */
    lemma AllRetired()
      requires Valid() && forall u :: u in loop.table ==> loop.table[u] == Closed
      ensures loop.external == 0 && loop.closing == 0
      ensures forall u :: u in loop.table ==> loop.closes[u] == 1 && loop.callbacks[u] == 1
      ensures forall i :: 0 <= i < |items| && items[i].Socket? ==>
        items[i].endpoint.connLost && items[i].endpoint.lost <= 1
    {
      assert InPhase(loop.table, Open) == {} && InPhase(loop.table, Closing) == {};
      forall i | 0 <= i < |items| && items[i].Socket?
        ensures items[i].endpoint.connLost && items[i].endpoint.lost <= 1
      {
        assert ItemOk(items[i]);
      }
    }

    /**
     The shutdown of a loop with any number of sockets, children and watched descriptors. Closing runs through each
     object's own close function, with Python code reacting on the way. What Python code does to other objects, at any
     of these points, and what happens while the loop drains, is arbitrary. Afterwards nothing is counted, and every
     handle was closed once and called back once.
     */
    method Shutdown(plan: Plan)
      requires Valid() && forall fd :: fd in watchers.pollers ==> fd in plan.order
      modifies Frame()
      ensures Valid() && loop.closed && loop.external == 0 && loop.closing == 0
      ensures forall u :: u in loop.table ==> loop.table[u] == Closed && loop.closes[u] == 1 && loop.callbacks[u] == 1
      ensures forall u :: u in old(loop.table) ==> u in loop.table
      ensures forall i :: 0 <= i < |items| && items[i].Socket? ==>
        items[i].endpoint.connLost && items[i].endpoint.lost <= 1
    {
      hide Registry.Valid, Onward;
      MarkClosed();
      Run(plan.first);
      ghost var table := loop.table;
      CloseEverything(plan);
      OnwardTwice(old(loop.table), table, loop.table, true);
      table := loop.table;
      Run(plan.draining);
      OnwardTwice(old(loop.table), table, loop.table, true);
      OnwardKeeps(old(loop.table), loop.table, true);
      StaysClosed(table, loop.table);
      DeliverAll();
      AllRetired();
    }

    method CloseEverything(plan: Plan)
      requires Valid() && loop.closed && forall fd :: fd in Pollers.Watched(watchers.pollers) ==> fd in plan.order
      modifies Frame()
      ensures Valid() && fresh(Frame() - old(Frame())) && loop.closed
      ensures NoneOpen(loop.table) && Onward(old(loop.table), loop.table, true)
    {
      hide Registry.Valid, Onward, Pollers.Watched;
      CloseWatchers(plan.order, plan.finalizers, plan.meanwhile);
      ghost var table := loop.table;
      WalkClose(plan.detaching, plan.between);
      OnwardKeeps(table, loop.table, true);
      OnwardTwice(old(loop.table), table, loop.table, true);
      NothingOpen();
    }
  }

  method CloseEndpoint(endpoint: Endpoint, points: seq<Datagram.Reaction>)
    requires endpoint.Valid() && !endpoint.settling && !endpoint.detaching
    modifies endpoint, endpoint.loop
    ensures endpoint.Valid() && !endpoint.settling && !endpoint.detaching && endpoint.loop.Valid()
    ensures endpoint.loop.closed == old(endpoint.loop.closed)
    ensures endpoint.handle in old(endpoint.loop.table) && endpoint.handle in endpoint.loop.table
    ensures endpoint.loop.table == old(endpoint.loop.table)[endpoint.handle := endpoint.loop.table[endpoint.handle]]
    ensures endpoint.loop.table[endpoint.handle] != Open
  {
    endpoint.CloseFromLoop(points);
  }

  method StepEndpoint(endpoint: Endpoint, step: Datagram.Step)
    requires endpoint.Valid() && !endpoint.settling && !endpoint.detaching
    modifies endpoint, endpoint.loop
    ensures endpoint.Valid() && !endpoint.settling && !endpoint.detaching && endpoint.loop.Valid()
    ensures endpoint.loop.closed == old(endpoint.loop.closed)
    ensures endpoint.handle in old(endpoint.loop.table) && endpoint.handle in endpoint.loop.table
    ensures endpoint.loop.table == old(endpoint.loop.table)[endpoint.handle := endpoint.loop.table[endpoint.handle]]
    ensures old(endpoint.loop.table)[endpoint.handle] != Open ==> endpoint.loop.table[endpoint.handle] != Open
    ensures endpoint.Took(step)
  {
    endpoint.Take(step);
  }

  method CloseProcess(process: Process, fromLoop: bool)
    requires process.Valid()
    modifies process, process.loop
    ensures process.Valid() && process.loop.closed == old(process.loop.closed)
    ensures process.handle in old(process.loop.table) && process.handle in process.loop.table
    ensures process.loop.table == old(process.loop.table)[process.handle := process.loop.table[process.handle]]
    ensures process.loop.table[process.handle] != Open
    ensures old(process.loop.table)[process.handle] != Open ==>
      process.loop.table[process.handle] == old(process.loop.table)[process.handle]
  {
    if fromLoop { process.CloseFromLoop(); } else { process.CloseHandle(); }
  }

  lemma ProcessLoop(process: Process)
    requires process.Valid()
    ensures process.loop.Valid()
  {
  }

  lemma OneMoved(table: map<HandleId, Phase>, h: HandleId, table': map<HandleId, Phase>, closed: bool)
    requires h in table && h in table' && table' == table[h := table'[h]]
    requires table[h] != Open ==> table'[h] != Open
    ensures Onward(table, table', closed)
  {
  }

  /** Handles are never forgotten or reopened, and a closed loop gets no new ones. */
  ghost predicate Onward(table: map<HandleId, Phase>, table': map<HandleId, Phase>, closed: bool) {
    && (forall u :: u in table ==> u in table' && (table[u] != Open ==> table'[u] != Open))
    && (closed ==> forall u :: u in table' ==> u in table)
  }

  ghost predicate NoneOpen(table: map<HandleId, Phase>) {
    forall u :: u in table ==> table[u] != Open
  }

  lemma OnwardKeeps(table: map<HandleId, Phase>, table': map<HandleId, Phase>, closed: bool)
    requires Onward(table, table', closed)
    ensures forall u :: u in table && table[u] != Open ==> u in table' && table'[u] != Open
    ensures forall u :: u in table ==> u in table'
  {
  }

  lemma StaysClosed(table: map<HandleId, Phase>, table': map<HandleId, Phase>)
    requires Onward(table, table', true) && NoneOpen(table)
    ensures NoneOpen(table')
  {
  }

  lemma OnwardSame(table: map<HandleId, Phase>, closed: bool)
    ensures Onward(table, table, closed)
  {
  }

  lemma OnwardTwice(a: map<HandleId, Phase>, b: map<HandleId, Phase>, c: map<HandleId, Phase>, closed: bool)
    requires Onward(a, b, closed) && Onward(b, c, closed)
    ensures Onward(a, c, closed)
  {
  }
}
