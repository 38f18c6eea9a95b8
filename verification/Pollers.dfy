/** Descriptor watchers: one libuv poll per descriptor, with a reader and a writer callback. */
module Pollers {
  import opened Options
  import opened Handles

  datatype Fd = Fd(number: int)
  datatype Side = Read | Write

  const READABLE := 1
  const WRITABLE := 2

  /** A callback handle, in place in a ready queue, a watcher slot, or user code. */
  class Handle {
    var cancelled: bool
    var running: bool
    var argsCleared: bool
    var hasCallback: bool
    ghost var cutoff: nat    // how many callbacks had started when this one was cancelled

    constructor ()
      ensures !cancelled && !running && !argsCleared && hasCallback && cutoff == 0
    {
      cancelled, running, argsCleared, hasCallback, cutoff := false, false, false, true, 0;
    }
  }

  /**
   `events` is the mask cached by the watcher, `polled` the mask libuv was last given, and `closing`
   the flag inside the embedded libuv handle.
   */
  datatype Poller = Poller(
    reader: Option<Handle>, writer: Option<Handle>, events: nat, polled: nat, closing: bool, uv: HandleId)

  function SlotOf(p: Poller, side: Side): Option<Handle> {
    if side == Read then p.reader else p.writer
  }

  function WithSlot(p: Poller, side: Side, h: Option<Handle>): Poller {
    if side == Read then p.(reader := h) else p.(writer := h)
  }

  /** Bit 0 asks for readability, bit 1 for writability. */
  function Mask(p: Poller): (mask: nat)
    ensures mask < 4 && (mask % 2 == 1 <==> p.reader.Some?) && (mask / 2 == 1 <==> p.writer.Some?)
  {
    (if p.reader.Some? then READABLE else 0) + (if p.writer.Some? then WRITABLE else 0)
  }

  /** The poll is started, for all callbacks there are, only if that differs from the cached mask. */
  ghost function Arming(p: Poller, fd: Fd): seq<Arm> {
    if Mask(p) == p.events || Mask(p) == 0 then [] else [Arm(fd, Mask(p))]
  }

  /** Where a handle can be registered. */
  datatype Place = Place(fd: Fd, side: Side)

  ghost function Slot(pollers: map<Fd, Poller>, at: Place): Option<Handle> {
    if at.fd in pollers then SlotOf(pollers[at.fd], at.side) else None
  }

  ghost predicate Registered(pollers: map<Fd, Poller>, h: Handle) {
    exists at :: Slot(pollers, at) == Some(h)
  }

  /** No handle is registered twice. */
  ghost predicate Unique(pollers: map<Fd, Poller>) {
    forall a, b :: Slot(pollers, a).Some? && Slot(pollers, a) == Slot(pollers, b) ==> a == b
  }

  /** The cached mask is that of the callbacks, and not empty. */
  predicate MaskRight(p: Poller) {
    p.events == Mask(p) && p.events != 0
  }

  /** A watcher's cached mask is right if and only if its poll is open, and is then what libuv polls for. */
  ghost predicate Masks(pollers: map<Fd, Poller>) {
    forall fd :: fd in pollers ==>
      && (MaskRight(pollers[fd]) <==> !pollers[fd].closing)
      && (!pollers[fd].closing ==> pollers[fd].polled == pollers[fd].events)
      && (pollers[fd].closing ==> pollers[fd].reader == None && pollers[fd].writer == None)
  }

  /** No watcher has been destroyed. */
  ghost predicate Intact(pollers: map<Fd, Poller>) {
    forall fd :: fd in pollers ==> !pollers[fd].closing
  }

  /** The descriptors whose poll is open. */
  ghost function Watched(pollers: map<Fd, Poller>): set<Fd> {
    set fd | fd in pollers && !pollers[fd].closing
  }

  ghost predicate Mapped(pollers: map<Fd, Poller>, uv: HandleId) {
    exists fd :: fd in pollers && pollers[fd].uv == uv
  }

  /** Every watcher has a poll of its own, closing or open, and no other of these `polls` is open. */
  ghost predicate Polls(pollers: map<Fd, Poller>, polls: set<HandleId>, table: map<HandleId, Phase>) {
    && (forall fd :: fd in pollers ==> pollers[fd].uv in polls && pollers[fd].uv in table)
    && (forall fd :: fd in pollers ==> (table[pollers[fd].uv] == Open <==> !pollers[fd].closing))
    && (forall a, b :: a in pollers && b in pollers && a != b ==> pollers[a].uv != pollers[b].uv)
    && (forall uv :: uv in polls ==> uv in table && (table[uv] == Open ==> Mapped(pollers, uv)))
  }

  /** What the watchers share with the rest of the loop. */
  datatype Shared = Shared(polls: set<HandleId>, table: map<HandleId, Phase>, closed: bool, watched: set<Fd>)

  /** Handles that are not polls are left alone, new handles are polls, and a closed loop watches nothing new. */
  ghost predicate Later(a: Shared, b: Shared) {
    && a.polls <= b.polls && a.closed == b.closed
    && (forall u :: u in a.table && u !in a.polls ==> u in b.table && b.table[u] == a.table[u] && u !in b.polls)
    && (forall u :: u in b.table ==> u in a.table || u in b.polls)
    && (forall u :: u in a.table ==> u in b.table)
    && (forall u :: u in a.table && a.table[u] != Open ==> b.table[u] == a.table[u])
    && (b.closed ==> b.polls == a.polls && forall fd :: fd in b.watched ==> fd in a.watched)
  }

  lemma LaterTwice(a: Shared, b: Shared, c: Shared)
    requires Later(a, b) && Later(b, c)
    ensures Later(a, c)
  {
  }

  lemma LaterWatched(a: Shared, b: Shared)
    requires Later(a, b)
    ensures b.closed == a.closed
    ensures b.closed ==> forall fd :: fd in b.watched ==> fd in a.watched
  {
  }

  lemma LaterSame(a: Shared)
    ensures Later(a, a)
  {
  }

  /** After a handle was cancelled it did not start. */
  ghost predicate NeverAgain(started: seq<Handle>, h: Handle, cutoff: nat) {
    cutoff <= |started| && forall i :: cutoff <= i < |started| ==> started[i] != h
  }

  datatype Call =
    | Add(fd: Fd, side: Side, uv: HandleId, opens: bool)
    | Remove(fd: Fd, side: Side)
    | Soon
    | Cancel(index: nat)

  datatype Nested = Nested(call: Call, inner: seq<Reaction>)
  datatype Reaction = Reaction(calls: seq<Nested>)

  /** How many callbacks these calls queue, not counting what happens inside them. */
  ghost function Soons(calls: seq<Nested>): nat {
    if calls == [] then 0 else Soons(calls[..|calls| - 1]) + if calls[|calls| - 1].call.Soon? then 1 else 0
  }

  ghost function SoonsAt(points: seq<Reaction>, k: nat): nat {
    if k < |points| then Soons(points[k].calls) else 0
  }

  /** A call of `uv_poll_start`. */
  datatype Arm = Arm(fd: Fd, events: nat)

  datatype Step =
    | Calls(reaction: Reaction)
    | Polled(fd: Fd, failed: bool, readable: bool, writable: bool)
    | RunNext(fails: bool, points: seq<Reaction>)

  lemma RemovedSlots(pollers: map<Fd, Poller>, fd: Fd)
    requires Unique(pollers) && Masks(pollers)
    ensures Unique(pollers - {fd}) && Masks(pollers - {fd})
    ensures forall at :: Slot(pollers - {fd}, at) == if at.fd == fd then None else Slot(pollers, at)
  {
    var pollers' := pollers - {fd};
    forall at ensures Slot(pollers', at) == if at.fd == fd then None else Slot(pollers, at) {
    }
    forall a, b | Slot(pollers', a).Some? && Slot(pollers', a) == Slot(pollers', b) ensures a == b {
      assert Slot(pollers, a) == Slot(pollers, b);
    }
  }

  function Fresh(uv: HandleId): Poller {
    Poller(None, None, 0, 0, false, uv)
  }

  /** A slot is set to a handle registered nowhere, or emptied, and the watcher is re-armed. */
  lemma ChangedSlot(pollers: map<Fd, Poller>, at: Place, p: Poller, h: Option<Handle>)
    requires Unique(pollers) && Masks(pollers)
    requires var was := if at.fd in pollers then pollers[at.fd] else Fresh(p.uv);
      p == WithSlot(was, at.side, h).(events := p.events, polled := p.polled)
    requires h.Some? ==> !Registered(pollers, h.value)
    requires p.events == Mask(p) == p.polled && p.events != 0 && !p.closing
    ensures Unique(pollers[at.fd := p]) && Masks(pollers[at.fd := p])
    ensures forall b :: Slot(pollers[at.fd := p], b) == if b == at then h else Slot(pollers, b)
  {
    var pollers' := pollers[at.fd := p];
    forall b ensures Slot(pollers', b) == if b == at then h else Slot(pollers, b) {
    }
    forall a, b | Slot(pollers', a).Some? && Slot(pollers', a) == Slot(pollers', b) ensures a == b {
      assert a != at && b != at ==> Slot(pollers, a) == Slot(pollers, b);
    }
  }

  class Watchers {
    const loop: Counters
    var pollers: map<Fd, Poller>
    var ready: seq<Handle>
    var held: seq<Handle>            // handles user code holds on to
    ghost var repr: set<Handle>
    ghost var started: seq<Handle>   // callbacks started so far, in order
    ghost var polls: set<HandleId>   // the polls ever opened here
    ghost var arms: seq<Arm>         // calls of `uv_poll_start` so far

    ghost predicate Tables()
      reads this`pollers, this`polls, loop
    {
      && loop.Valid() && Unique(pollers) && Masks(pollers) && Polls(pollers, polls, loop.table)
      && (!loop.closed ==> Intact(pollers))
    }

    ghost predicate Slots()
      reads this`pollers, this`repr
    {
      forall at :: Slot(pollers, at).Some? ==> Slot(pollers, at).value in repr
    }

    ghost predicate Queues()
      reads this`ready, this`held, this`started, this`repr
    {
      && (forall h :: h in ready ==> h in repr)
      && (forall h :: h in held ==> h in repr)
      && (forall h :: h in started ==> h in repr)
    }

    /** A callback and its arguments stay in place while they are in use, and as long as it may still run. */
    ghost predicate States()
      reads this`repr, repr`cancelled, repr`running, repr`argsCleared, repr`hasCallback
    {
      forall h :: h in repr && (h.running || !h.cancelled) ==> h.hasCallback && !h.argsCleared
    }

    ghost predicate Starts()
      reads this`repr, this`started, repr`cancelled, repr`cutoff
    {
      forall h :: h in repr && h.cancelled ==> NeverAgain(started, h, h.cutoff)
    }

    ghost predicate Valid()
      reads this, repr, loop
    {
      Tables() && Slots() && Queues() && States() && Starts()
    }

    /** What reentrant code can do: register, remove and cancel, but not start anything. */
    twostate predicate Grew()
      reads this, repr, loop
    {
      && old(repr) <= repr && fresh(repr - old(repr))
      && started == old(started) && old(ready) <= ready && old(held) <= held
      && (forall h :: h in old(repr) ==> h.running == old(h.running))
      && (forall h :: h in repr && h !in old(repr) ==> !h.running)
      && (forall h :: h in old(repr) && old(h.cancelled) ==> h.cancelled && h.cutoff == old(h.cutoff))
      && Later(old(Common()), Common())
    }

    /** Of the handles there were, at most `except` has changed, and only by being cancelled. */
    twostate predicate OnlyCancels(except: Option<Handle>)
      reads this`repr, this`ready, this`held, repr
    {
      && old(repr) <= repr && ready == old(ready) && held == old(held)
      && (forall h :: h in old(repr) && Some(h) != except ==> h.cancelled == old(h.cancelled))
      && (forall h :: h in old(repr) ==>
            h.running == old(h.running) && h.argsCleared == old(h.argsCleared) && h.hasCallback == old(h.hasCallback))
    }

    /** No callback was added, removed or cancelled. */
    twostate predicate Undisturbed()
      reads this`repr, this`pollers, repr`cancelled, loop
    {
      && repr == old(repr) && pollers == old(pollers) && loop.table == old(loop.table)
      && forall h :: h in old(repr) ==> h.cancelled == old(h.cancelled)
    }

    ghost function Common(): Shared
      reads this`polls, this`pollers, loop
    {
      Shared(polls, loop.table, loop.closed, Watched(pollers))
    }

    constructor (loop: Counters)
      requires loop.Valid()
      ensures Valid() && this.loop == loop && pollers == map[] && ready == [] && started == [] && repr == {}
      ensures polls == {} && arms == []
    {
      this.loop, pollers, ready, held, repr, started, polls, arms := loop, map[], [], [], {}, [], {}, [];
    }

    method NewHandle() returns (h: Handle)
      requires Valid()
      modifies this`repr
      ensures Valid() && Grew() && fresh(h) && repr == old(repr) + {h} && !h.cancelled && h !in held && h !in ready
      ensures h !in started
      ensures !Registered(pollers, h)
    {
      LaterSame(Common());
      hide Watchers.Tables, Later;
      h := new Handle();
      repr := repr + {h};
    }

    // ----- registration

    method Get(fd: Fd, uv: HandleId, opens: bool) returns (ok: bool)
      requires loop.Valid() && Polls(pollers, polls, loop.table) && !loop.closed
      modifies this`pollers, this`polls, loop
      ensures loop.Valid() && Polls(pollers, polls, loop.table) && Later(old(Common()), Common())
      ensures ok <==> fd in old(pollers) || (opens && uv !in old(loop.table))
      ensures pollers == if ok && fd !in old(pollers) then old(pollers)[fd := Fresh(uv)] else old(pollers)
    {
      hide Counters.Valid, Polls, Later;
      LaterSame(Common());
      if fd in pollers { return true; }
      if !opens || uv in loop.table { return false; }
      PollOpened(pollers, polls, loop.table, fd, uv);
      loop.Opened(uv);
      polls := polls + {uv};
      pollers := pollers[fd := Fresh(uv)];
      return true;
    }

    method Rearm(fd: Fd)
      requires fd in pollers && loop.Valid() && Polls(pollers, polls, loop.table) && !pollers[fd].closing
      modifies this`pollers, this`arms, loop
      ensures loop.Valid() && Polls(pollers, polls, loop.table) && arms == old(arms) + Arming(old(pollers)[fd], fd)
      ensures pollers == Rearmed(old(pollers), fd) && Later(old(Common()), Common())
      ensures loop.table == if fd in pollers then old(loop.table) else old(loop.table)[old(pollers)[fd].uv := Closing]
    {
      var p := pollers[fd];
      assert p.uv in loop.table && loop.table[p.uv] == Open;
      hide Counters.Valid, Polls, Later, Watched;
      LaterSame(Common());
      var events := Mask(p);
      if events == p.events { return; }
      pollers := pollers[fd := p.(events := events)];
      assert pollers - {fd} == old(pollers) - {fd};
      RewiredPolls(old(pollers), polls, fd, pollers[fd], loop.table);
      WatchedSame(old(pollers), fd, pollers[fd]);
      if events == 0 {
        Unwatch(fd);
        return;
      }
      pollers := pollers[fd := p.(events := events, polled := events)];
      arms := arms + [Arm(fd, events)];
      assert pollers == old(pollers)[fd := pollers[fd]];
      RewiredPolls(old(pollers), polls, fd, pollers[fd], loop.table);
      WatchedSame(old(pollers), fd, pollers[fd]);
    }

    /** Unmaps a watcher without callbacks and closes its poll. */
    method Unwatch(fd: Fd)
      requires fd in pollers && loop.Valid() && Polls(pollers, polls, loop.table) && !pollers[fd].closing
      modifies this`pollers, loop
      ensures loop.Valid() && Polls(pollers, polls, loop.table) && Later(old(Common()), Common())
      ensures pollers == old(pollers) - {fd} && loop.table == old(loop.table)[old(pollers)[fd].uv := Closing]
    {
      var uv := pollers[fd].uv;
      assert uv in loop.table && loop.table[uv] == Open;
      hide Counters.Valid, Polls, Later, Watched;
      PollClosed(pollers, polls, loop.table, fd, loop.closed);
      pollers := pollers - {fd};
      loop.CloseExternal(uv);
    }

    /** A removed or superseded handle is only flagged; it may be in the ready queue. */
    method Supersede(h: Handle)
      requires h in repr && States() && Starts()
      modifies h`cancelled, h`cutoff
      ensures States() && Starts() && h.cancelled
      ensures h.cutoff == if old(h.cancelled) then old(h.cutoff) else |started|
    {
      if !h.cancelled {
        h.cancelled := true;
        h.cutoff := |started|;
      }
    }

    /** Changes a slot, flags the handle it held and re-arms; `before` are the watchers a moment ago. */
    method Rewire(fd: Fd, side: Side, h: Option<Handle>, ghost before: map<Fd, Poller>) returns (was: Option<Handle>)
      requires loop.Valid() && Polls(pollers, polls, loop.table) && Unique(before) && Masks(before)
      requires Rewirable(before, pollers, fd, h)
      requires !loop.closed ==> Intact(before)
      requires Slot(before, Place(fd, side)).Some? ==> Slot(before, Place(fd, side)).value in repr
      requires States() && Starts()
      modifies this`pollers, this`arms, loop, repr`cancelled, repr`cutoff
      ensures arms == old(arms) + Arming(WithSlot(old(pollers)[fd], side, h), fd)
      ensures Tables() && States() && Starts() && was == Slot(before, Place(fd, side))
      ensures Later(old(Common()), Common())
      ensures forall at :: Slot(pollers, at) == if at == Place(fd, side) then h else Slot(before, at)
      ensures was.Some? ==> was.value.cancelled
      ensures forall k :: k in repr && (old(k.cancelled) || Some(k) != was) ==>
        k.cancelled == old(k.cancelled) && k.cutoff == old(k.cutoff)
      ensures forall k :: k in repr && !old(k.cancelled) && Some(k) == was ==> k.cutoff == |started|
    {
      hide Counters.Valid, Polls, Masks, Unique, Intact, Watched, Later, Watchers.States, Watchers.Starts;
      was := SlotOf(pollers[fd], side);
      assert was == Slot(before, Place(fd, side));
      RewiredMask(before, pollers, fd, side, h);
      RewiredPolls(pollers, polls, fd, WithSlot(pollers[fd], side, h), loop.table);
      WatchedSame(pollers, fd, WithSlot(pollers[fd], side, h));
      pollers := pollers[fd := WithSlot(pollers[fd], side, h)];
      if was.Some? {
        Supersede(was.value);
      }
      Rearm(fd);
      LaterWatched(old(Common()), Common());
    }

    /** The part of `add` before the superseded handle is released. */
    method Register(fd: Fd, side: Side, uv: HandleId, opens: bool, h: Handle)
      returns (ok: bool, superseded: Option<Handle>)
      requires Valid() && !loop.closed && h in repr && !Registered(pollers, h)
      modifies this`pollers, this`polls, this`arms, loop, repr`cancelled, repr`cutoff
      ensures Valid() && Grew()
      ensures ok <==> fd in old(pollers) || (opens && uv !in old(loop.table))
      ensures !ok ==> pollers == old(pollers) && superseded == None
      ensures ok ==> superseded == Slot(old(pollers), Place(fd, side)) && Slot(pollers, Place(fd, side)) == Some(h)
      ensures forall at :: at != Place(fd, side) ==> Slot(pollers, at) == Slot(old(pollers), at)
      ensures superseded.Some? ==> superseded.value in repr && superseded.value.cancelled
      ensures OnlyCancels(superseded) && superseded != Some(h)
    {
      hide Counters.Valid, Polls, Masks, Later, Watchers.States, Watchers.Starts;
      ghost var before, common := pollers, Common();
      ok := Get(fd, uv, opens);
      if !ok { return false, None; }
      ghost var between := Common();
      superseded := Rewire(fd, side, Some(h), before);
      LaterTwice(common, between, Common());
    }

    /** The part of `remove` before the handle is released. */
    method Unregister(fd: Fd, side: Side) returns (h: Option<Handle>)
      requires Valid()
      modifies this`pollers, this`arms, loop, repr`cancelled, repr`cutoff
      ensures Valid() && Grew()
      ensures h == Slot(old(pollers), Place(fd, side)) && Slot(pollers, Place(fd, side)) == None
      ensures forall at :: at != Place(fd, side) ==> Slot(pollers, at) == Slot(old(pollers), at)
      ensures h.Some? ==> h.value in repr && h.value.cancelled
      ensures OnlyCancels(h)
    {
      hide Counters.Valid, Polls, Masks, Unique, Later, Watchers.States, Watchers.Starts;
      LaterSame(Common());
      if fd !in pollers { return None; }
      if SlotOf(pollers[fd], side) == None { return None; }
      assert !pollers[fd].closing by { SlotIsOpen(pollers, fd, side); }
      h := Rewire(fd, side, None, pollers);
    }

    /** `add_reader` and `add_writer`; `points` is what finalizers do once a handle is released. */
    method DoAdd(fd: Fd, side: Side, uv: HandleId, opens: bool, points: seq<Reaction>)
      returns (ok: bool, h: Option<Handle>)
      requires Valid()
      modifies this, repr, loop
      ensures Valid() && Grew()
      ensures ok <==> !old(loop.closed) && (fd in old(pollers) || (opens && uv !in old(loop.table)))
      ensures ok ==> h.Some?
      ensures ok && Slot(old(pollers), Place(fd, side)).Some? ==> Slot(old(pollers), Place(fd, side)).value in old(repr)
      ensures ok && Slot(old(pollers), Place(fd, side)).Some? ==> Slot(old(pollers), Place(fd, side)).value.cancelled
      ensures points == [] ==>
        forall at :: Slot(pollers, at) == if ok && at == Place(fd, side) then h else Slot(old(pollers), at)
      ensures ok ==> fresh(h.value) && h.value in repr
      ensures points == [] && ok ==> !h.value.cancelled
      ensures points == [] ==> OnlyCancels(if ok then Slot(old(pollers), Place(fd, side)) else None)
      ensures !old(loop.closed) && (!ok || Slot(old(pollers), Place(fd, side)).Some?) ==>
        |ready| >= |old(ready)| + SoonsAt(points, 0)
      decreases points, 1
    {
      hide Watchers.Valid, Later, Watched;
      LaterSame(Common());
      if loop.closed { return false, None; }
      ghost var common := Common();
      var handle, superseded;
      ok, handle, superseded := Enroll(fd, side, uv, opens);
      ghost var registered := Common();
      if points != [] && (!ok || superseded.Some?) {
        React(points[0]);
        LaterTwice(common, registered, Common());
      }
      return ok, Some(handle);
    }

    /** Makes a handle and registers it. */
    method Enroll(fd: Fd, side: Side, uv: HandleId, opens: bool)
      returns (ok: bool, h: Handle, superseded: Option<Handle>)
      requires Valid() && !loop.closed
      modifies this, repr`cancelled, repr`cutoff, loop
      ensures Valid() && Grew()
      ensures ok <==> fd in old(pollers) || (opens && uv !in old(loop.table))
      ensures superseded == if ok then Slot(old(pollers), Place(fd, side)) else None
      ensures superseded.Some? ==> superseded.value in old(repr) && superseded.value.cancelled
      ensures forall at :: Slot(pollers, at) == if ok && at == Place(fd, side) then Some(h) else Slot(old(pollers), at)
      ensures fresh(h) && h in repr && !h.cancelled && OnlyCancels(superseded)
    {
      hide Watchers.Tables, Watchers.Queues, Watchers.States, Watchers.Starts, Later, Watched;
      ghost var common := Common();
      assert Slot(pollers, Place(fd, side)).Some? ==> Slot(pollers, Place(fd, side)).value in repr;
      h := NewHandle();
      ghost var made := Common();
      ok, superseded := Register(fd, side, uv, opens, h);
      LaterTwice(common, made, Common());
    }

    method DoRemove(fd: Fd, side: Side, points: seq<Reaction>) returns (removed: bool)
      requires Valid()
      modifies this, repr, loop
      ensures Valid() && Grew()
      ensures removed <==> Slot(old(pollers), Place(fd, side)).Some?
      ensures removed ==> Slot(old(pollers), Place(fd, side)).value in old(repr)
      ensures removed ==> Slot(old(pollers), Place(fd, side)).value.cancelled
      ensures points == [] ==>
        forall at :: Slot(pollers, at) == if at == Place(fd, side) then None else Slot(old(pollers), at)
      ensures points == [] ==> OnlyCancels(Slot(old(pollers), Place(fd, side)))
      ensures removed ==> |ready| >= |old(ready)| + SoonsAt(points, 0)
      decreases points, 1
    {
      hide Watchers.Tables, Watchers.Queues, Watchers.States, Watchers.Starts, Later;
      ghost var common := Common();
      var h := Unregister(fd, side);
      ghost var removing := Common();
      if h.Some? && points != [] {
        React(points[0]);
        LaterTwice(common, removing, Common());
      }
      return h.Some?;
    }

    /** A new callback was queued, behind all others; whoever did so holds its handle. */
    twostate predicate Queued()
      reads this`ready, this`held, this`repr, repr
    {
      && |ready| == |old(ready)| + 1 && old(ready) <= ready && held == old(held) + [ready[|old(ready)|]]
      && ready[|old(ready)|] in repr && fresh(ready[|old(ready)|]) && !ready[|old(ready)|].cancelled
    }

    /** `call_soon`. */
    method DoSoon()
      requires Valid()
      modifies this`repr, this`ready, this`held
      ensures Valid() && Grew() && Queued()
    {
      hide Watchers.Tables, Watchers.States, Watchers.Starts, Later;
      LaterSame(Common());
      var h := NewHandle();
      ready := ready + [h];
      held := held + [h];
    }

    /** `Handle.cancel`: what a running callback borrows is released only when it returns. */
    method DoCancel(h: Handle, points: seq<Reaction>)
      requires Valid() && h in held
      modifies this, repr, loop
      ensures Valid() && Grew() && h in repr && h.cancelled
      ensures points == [] ==> pollers == old(pollers) && Released(h)
      ensures !old(h.cancelled) ==> |ready| >= |old(ready)| + SoonsAt(points, 0)
      decreases points, 1
    {
      assert h in repr;
      hide Watchers.Valid, Later;
      LaterSame(Common());
      if h.cancelled { return; }
      FlagCancelled(h);
      if points != [] { React(points[0]); }
    }

    /** A handle was cancelled, once, and releases what nothing is using; no other handle has changed. */
    twostate predicate Released(h: Handle)
      reads this`repr, this`ready, this`held, repr
    {
      && h in repr && repr == old(repr) && ready == old(ready) && held == old(held)
      && (forall k :: k in repr && k != h ==>
            k.cancelled == old(k.cancelled) && k.running == old(k.running) &&
            k.argsCleared == old(k.argsCleared) && k.hasCallback == old(k.hasCallback))
      && h.cancelled && h.running == old(h.running)
      && (!old(h.cancelled) ==> h.argsCleared == !h.running && h.hasCallback == h.running)
      && (old(h.cancelled) ==> h.argsCleared == old(h.argsCleared) && h.hasCallback == old(h.hasCallback))
    }

    method FlagCancelled(h: Handle)
      requires Valid() && h in held && !h.cancelled
      modifies h`cancelled, h`cutoff, h`argsCleared, h`hasCallback
      ensures Valid() && Grew() && h in repr && h.cancelled && h.cutoff == |started|
      ensures h.argsCleared == !h.running && h.hasCallback == h.running
      ensures Released(h)
    {
      hide Watchers.Tables, Later;
      LaterSame(Common());
      Supersede(h);
      if !h.running {
        h.argsCleared := true;
        h.hasCallback := false;
      }
    }

    /** What a call leaves behind; a call that nothing re-enters leaves nothing else. */
    twostate predicate Did(call: Call, points: seq<Reaction>)
      reads this, repr, loop
    {
      match call
      case Add(fd, side, uv, opens) =>
        var at := Place(fd, side);
        !old(loop.closed) && (fd in old(pollers) || (opens && uv !in old(loop.table))) ==>
          && SeenOff(Slot(old(pollers), at))
          && (points == [] ==>
                && Slot(pollers, at).Some? && Slot(pollers, at).value in repr
                && fresh(Slot(pollers, at).value) && !Slot(pollers, at).value.cancelled)
      case Remove(fd, side) =>
        var at := Place(fd, side);
        SeenOff(Slot(old(pollers), at)) && (points == [] ==> Slot(pollers, at) == None)
      case Soon => Queued()
      case Cancel(index) =>
        old(held) != [] ==>
          && SeenOff(Some(old(held)[index % |old(held)|]))
          && (points == [] ==> pollers == old(pollers) && Released(old(held)[index % |old(held)|]))
    }

    /** What the call takes away is cancelled, for good. */
    twostate predicate Cancels(call: Call)
      reads this`repr, repr
    {
      match call
      case Add(fd, side, uv, opens) =>
        !old(loop.closed) && (fd in old(pollers) || (opens && uv !in old(loop.table))) ==>
          SeenOff(Slot(old(pollers), Place(fd, side)))
      case Remove(fd, side) => SeenOff(Slot(old(pollers), Place(fd, side)))
      case Soon => true
      case Cancel(index) => old(held) != [] ==> SeenOff(Some(old(held)[index % |old(held)|]))
    }

    ghost predicate SeenOff(h: Option<Handle>)
      reads this`repr, repr
    {
      h.Some? ==> h.value in repr && h.value.cancelled
    }

    method React(reaction: Reaction)
      requires Valid()
      modifies this, repr, loop
      ensures Valid() && Grew()
      ensures |reaction.calls| == 1 ==> Did(reaction.calls[0].call, reaction.calls[0].inner)
      ensures |ready| >= |old(ready)| + Soons(reaction.calls)
      decreases reaction
    {
      hide Watchers.Valid, Later;
      LaterSame(Common());
      if reaction.calls == [] { return; }
      Do(reaction.calls[0].call, reaction.calls[0].inner);
      FirstSoon(reaction.calls);
      var i := 1;
      while i < |reaction.calls|
        invariant Valid() && Grew() && 1 <= i <= |reaction.calls|
        invariant i == 1 ==> Did(reaction.calls[0].call, reaction.calls[0].inner)
        invariant |ready| >= |old(ready)| + Soons(reaction.calls[..i])
      {
        ghost var common := Common();
        Do(reaction.calls[i].call, reaction.calls[i].inner);
        LaterTwice(old(Common()), common, Common());
        OneMoreSoon(reaction.calls, i);
        i := i + 1;
      }
      assert reaction.calls[..i] == reaction.calls;
    }

    /** The reaction at one of several points, if there is one. */
    method ReactAt(points: seq<Reaction>, k: nat)
      requires Valid()
      modifies this, repr, loop
      ensures Valid() && Grew() && (points == [] ==> ready == old(ready) && pollers == old(pollers))
      ensures k >= |points| ==> OnlyCancels(None) && Undisturbed()
      ensures |ready| >= |old(ready)| + SoonsAt(points, k)
      ensures k < |points| && |points[k].calls| == 1 ==> Did(points[k].calls[0].call, points[k].calls[0].inner)
    {
      hide Watchers.Valid, Later;
      LaterSame(Common());
      if k < |points| { React(points[k]); }
    }

    method Do(call: Call, points: seq<Reaction>)
      requires Valid()
      modifies this, repr, loop
      ensures Valid() && Grew() && Did(call, points)
      decreases points, 2
    {
      hide Watchers.Valid, Later;
      LaterSame(Common());
      match call {
        case Add(fd, side, uv, opens) => var ok, h := DoAdd(fd, side, uv, opens, points);
        case Remove(fd, side) => var removed := DoRemove(fd, side, points);
        case Soon => DoSoon();
        case Cancel(index) =>
          if |held| > 0 { DoCancel(held[index % |held|], points); }
      }
    }

    // ----- the loop closes

    /** Empties a watcher's slots and closes its poll. */
    method Spend(fd: Fd) returns (reader: Option<Handle>, writer: Option<Handle>)
      requires Tables() && Slots() && fd in pollers && !pollers[fd].closing && loop.closed
      modifies this`pollers, loop
      ensures Tables() && Slots() && pollers == old(pollers)[fd := Spent(old(pollers)[fd])]
      ensures Later(old(Common()), Common())
      ensures reader == old(pollers)[fd].reader && writer == old(pollers)[fd].writer
      ensures (reader.Some? ==> reader.value in repr) && (writer.Some? ==> writer.value in repr)
    {
      var p := pollers[fd];
      reader, writer := p.reader, p.writer;
      assert reader == Slot(pollers, Place(fd, Read)) && writer == Slot(pollers, Place(fd, Write));
      assert p.uv in loop.table && loop.table[p.uv] == Open;
      hide Counters.Valid, Polls, Masks, Unique, Later;
      SpentSlots(pollers, fd);
      PollSpent(pollers, polls, loop.table, fd, loop.closed);
      pollers := pollers[fd := Spent(p)];
      loop.CloseExternal(p.uv);
    }

    /** Flags a handle taken out of its slot, then releases it. */
    method LetGo(h: Option<Handle>, points: seq<Reaction>, k: nat)
      requires Valid() && (h.Some? ==> h.value in repr)
      modifies this, repr, loop
      ensures Valid() && Grew() && (h.Some? ==> h.value.cancelled)
      ensures k >= |points| ==> OnlyCancels(h)
      ensures h.Some? ==> |ready| >= |old(ready)| + SoonsAt(points, k)
    {
      hide Watchers.Tables, Watchers.Slots, Watchers.Queues, Watchers.States, Watchers.Starts, Later;
      LaterSame(Common());
      if h == None { return; }
      Supersede(h.value);
      ReactAt(points, k);
    }

    /** `destroy`: the reader is flagged and released, and only then the writer; the watcher stays mapped. */
    method Destroy(fd: Fd, points: seq<Reaction>)
      requires Valid() && fd in pollers && !pollers[fd].closing && loop.closed
      modifies this, repr, loop
      ensures Valid() && Grew() && fd !in Watched(pollers)
      ensures old(pollers)[fd].reader.Some? ==> old(pollers)[fd].reader.value in old(repr)
      ensures old(pollers)[fd].writer.Some? ==> old(pollers)[fd].writer.value in old(repr)
      ensures old(pollers)[fd].reader.Some? ==> old(pollers)[fd].reader.value.cancelled
      ensures old(pollers)[fd].writer.Some? ==> old(pollers)[fd].writer.value.cancelled
      ensures |ready| >= |old(ready)| + (if old(pollers)[fd].reader.Some? then SoonsAt(points, 0) else 0)
        + if old(pollers)[fd].writer.Some? then SoonsAt(points, 1) else 0
      ensures points == [] ==> ready == old(ready) && forall h :: h in old(repr) ==>
        Some(h) != old(pollers)[fd].reader && Some(h) != old(pollers)[fd].writer ==> h.cancelled == old(h.cancelled)
    {
      hide Watchers.Tables, Watchers.Slots, Watchers.Queues, Watchers.States, Watchers.Starts, Later;
      ghost var common := Common();
      var reader, writer := Spend(fd);
      ghost var spent := Common();
      LetGo(reader, points, 0);
      ghost var between := Common();
      LetGo(writer, points, 1);
      LaterTwice(spent, between, Common());
      LaterTwice(common, spent, Common());
      LaterWatched(spent, Common());
    }

    /** `closeAll`: every watcher is destroyed, whatever the finalizers of its callbacks do; then the map is dropped. */
    method CloseAll(order: seq<Fd>, script: seq<seq<Reaction>>)
      requires Valid() && loop.closed && forall fd :: fd in pollers ==> fd in order
      modifies this, repr, loop
      ensures Valid() && Grew() && pollers == map[]
      ensures forall uv :: uv in polls ==> uv in loop.table && loop.table[uv] != Open
    {
      hide Watchers.Valid, Later;
      DestroyAll(order, script);
      ghost var common := Common();
      DropMap();
      LaterTwice(old(Common()), common, Common());
    }

    /** With no poll left open, the map can be dropped. */
    method DropMap()
      requires Valid() && loop.closed && Watched(pollers) == {}
      modifies this`pollers
      ensures Valid() && Grew() && pollers == map[]
      ensures forall uv :: uv in polls ==> uv in loop.table && loop.table[uv] != Open
    {
      NoneWatched(pollers, polls, loop.table);
      pollers := map[];
      assert Watched(pollers) == {};
    }

    method DestroyAll(order: seq<Fd>, script: seq<seq<Reaction>>)
      requires Valid() && loop.closed && forall fd :: fd in Watched(pollers) ==> fd in order
      modifies this, repr, loop
      ensures Valid() && Grew() && loop.closed && Watched(pollers) == {}
    {
      hide Watchers.Valid, Later, Watched;
      LaterSame(Common());
      for i := 0 to |order|
        invariant Valid() && Grew() && loop.closed
        invariant forall fd :: fd in Watched(pollers) ==> fd in order[i..]
      {
        ghost var common := Common();
        assert order[i..] == [order[i]] + order[i + 1..];
        DestroyNext(order[i], if i < |script| then script[i] else []);
        LaterWatched(common, Common());
        LaterTwice(old(Common()), common, Common());
      }
    }

    /** Destroys the watcher of a descriptor, if it is still there. */
    method DestroyNext(fd: Fd, points: seq<Reaction>)
      requires Valid() && loop.closed
      modifies this, repr, loop
      ensures Valid() && Grew() && fd !in Watched(pollers)
    {
      hide Watchers.Valid, Later;
      LaterSame(Common());
      if fd in pollers && !pollers[fd].closing {
        Destroy(fd, points);
      }
    }

    /** A mapped watcher's cached mask is right exactly while its poll is open, so always on an open loop. */
    lemma MasksRight()
      requires Valid()
      ensures forall fd :: fd in pollers ==>
        && pollers[fd].uv in loop.table
        && (MaskRight(pollers[fd]) <==> loop.table[pollers[fd].uv] == Open)
      ensures !loop.closed ==> forall fd :: fd in pollers ==> MaskRight(pollers[fd])
    {
    }

    // ----- polling and running

    /** A handle that is there and not cancelled. */
    ghost function Runnable(h: Option<Handle>): seq<Handle>
      reads if h.Some? then {h.value} else {}
    {
      if h.Some? && !h.value.cancelled then [h.value] else []
    }

    method Schedule(h: Option<Handle>)
      requires Valid() && (h.Some? ==> h.value in repr)
      modifies this`ready
      ensures Valid() && ready == old(ready) + Runnable(h)
    {
      hide Watchers.Tables, Watchers.States, Watchers.Starts, Watchers.Slots;
      if h == None || h.value.cancelled { return; }
      ready := ready + [h.value];
    }

    /** libuv reports events on a watched descriptor, or an error, which wakes both sides. */
    method OnPoll(fd: Fd, failed: bool, readable: bool, writable: bool)
      requires Valid() && fd in pollers && !pollers[fd].closing
      modifies this`ready, this`pollers, this`arms, loop
      ensures Valid() && pollers == old(pollers) && loop.table == old(loop.table) && loop.closed == old(loop.closed)
      ensures arms == old(arms) + if failed then [Arm(fd, Mask(pollers[fd]))] else []
      ensures ready == old(ready)
        + (if failed || readable then Runnable(pollers[fd].reader) else [])
        + (if failed || writable then Runnable(pollers[fd].writer) else [])
    {
      hide Watchers.Queues, Watchers.States, Watchers.Starts, Watchers.Tables;
      assert pollers[fd].reader == Slot(pollers, Place(fd, Read));
      assert pollers[fd].writer == Slot(pollers, Place(fd, Write));
      if failed || readable { Schedule(pollers[fd].reader); }
      if failed || writable { Schedule(pollers[fd].writer); }
      if failed {
        Restart(fd);
      }
    }

    /** A callback that has just been added is scheduled by the next poll that reports its side, and no other is. */
    method AddThenPoll(fd: Fd, side: Side, uv: HandleId, opens: bool) returns (ok: bool, h: Option<Handle>)
      requires Valid()
      modifies this, repr, loop
      ensures Valid() && (ok <==> !old(loop.closed) && (fd in old(pollers) || (opens && uv !in old(loop.table))))
      ensures ok ==> h.Some? && fresh(h.value) && !h.value.cancelled && ready == old(ready) + [h.value]
      ensures !ok ==> ready == old(ready)
    {
      hide Watchers.Valid, Watchers.Grew, Later, Watched, Slot;
      ok, h := DoAdd(fd, side, uv, opens, []);
      if ok {
        AddedIsOpen(fd, side);
        OnPoll(fd, false, side == Read, side == Write);
      }
    }

    lemma AddedIsOpen(fd: Fd, side: Side)
      requires Valid() && Slot(pollers, Place(fd, side)).Some?
      ensures fd in pollers && !pollers[fd].closing
      ensures (if side == Read then pollers[fd].reader else pollers[fd].writer) == Slot(pollers, Place(fd, side))
    {
      SlotIsOpen(pollers, fd, side);
    }

    /** libuv has stopped the poll, so the cached mask is forgotten and the poll started again. */
    method Restart(fd: Fd)
      requires Tables() && fd in pollers && !pollers[fd].closing
      modifies this`pollers, this`arms, loop
      ensures arms == old(arms) + [Arm(fd, Mask(old(pollers)[fd]))]
      ensures Tables() && pollers == old(pollers) && loop.table == old(loop.table) && loop.closed == old(loop.closed)
    {
      hide Counters.Valid, Unique, Polls;
      ghost var before := pollers;
      RewiredPolls(pollers, polls, fd, pollers[fd].(events := 0, polled := 0), loop.table);
      pollers := pollers[fd := pollers[fd].(events := 0, polled := 0)];
      Rearm(fd);
      assert pollers == before;
    }

    /** Nothing is running. */
    ghost predicate Quiet()
      reads this`repr, repr`running
    {
      forall h :: h in repr ==> !h.running
    }

    /** The callback starts, unless its handle was cancelled. */
    method Start(h: Handle)
      requires Valid() && h in repr && !h.cancelled
      modifies this`started, h`running
      ensures Valid() && h.running && started == old(started) + [h]
    {
      hide Watchers.Tables;
      h.running := true;
      started := started + [h];
    }

    method Finish(h: Handle)
      requires Valid() && h in repr
      modifies h`running, h`argsCleared, h`hasCallback
      ensures Valid() && !h.running && (h.cancelled ==> h.argsCleared && !h.hasCallback)
    {
      hide Watchers.Tables;
      h.running := false;
      if h.cancelled {
        h.argsCleared := true;
        h.hasCallback := false;
      }
    }

    /** Runs the next callback of the ready queue: `points` is what it does, then what the exception handler does
        with the handle of a callback that fails, then what finalizers do. */
    method RunNext(fails: bool, points: seq<Reaction>)
      requires Valid() && Quiet() && ready != []
      modifies this, repr, loop
      ensures Valid() && Quiet() && Kept()
      ensures started == old(started) + (if old(ready[0].cancelled) then [] else [old(ready[0])])
      ensures old(ready)[1..] <= ready && (points == [] ==> ready == old(ready)[1..] && pollers == old(pollers))
      ensures !old(ready[0].cancelled) && points != [] && |points[0].calls| == 1 ==> Cancels(points[0].calls[0].call)
      ensures |ready| >= |old(ready)| - 1 + SoonsAt(points, 2) +
        if old(ready[0].cancelled) then 0 else SoonsAt(points, 0) + if fails then SoonsAt(points, 1) else 0
      ensures fails && !old(ready[0].cancelled) ==> old(ready[0]) in held
      ensures points == [] ==> Undisturbed()
    {
      hide Watchers.Valid, Watchers.Common, Slot, Later;
      var h := TakeReady();
      if !h.cancelled {
        Invoke(h, fails, points);
      }
      ghost var common := Common();
      ReactAt(points, 2);
      LaterTwice(old(Common()), common, Common());
    }

    /** The callback starts, and does what it does. */
    method StartAndReact(h: Handle, points: seq<Reaction>)
      requires Valid() && h in repr && !h.cancelled
      modifies this, repr, loop
      ensures Valid() && h in repr && h.running && Kept() && started == old(started) + [h]
      ensures forall k :: k in repr && k != h && k in old(repr) ==> k.running == old(k.running)
      ensures forall k :: k in repr && k !in old(repr) ==> !k.running
      ensures old(ready) <= ready && (points == [] ==> ready == old(ready) && pollers == old(pollers))
      ensures points != [] && |points[0].calls| == 1 ==> Cancels(points[0].calls[0].call)
      ensures |ready| >= |old(ready)| + SoonsAt(points, 0) && old(held) <= held
      ensures points == [] ==> held == old(held) && Undisturbed()
    {
      hide Watchers.Valid, Later;
      Start(h);
      ReactAt(points, 0);
    }

    /** Starts a callback and sees it through. */
    method Invoke(h: Handle, fails: bool, points: seq<Reaction>)
      requires Valid() && Quiet() && h in repr && !h.cancelled
      modifies this, repr, loop
      ensures Valid() && Quiet() && Kept()
      ensures started == old(started) + [h]
      ensures old(ready) <= ready && (points == [] ==> ready == old(ready) && pollers == old(pollers))
      ensures points != [] && |points[0].calls| == 1 ==> Cancels(points[0].calls[0].call)
      ensures |ready| >= |old(ready)| + SoonsAt(points, 0) + if fails then SoonsAt(points, 1) else 0
      ensures (fails ==> h in held) && (!fails && points == [] ==> held == old(held))
      ensures points == [] ==> Undisturbed()
    {
      hide Watchers.Valid, Watchers.Common, Slot, Later;
      StartAndReact(h, points);
      ghost var common := Common();
      if fails {
        Complain(h, points);
        LaterTwice(old(Common()), common, Common());
      }
      Finish(h);
    }

    /** The exception handler gets the handle of a callback that failed. */
    method Complain(h: Handle, points: seq<Reaction>)
      requires Valid() && h in repr
      modifies this, repr, loop
      ensures Valid() && Grew() && h in held && |ready| >= |old(ready)| + SoonsAt(points, 1)
      ensures points == [] ==> ready == old(ready) && Undisturbed()
    {
      hide Watchers.Valid, Later, Slot;
      Expose(h);
      ghost var at := |held| - 1;
      ReactAt(points, 1);
      assert held[at] == h;
    }

    /**
     What every turn keeps: handles are only added, cancellation sticks, and handles that are not polls are left
     alone.
     */
    twostate predicate Kept()
      reads this, repr, loop
    {
      && old(repr) <= repr && fresh(repr - old(repr)) && old(started) <= started
      && (forall h :: h in old(repr) && old(h.cancelled) ==> h.cancelled && h.cutoff == old(h.cutoff))
      && Later(old(Common()), Common())
    }

    /** The exception handler receives the handle, so user code can hold on to it and cancel it. */
    method Expose(h: Handle)
      requires Valid() && h in repr
      modifies this`held
      ensures Valid() && held == old(held) + [h]
    {
      hide Watchers.Tables, Watchers.States, Watchers.Starts;
      held := held + [h];
    }

    method TakeReady() returns (h: Handle)
      requires Valid() && ready != []
      modifies this`ready
      ensures Valid() && h == old(ready)[0] && h in repr && ready == old(ready)[1..]
    {
      hide Watchers.Tables, Watchers.Slots, Watchers.States, Watchers.Starts;
      h := ready[0];
      ready := ready[1..];
    }

    // ----- whole runs

    /** What a step does, whatever user code does meanwhile. */
    twostate predicate Took(step: Step)
      reads this, repr, loop
    {
      match step
      case Calls(reaction) => |reaction.calls| == 1 ==> Did(reaction.calls[0].call, reaction.calls[0].inner)
      case Polled(fd, failed, readable, writable) =>
        fd in old(pollers) && !old(pollers)[fd].closing ==>
          ready == old(ready)
            + (if failed || readable then old(Runnable(pollers[fd].reader)) else [])
            + (if failed || writable then old(Runnable(pollers[fd].writer)) else [])
      case RunNext(_, _) =>
        old(ready) != [] ==>
          && started == old(started) + (if old(ready[0].cancelled) then [] else [old(ready[0])])
          && old(ready)[1..] <= ready
    }

    method Take(step: Step)
      requires Valid() && Quiet()
      modifies this, repr, loop
      ensures Valid() && Quiet() && Kept() && Took(step)
    {
      hide Watchers.Valid, Later;
      LaterSame(Common());
      match step
      case Calls(reaction) => React(reaction);
      case Polled(fd, failed, readable, writable) =>
        if fd in pollers && !pollers[fd].closing { OnPoll(fd, failed, readable, writable); }
      case RunNext(fails, points) =>
        if ready != [] { RunNext(fails, points); }
    }

    /** Over every run, a callback that was removed, superseded or cancelled does not start again. */
    method Run(steps: seq<Step>)
      requires Valid() && Quiet()
      modifies this, repr, loop
      ensures Valid() && Quiet() && Kept()
      ensures forall h :: h in old(repr) && old(h.cancelled) ==> h !in started[|old(started)|..]
    {
      ghost var began := |started|;
      RunSteps(steps);
      forall h | h in old(repr) && old(h.cancelled) ensures h !in started[began..] {
        assert NeverAgain(started, h, h.cutoff);
      }
    }

    method RunSteps(steps: seq<Step>)
      requires Valid() && Quiet()
      modifies this, repr, loop
      ensures Valid() && Quiet() && Kept()
    {
      hide Watchers.Valid, Later;
      LaterSame(Common());
      var i := 0;
      while i < |steps|
        invariant Valid() && Quiet() && Kept()
      {
        ghost var common := Common();
        Take(steps[i]);
        LaterTwice(old(Common()), common, Common());
        i := i + 1;
      }
    }
  }

  lemma FirstSoon(calls: seq<Nested>)
    requires calls != []
    ensures Soons(calls[..1]) == if calls[0].call.Soon? then 1 else 0
  {
    assert calls[..1][..0] == [];
  }

  lemma OneMoreSoon(calls: seq<Nested>, i: nat)
    requires i < |calls|
    ensures Soons(calls[..i + 1]) == Soons(calls[..i]) + if calls[i].call.Soon? then 1 else 0
  {
    assert calls[..i + 1][..i] == calls[..i];
  }

  lemma RewiredPolls(pollers: map<Fd, Poller>, polls: set<HandleId>, fd: Fd, p: Poller, table: map<HandleId, Phase>)
    requires fd in pollers && p.uv == pollers[fd].uv && p.closing == pollers[fd].closing && Polls(pollers, polls, table)
    ensures Polls(pollers[fd := p], polls, table)
  {
    var pollers' := pollers[fd := p];
    forall uv | uv in polls && table[uv] == Open ensures Mapped(pollers', uv) {
      var at :| at in pollers && pollers[at].uv == uv;
      assert at in pollers' && pollers'[at].uv == uv;
    }
  }

  lemma PollOpened(pollers: map<Fd, Poller>, polls: set<HandleId>, table: map<HandleId, Phase>, fd: Fd, uv: HandleId)
    requires Polls(pollers, polls, table) && fd !in pollers && uv !in table
    ensures Polls(pollers[fd := Fresh(uv)], polls + {uv}, table[uv := Open])
    ensures Later(Shared(polls, table, false, Watched(pollers)),
                  Shared(polls + {uv}, table[uv := Open], false, Watched(pollers[fd := Fresh(uv)])))
  {
    var pollers' := pollers[fd := Fresh(uv)];
    assert fd in pollers' && pollers'[fd].uv == uv;
    forall u | u in polls && table[u] == Open ensures Mapped(pollers', u) {
      var at :| at in pollers && pollers[at].uv == u;
      assert at in pollers' && pollers'[at].uv == u;
    }
  }

  lemma PollClosed(pollers: map<Fd, Poller>, polls: set<HandleId>, table: map<HandleId, Phase>, fd: Fd, closed: bool)
    requires Polls(pollers, polls, table) && fd in pollers && !pollers[fd].closing
    ensures Polls(pollers - {fd}, polls, table[pollers[fd].uv := Closing])
    ensures Later(Shared(polls, table, closed, Watched(pollers)),
                  Shared(polls, table[pollers[fd].uv := Closing], closed, Watched(pollers - {fd})))
  {
    var pollers' := pollers - {fd};
    forall u | u in polls && u != pollers[fd].uv && table[u] == Open ensures Mapped(pollers', u) {
      var at :| at in pollers && pollers[at].uv == u;
      assert at in pollers' && pollers'[at].uv == u;
    }
  }

  /** A destroyed watcher: its slots are empty and its poll closing, but its mask and its place in the map stay. */
  function Spent(p: Poller): Poller {
    p.(reader := None, writer := None, closing := true)
  }

  /** Destroying a watcher leaves its cached mask wrong for as long as it stays mapped. */
  lemma SpentIsWrong(p: Poller)
    requires MaskRight(p)
    ensures !MaskRight(Spent(p)) && Spent(p).events == p.events && Mask(Spent(p)) == 0
  {
  }

  lemma PollSpent(pollers: map<Fd, Poller>, polls: set<HandleId>, table: map<HandleId, Phase>, fd: Fd, closed: bool)
    requires Polls(pollers, polls, table) && fd in pollers && !pollers[fd].closing
    ensures Polls(pollers[fd := Spent(pollers[fd])], polls, table[pollers[fd].uv := Closing])
    ensures Later(Shared(polls, table, closed, Watched(pollers)),
                  Shared(polls, table[pollers[fd].uv := Closing], closed, Watched(pollers[fd := Spent(pollers[fd])])))
  {
    var pollers' := pollers[fd := Spent(pollers[fd])];
    forall u | u in polls && u != pollers[fd].uv && table[u] == Open ensures Mapped(pollers', u) {
      var at :| at in pollers && pollers[at].uv == u;
      assert at in pollers' && pollers'[at].uv == u;
    }
  }

  lemma WatchedSame(pollers: map<Fd, Poller>, fd: Fd, p: Poller)
    requires fd in pollers && p.closing == pollers[fd].closing
    ensures Watched(pollers[fd := p]) == Watched(pollers)
  {
  }

  lemma NoneWatched(pollers: map<Fd, Poller>, polls: set<HandleId>, table: map<HandleId, Phase>)
    requires Polls(pollers, polls, table) && Watched(pollers) == {}
    ensures forall uv :: uv in polls ==> uv in table && table[uv] != Open
  {
    assert forall fd :: fd in pollers ==> fd !in Watched(pollers);
  }

  lemma SlotIsOpen(pollers: map<Fd, Poller>, fd: Fd, side: Side)
    requires Masks(pollers) && fd in pollers && SlotOf(pollers[fd], side).Some?
    ensures !pollers[fd].closing
  {
  }

  lemma SpentSlots(pollers: map<Fd, Poller>, fd: Fd)
    requires Unique(pollers) && Masks(pollers) && fd in pollers
    ensures Unique(pollers[fd := Spent(pollers[fd])]) && Masks(pollers[fd := Spent(pollers[fd])])
    ensures forall at :: Slot(pollers[fd := Spent(pollers[fd])], at) == if at.fd == fd then None else Slot(pollers, at)
  {
    var pollers' := pollers[fd := Spent(pollers[fd])];
    forall at ensures Slot(pollers', at) == if at.fd == fd then None else Slot(pollers, at) {
    }
    forall a, b | Slot(pollers', a).Some? && Slot(pollers', a) == Slot(pollers', b) ensures a == b {
      assert Slot(pollers, a) == Slot(pollers, b);
    }
  }

  /** The watcher of `fd` was there before or has just been opened, and can take `h`. */
  ghost predicate Rewirable(before: map<Fd, Poller>, pollers: map<Fd, Poller>, fd: Fd, h: Option<Handle>) {
    && fd in pollers && !pollers[fd].closing
    && (if fd in before then pollers == before else pollers == before[fd := Fresh(pollers[fd].uv)] && h.Some?)
    && (h.Some? ==> !Registered(before, h.value))
  }

  lemma RewiredMask(before: map<Fd, Poller>, pollers: map<Fd, Poller>, fd: Fd, side: Side, h: Option<Handle>)
    requires Unique(before) && Masks(before)
    requires Rewirable(before, pollers, fd, h)
    ensures var after := Rearmed(pollers[fd := WithSlot(pollers[fd], side, h)], fd);
      && Unique(after) && Masks(after) && (Intact(before) ==> Intact(after))
      && (forall at :: Slot(after, at) == if at == Place(fd, side) then h else Slot(before, at))
  {
    var p := WithSlot(pollers[fd], side, h);
    var changed := pollers[fd := p];
    if Mask(p) == 0 {
      RemovedSlots(before, fd);
      assert changed - {fd} == before - {fd};
      forall at ensures Slot(before - {fd}, at) == if at == Place(fd, side) then h else Slot(before, at) {
        assert at.fd == fd && at != Place(fd, side) ==> SlotOf(p, at.side) == None;
      }
    } else {
      var armed := p.(events := Mask(p), polled := Mask(p));
      assert Rearmed(changed, fd) == before[fd := armed];
      ChangedSlot(before, Place(fd, side), armed, h);
    }
  }

  ghost function Rearmed(pollers: map<Fd, Poller>, fd: Fd): map<Fd, Poller>
    requires fd in pollers
  {
    var p := pollers[fd];
    if Mask(p) == p.events then pollers
    else if Mask(p) == 0 then pollers - {fd}
    else pollers[fd := p.(events := Mask(p), polled := Mask(p))]
  }
}
