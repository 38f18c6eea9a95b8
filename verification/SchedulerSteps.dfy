/**
 The scheduler as a state machine over its atomic steps, in any order and number.

 A compound operation of the loop is a sequence of these steps, and Python code
 that re-enters the loop half-way only adds more of them.
 */
module SchedulerSteps {
  import opened TimerOrder

  /** The ready queue holds every kind of handle; only the type tells them apart. */
  datatype Callback = Soon(id: nat) | ThreadSafe(id: nat) | Timer(id: nat) | Watcher(id: nat)

  /** A timer's arrival in the ready queue, and when it happened. */
  datatype Arrival = Arrival(id: nat, when: real, at: real)

  datatype Sched = Sched(
    ready: seq<Callback>,
    inbox: seq<Callback>,
    wakerPending: bool,
    timers: seq<TimerEntry>,      // the timer heap, as the sorted list it stands for
    order: nat,
    clock: real,
    cancelled: set<nat>,
    // what has happened so far
    registered: seq<Callback>,    // call_soon and call_soon_threadsafe, in call order
    dequeued: seq<Callback>,
    scheduled: seq<real>,         // the deadline of every timer ever created, by id
    arrivals: seq<Arrival>)

  const INITIAL := Sched([], [], false, [], 0, 0.0, {}, [], [], [], [])

  datatype Step =
    | Tick(time: real)
    | CallSoon(id: nat)
    | CallSoonThreadsafe(id: nat)
    | Wake
    | Schedule(when: real, alreadyDue: bool)
    | Cancel(id: nat)
    | Compact
    | DropTop
    | PopDue(deadline: real)
    | Watch(id: nat)
    | Dequeue

  /** The test `scheduleAt` makes before sending a due timer straight to the ready queue. */
  predicate Bypasses(s: Sched, when: real, alreadyDue: bool) {
    alreadyDue && (s.timers == [] || when < s.timers[0].when)
  }

  function Retired(cancelled: set<nat>): Handle -> bool {
    h => h in cancelled
  }

  ghost function Drain(s: Sched): Sched {
    s.(ready := s.ready + s.inbox, inbox := [])
  }

  ghost function Arrive(s: Sched, id: nat, when: real): Sched {
    s.(ready := s.ready + [Timer(id)], arrivals := s.arrivals + [Arrival(id, when, s.clock)])
  }

  ghost function Next(s: Sched, step: Step): Sched {
    match step
    case Tick(time) => if time < s.clock then s else s.(clock := time)
    case CallSoon(id) =>
      var d := Drain(s);
      d.(ready := d.ready + [Soon(id)], registered := s.registered + [Soon(id)])
    case CallSoonThreadsafe(id) =>
      s.(inbox := s.inbox + [ThreadSafe(id)], registered := s.registered + [ThreadSafe(id)], wakerPending := true)
    case Wake => Drain(s).(wakerPending := false)
    case Schedule(when, alreadyDue) =>
      if alreadyDue && s.clock < when then s
      else
        var id := |s.scheduled|;
        var s' := s.(scheduled := s.scheduled + [when]);
        if Bypasses(s, when, alreadyDue) then Arrive(s', id, when)
        else s'.(timers := Insert(TimerEntry(when, s.order + 1, id), s.timers), order := s.order + 1)
    case Cancel(id) => s.(cancelled := s.cancelled + {id})
    case Compact => s.(timers := Keep(s.timers, Retired(s.cancelled)))
    case DropTop =>
      if s.timers != [] && s.timers[0].handle in s.cancelled then s.(timers := s.timers[1..]) else s
    case PopDue(deadline) =>
      if s.timers == [] || deadline < s.timers[0].when || s.clock < deadline then s
      else
        var top := s.timers[0];
        var s' := s.(timers := s.timers[1..]);
        if top.handle in s.cancelled then s' else Arrive(s', top.handle, top.when)
    case Watch(id) => s.(ready := s.ready + [Watcher(id)])
    case Dequeue =>
      if s.ready == [] then s else s.(ready := s.ready[1..], dequeued := s.dequeued + [s.ready[0]])
  }

  ghost function Exec(s: Sched, steps: seq<Step>): Sched {
    if steps == [] then s else Next(Exec(s, steps[..|steps| - 1]), steps[|steps| - 1])
  }

  // ----- first in, first out

  /** Callbacks registered by the two `call_soon` functions, and timers that came due. */
  datatype Kind = Registered | Timed

  predicate Is(c: Callback, kind: Kind) {
    match kind
    case Registered => c.Soon? || c.ThreadSafe?
    case Timed => c.Timer?
  }

  function Only(s: seq<Callback>, kind: Kind): (r: seq<Callback>) {
    if s == [] then []
    else
      var rest := Only(s[..|s| - 1], kind);
      if Is(s[|s| - 1], kind) then rest + [s[|s| - 1]] else rest
  }

  lemma {:induction false} OnlyConcat(a: seq<Callback>, b: seq<Callback>, kind: Kind)
    ensures Only(a + b, kind) == Only(a, kind) + Only(b, kind)
    decreases |b|
  {
    if b == [] {
      assert a + b == a;
    } else {
      var n := |b| - 1;
      assert (a + b)[..|a| + n] == a + b[..n];
      OnlyConcat(a, b[..n], kind);
    }
  }

  lemma {:induction false} OnlyAll(s: seq<Callback>, kind: Kind)
    requires forall c :: c in s ==> Is(c, Registered)
    ensures Only(s, kind) == if kind == Registered then s else []
  {
    if s == [] {
    } else {
      OnlyAll(s[..|s| - 1], kind);
      assert s == s[..|s| - 1] + [s[|s| - 1]] && Is(s[|s| - 1], Registered);
    }
  }

  /** What was dequeued, what is ready and what waits in the inbox is what was registered, in order. */
  ghost predicate Fifo(s: Sched) {
    && Only(s.dequeued + s.ready, Registered) + s.inbox == s.registered
    && (forall c :: c in s.inbox ==> Is(c, Registered))
    && (s.inbox != [] ==> s.wakerPending)
  }

  lemma Queued(dequeued: seq<Callback>, ready: seq<Callback>, more: seq<Callback>, kind: Kind)
    ensures Only(dequeued + (ready + more), kind) == Only(dequeued + ready, kind) + Only(more, kind)
  {
    assert dequeued + (ready + more) == (dequeued + ready) + more;
    OnlyConcat(dequeued + ready, more, kind);
  }

  lemma DrainKeepsFifo(s: Sched)
    requires Fifo(s)
    ensures Only(s.dequeued + Drain(s).ready, Registered) == s.registered
  {
    Queued(s.dequeued, s.ready, s.inbox, Registered);
    OnlyAll(s.inbox, Registered);
  }

  /** Queueing a timer or a watcher does not disturb the registered callbacks. */
  lemma QueueOther(s: Sched, c: Callback)
    requires Fifo(s) && !Is(c, Registered)
    ensures Fifo(s.(ready := s.ready + [c]))
  {
    Queued(s.dequeued, s.ready, [c], Registered);
    assert Only([c], Registered) == [];
  }

  lemma CallSoonKeepsFifo(s: Sched, id: nat)
    requires Fifo(s)
    ensures Fifo(Next(s, CallSoon(id)))
  {
    hide Only;
    DrainKeepsFifo(s);
    Queued(s.dequeued, Drain(s).ready, [Soon(id)], Registered);
    OnlyAll([Soon(id)], Registered);
  }

  lemma ThreadsafeKeepsFifo(s: Sched, id: nat)
    requires Fifo(s)
    ensures Fifo(Next(s, CallSoonThreadsafe(id)))
  {
    assert Only(s.dequeued + s.ready, Registered) + (s.inbox + [ThreadSafe(id)]) == s.registered + [ThreadSafe(id)];
  }

  lemma DequeueKeepsFifo(s: Sched)
    requires Fifo(s)
    ensures Fifo(Next(s, Dequeue))
  {
    if s.ready != [] {
      assert (s.dequeued + [s.ready[0]]) + s.ready[1..] == s.dequeued + s.ready;
    }
  }

  lemma NextKeepsFifo(s: Sched, step: Step)
    requires Fifo(s)
    ensures Fifo(Next(s, step))
  {
    hide Only, Insert, Keep;
    match step
    case CallSoon(id) => CallSoonKeepsFifo(s, id);
    case CallSoonThreadsafe(id) => ThreadsafeKeepsFifo(s, id);
    case Wake => DrainKeepsFifo(s);
    case Schedule(when, alreadyDue) => QueueOther(s, Timer(|s.scheduled|));
    case PopDue(deadline) => if s.timers != [] { QueueOther(s, Timer(s.timers[0].handle)); }
    case Watch(id) => QueueOther(s, Watcher(id));
    case Dequeue => DequeueKeepsFifo(s);
    case _ =>
  }

  // ----- timers

  /** The timer `id` is among the first `before` arrivals. */
  ghost predicate Arrived(s: Sched, id: nat, before: nat)
    requires before <= |s.arrivals|
  {
    exists j :: 0 <= j < before && s.arrivals[j].id == id
  }

  ghost predicate Pending(s: Sched, id: nat) {
    exists e :: e in s.timers && e.handle == id
  }

  ghost predicate EntriesOk(s: Sched) {
    && Sorted(s.timers) && OrdersUpTo(s.timers, s.order)
    && (forall e :: e in s.timers ==> e.handle < |s.scheduled| && e.when == s.scheduled[e.handle])
    && (forall e, f :: e in s.timers && f in s.timers && e.handle < f.handle ==> e.order < f.order)
  }

  /** Every timer ever created and not cancelled is still pending or has arrived. */
  ghost predicate NoneLost(s: Sched) {
    forall id :: 0 <= id < |s.scheduled| && id !in s.cancelled ==> Pending(s, id) || Arrived(s, id, |s.arrivals|)
  }

  /** No timer arrives before its deadline. */
  ghost predicate NoneEarly(s: Sched) {
    forall k :: 0 <= k < |s.arrivals| ==>
      var a := s.arrivals[k];
      a.id < |s.scheduled| && a.when == s.scheduled[a.id] && a.when <= a.at <= s.clock
  }

  /** An uncancelled timer created earlier, with a deadline no later, arrived earlier. */
  ghost predicate NoOvertaking(s: Sched) {
    forall k, id: nat ::
      (0 <= k < |s.arrivals| && id < s.arrivals[k].id && id < |s.scheduled| &&
       s.scheduled[id] <= s.arrivals[k].when && id !in s.cancelled) ==> Arrived(s, id, k)
  }

  ghost predicate TimersOk(s: Sched) {
    EntriesOk(s) && NoneLost(s) && NoneEarly(s) && NoOvertaking(s)
  }

  /** Adding one arrival keeps the timer properties when nothing pending should have come first. */
  lemma ArriveKeeps(s: Sched, s': Sched, id: nat)
    requires NoneEarly(s) && NoOvertaking(s) && EntriesOk(s')
    requires id < |s'.scheduled| && s'.scheduled[id] <= s.clock
    requires s.scheduled <= s'.scheduled && s.cancelled == s'.cancelled && s.clock == s'.clock
    requires s'.arrivals == s.arrivals + [Arrival(id, s'.scheduled[id], s.clock)]
    requires forall x: nat :: x < |s'.scheduled| && x !in s.cancelled && x != id ==>
               Pending(s', x) || Arrived(s, x, |s.arrivals|)
    requires forall e :: e in s'.timers && e.handle < id ==> s'.scheduled[id] < e.when
    ensures TimersOk(s')
  {
    var n := |s.arrivals|;
    forall x: nat, k: nat | k <= n && Arrived(s, x, k)
      ensures Arrived(s', x, k) && Arrived(s', x, n + 1)
    {
      var j :| 0 <= j < k && s.arrivals[j].id == x;
      assert s'.arrivals[j].id == x;
    }
    assert s'.arrivals[n].id == id;
    assert Arrived(s', id, n + 1);
    forall k, x: nat | 0 <= k < n + 1 && x < s'.arrivals[k].id && x < |s'.scheduled|
      && s'.scheduled[x] <= s'.arrivals[k].when && x !in s'.cancelled
      ensures Arrived(s', x, k)
    {
      if k < n {
        assert s'.arrivals[k] == s.arrivals[k];
        assert s.scheduled[s.arrivals[k].id] == s'.scheduled[s.arrivals[k].id];
        assert x < |s.scheduled|;
        assert Arrived(s, x, k);
      } else {
        assert !Pending(s', x);
      }
    }
  }

  lemma SchedulePending(s: Sched, when: real)
    requires TimersOk(s)
    ensures TimersOk(s.(scheduled := s.scheduled + [when],
                        timers := Insert(TimerEntry(when, s.order + 1, |s.scheduled|), s.timers), order := s.order + 1))
  {
    var e := TimerEntry(when, s.order + 1, |s.scheduled|);
    var s' := s.(scheduled := s.scheduled + [when], timers := Insert(e, s.timers), order := s.order + 1);
    InsertSorted(e, s.timers);
    InsertMembers(e, s.timers);
    forall id: nat | id < |s'.scheduled| && id !in s'.cancelled
      ensures Pending(s', id) || Arrived(s', id, |s'.arrivals|)
    {
      if id == |s.scheduled| {
        assert e in s'.timers;
      } else if Pending(s, id) {
        var f :| f in s.timers && f.handle == id;
        assert f in s'.timers;
      } else {
        assert Arrived(s, id, |s.arrivals|);
      }
    }
    assert forall x: nat, k: nat :: k <= |s.arrivals| && Arrived(s, x, k) ==> Arrived(s', x, k);
  }

  lemma InsertMembers(e: TimerEntry, s: seq<TimerEntry>)
    ensures forall x :: x in Insert(e, s) <==> x == e || x in s
  {
    InsertElements(e, s);
    forall x ensures x in Insert(e, s) <==> x == e || x in s {
      InMultiset(x, Insert(e, s));
      InMultiset(x, s);
    }
  }

  lemma ScheduleBypassing(s: Sched, when: real)
    requires TimersOk(s) && Bypasses(s, when, true) && when <= s.clock
    ensures TimersOk(Arrive(s.(scheduled := s.scheduled + [when]), |s.scheduled|, when))
  {
    var id := |s.scheduled|;
    var s' := Arrive(s.(scheduled := s.scheduled + [when]), id, when);
    forall x: nat | x < |s'.scheduled| && x !in s.cancelled && x != id
      ensures Pending(s', x) || Arrived(s, x, |s.arrivals|)
    {
      assert Pending(s, x) ==> Pending(s', x);
    }
    ArriveKeeps(s, s', id);
  }

  /** Dropping entries that are cancelled, or already gone, loses nothing. */
  lemma RemovalKeeps(s: Sched, rest: seq<TimerEntry>)
    requires TimersOk(s) && Sorted(rest)
    requires forall e :: e in rest ==> e in s.timers
    requires forall e :: e in s.timers && e !in rest ==> e.handle in s.cancelled
    ensures TimersOk(s.(timers := rest))
  {
    var s' := s.(timers := rest);
    forall id: nat | id < |s.scheduled| && id !in s.cancelled
      ensures Pending(s', id) || Arrived(s', id, |s.arrivals|)
    {
      if Pending(s, id) {
        var e :| e in s.timers && e.handle == id;
        assert e in rest;
      } else {
        assert Arrived(s, id, |s.arrivals|);
      }
    }
    assert forall x: nat, k: nat :: k <= |s.arrivals| && Arrived(s, x, k) ==> Arrived(s', x, k);
  }

  lemma PopArrives(s: Sched)
    requires TimersOk(s) && s.timers != [] && s.timers[0].when <= s.clock
    ensures var top := s.timers[0]; TimersOk(Arrive(s.(timers := s.timers[1..]), top.handle, top.when))
  {
    var top := s.timers[0];
    var s' := Arrive(s.(timers := s.timers[1..]), top.handle, top.when);
    assert s.timers == [top] + s.timers[1..];
    forall x: nat | x < |s'.scheduled| && x !in s.cancelled && x != top.handle
      ensures Pending(s', x) || Arrived(s, x, |s.arrivals|)
    {
      if Pending(s, x) {
        var e :| e in s.timers && e.handle == x;
        assert e in s'.timers;
      }
    }
    ArriveKeeps(s, s', top.handle);
  }

  lemma ScheduleKeepsTimers(s: Sched, when: real, alreadyDue: bool)
    requires TimersOk(s)
    ensures TimersOk(Next(s, Schedule(when, alreadyDue)))
  {
    hide TimersOk, Insert;
    if alreadyDue && s.clock < when {
    } else if Bypasses(s, when, alreadyDue) {
      ScheduleBypassing(s, when);
    } else {
      SchedulePending(s, when);
    }
  }

  lemma CompactKeepsTimers(s: Sched)
    requires TimersOk(s)
    ensures TimersOk(Next(s, Compact))
  {
    var drop := Retired(s.cancelled);
    KeepSorted(s.timers, drop);
    forall e ensures e in Keep(s.timers, drop) <==> e in s.timers && !drop(e.handle) {
      KeepMembers(s.timers, drop, e);
    }
    RemovalKeeps(s, Keep(s.timers, drop));
  }

  lemma TopRemoved(s: Sched)
    requires TimersOk(s) && s.timers != [] && s.timers[0].handle in s.cancelled
    ensures TimersOk(s.(timers := s.timers[1..]))
  {
    assert s.timers == [s.timers[0]] + s.timers[1..];
    RemovalKeeps(s, s.timers[1..]);
  }

  lemma PopDueKeepsTimers(s: Sched, deadline: real)
    requires TimersOk(s)
    ensures TimersOk(Next(s, PopDue(deadline)))
  {
    hide TimersOk;
    if s.timers == [] || deadline < s.timers[0].when || s.clock < deadline {
    } else if s.timers[0].handle in s.cancelled {
      TopRemoved(s);
    } else {
      PopArrives(s);
    }
  }

  /** Steps that touch no timer, apart from cancelling one or letting time pass. */
  lemma OthersKeepTimers(s: Sched, s': Sched)
    requires TimersOk(s)
    requires s'.timers == s.timers && s'.order == s.order && s'.scheduled == s.scheduled && s'.arrivals == s.arrivals
    requires s.cancelled <= s'.cancelled && s.clock <= s'.clock
    ensures TimersOk(s')
  {
    assert forall x: nat :: Pending(s, x) <==> Pending(s', x);
    assert forall x: nat, k: nat :: k <= |s.arrivals| ==> (Arrived(s, x, k) <==> Arrived(s', x, k));
  }

  lemma NextKeepsTimers(s: Sched, step: Step)
    requires TimersOk(s)
    ensures TimersOk(Next(s, step))
  {
    hide TimersOk, Insert, Keep;
    match step
    case Schedule(when, alreadyDue) => ScheduleKeepsTimers(s, when, alreadyDue);
    case Compact => CompactKeepsTimers(s);
    case DropTop => if s.timers != [] && s.timers[0].handle in s.cancelled { TopRemoved(s); }
    case PopDue(deadline) => PopDueKeepsTimers(s, deadline);
    case _ => OthersKeepTimers(s, Next(s, step));
  }

  /** A timer arrives at most once, and a pending one has not arrived. */
  ghost predicate ArrivesOnce(s: Sched) {
    && (forall j, k :: 0 <= j < k < |s.arrivals| ==> s.arrivals[j].id != s.arrivals[k].id)
    && (forall e :: e in s.timers ==> NotArrived(s.arrivals, e.handle))
    && (forall e, f :: e in s.timers && f in s.timers && e.handle == f.handle ==> e == f)
  }

  ghost predicate NotArrived(arrivals: seq<Arrival>, id: nat) {
    forall j :: 0 <= j < |arrivals| ==> arrivals[j].id != id
  }

  lemma FewerArriveOnce(s: Sched, s': Sched)
    requires ArrivesOnce(s) && s'.arrivals == s.arrivals && forall e :: e in s'.timers ==> e in s.timers
    ensures ArrivesOnce(s')
  {
  }

  lemma OneMoreArrival(s: Sched, s': Sched, id: nat, when: real)
    requires ArrivesOnce(s) && NotArrived(s.arrivals, id)
    requires s'.arrivals == s.arrivals + [Arrival(id, when, s.clock)]
    requires forall e :: e in s'.timers ==> e in s.timers && e.handle != id
    ensures ArrivesOnce(s')
  {
  }

  lemma PoppedIsGone(s: Sched)
    requires TimersOk(s) && ArrivesOnce(s) && s.timers != []
    ensures forall e :: e in s.timers[1..] ==> e in s.timers && e.handle != s.timers[0].handle
  {
    forall e | e in s.timers[1..] ensures e in s.timers && e.handle != s.timers[0].handle {
      var i :| 0 <= i < |s.timers| - 1 && s.timers[1..][i] == e;
      assert s.timers[i + 1] == e && Before(s.timers[0], s.timers[i + 1]);
    }
  }

  lemma NewTimerOnce(s: Sched, when: real, alreadyDue: bool)
    requires TimersOk(s) && ArrivesOnce(s)
    ensures ArrivesOnce(Next(s, Schedule(when, alreadyDue)))
  {
    var id := |s.scheduled|;
    assert NotArrived(s.arrivals, id);
    if alreadyDue && s.clock < when {
    } else if Bypasses(s, when, alreadyDue) {
      OneMoreArrival(s, Next(s, Schedule(when, alreadyDue)), id, when);
    } else {
      InsertMembers(TimerEntry(when, s.order + 1, id), s.timers);
    }
  }

  lemma NextArrivesOnce(s: Sched, step: Step)
    requires TimersOk(s) && ArrivesOnce(s)
    ensures ArrivesOnce(Next(s, step))
  {
    hide TimersOk, ArrivesOnce, Insert, Keep;
    match step
    case Schedule(when, alreadyDue) => NewTimerOnce(s, when, alreadyDue);
    case Compact =>
      forall e ensures e in Keep(s.timers, Retired(s.cancelled)) ==> e in s.timers {
        KeepMembers(s.timers, Retired(s.cancelled), e);
      }
      FewerArriveOnce(s, Next(s, step));
    case PopDue(deadline) =>
      if s.timers == [] || deadline < s.timers[0].when || s.clock < deadline {
      } else {
        PoppedIsGone(s);
        TopHasNotArrived(s);
        if s.timers[0].handle in s.cancelled {
          FewerArriveOnce(s, Next(s, step));
        } else {
          OneMoreArrival(s, Next(s, step), s.timers[0].handle, s.timers[0].when);
        }
      }
    case _ => FewerArriveOnce(s, Next(s, step));
  }

  lemma TopHasNotArrived(s: Sched)
    requires ArrivesOnce(s) && s.timers != []
    ensures NotArrived(s.arrivals, s.timers[0].handle)
  {
    assert s.timers[0] in s.timers;
  }

  // ----- what becomes of a timer that came due

  ghost function Callbacks(arrivals: seq<Arrival>): (r: seq<Callback>)
    ensures |r| == |arrivals|
  {
    if arrivals == [] then []
    else Callbacks(arrivals[..|arrivals| - 1]) + [Timer(arrivals[|arrivals| - 1].id)]
  }

  /** The timer callbacks dequeued so far, and those still ready, are the timers that arrived, in that order. */
  ghost predicate ArrivalsQueued(s: Sched) {
    Only(s.dequeued + s.ready, Timed) == Callbacks(s.arrivals)
  }

  lemma {:induction false} CallbacksAt(arrivals: seq<Arrival>, j: nat)
    requires j < |arrivals|
    ensures Callbacks(arrivals)[j] == Timer(arrivals[j].id)
  {
    if j < |arrivals| - 1 {
      CallbacksAt(arrivals[..|arrivals| - 1], j);
    }
  }

  lemma {:induction false} OnlyMembers(s: seq<Callback>, kind: Kind, c: Callback)
    requires c in Only(s, kind)
    ensures c in s
  {
    if s == [] {
    } else if c in Only(s[..|s| - 1], kind) {
      OnlyMembers(s[..|s| - 1], kind, c);
    }
  }

  lemma QueueRegistered(s: Sched, more: seq<Callback>)
    requires ArrivalsQueued(s) && forall c :: c in more ==> Is(c, Registered)
    ensures ArrivalsQueued(s.(ready := s.ready + more))
  {
    Queued(s.dequeued, s.ready, more, Timed);
    OnlyAll(more, Timed);
  }

  lemma QueueArrival(s: Sched, id: nat, when: real)
    requires ArrivalsQueued(s)
    ensures ArrivalsQueued(Arrive(s, id, when))
  {
    Queued(s.dequeued, s.ready, [Timer(id)], Timed);
    assert Only([Timer(id)], Timed) == [Timer(id)];
    assert (s.arrivals + [Arrival(id, when, s.clock)])[..|s.arrivals|] == s.arrivals;
  }

  lemma NextQueuesArrivals(s: Sched, step: Step)
    requires ArrivalsQueued(s) && Fifo(s)
    ensures ArrivalsQueued(Next(s, step))
  {
    hide Only, Insert, Keep, Callbacks;
    match step
    case CallSoon(id) => QueueRegistered(s, s.inbox); QueueRegistered(Drain(s), [Soon(id)]);
    case Wake => QueueRegistered(s, s.inbox);
    case Schedule(when, alreadyDue) => QueueArrival(s, |s.scheduled|, when);
    case PopDue(deadline) => if s.timers != [] { QueueArrival(s, s.timers[0].handle, s.timers[0].when); }
    case Watch(id) =>
      Queued(s.dequeued, s.ready, [Watcher(id)], Timed);
      assert Only([Watcher(id)], Timed) == [] by { NoTimer(id); }
    case Dequeue =>
      if s.ready != [] { assert (s.dequeued + [s.ready[0]]) + s.ready[1..] == s.dequeued + s.ready; }
    case _ =>
  }

  lemma NoTimer(id: nat)
    ensures Only([Watcher(id)], Timed) == []
  {
  }

  // ----- which timers sit in the heap

  ghost predicate HasHandle(timers: seq<TimerEntry>, id: nat) {
    exists e :: e in timers && e.handle == id
  }

  /** The in-heap flags are set for exactly the timers in the heap. */
  ghost predicate FlagsTell(flags: set<nat>, timers: seq<TimerEntry>) {
    forall id :: id in flags <==> HasHandle(timers, id)
  }

  lemma FlagPushed(flags: set<nat>, timers: seq<TimerEntry>, e: TimerEntry)
    requires FlagsTell(flags, timers)
    ensures FlagsTell(flags + {e.handle}, Insert(e, timers))
  {
    hide Insert;
    InsertMembers(e, timers);
    forall id ensures id in flags + {e.handle} <==> HasHandle(Insert(e, timers), id) {
      assert id == e.handle ==> e in Insert(e, timers) && e.handle == id;
      if id in flags {
        var f :| f in timers && f.handle == id;
        assert f in Insert(e, timers);
      }
      assert id in flags <==> HasHandle(timers, id);
    }
  }

  lemma FlagPopped(s: Sched, flags: set<nat>)
    requires TimersOk(s) && ArrivesOnce(s) && s.timers != [] && FlagsTell(flags, s.timers)
    ensures FlagsTell(flags - {s.timers[0].handle}, s.timers[1..])
  {
    PoppedIsGone(s);
    hide TimersOk, ArrivesOnce;
    var top := s.timers[0];
    assert s.timers == [top] + s.timers[1..];
    forall id ensures id in flags - {top.handle} <==> HasHandle(s.timers[1..], id) {
      assert id in flags <==> HasHandle(s.timers, id);
      if id in flags && id != top.handle {
        var e :| e in s.timers && e.handle == id;
        assert e in s.timers[1..];
      }
    }
  }

  lemma FlagCompacted(flags: set<nat>, timers: seq<TimerEntry>, cancelled: set<nat>)
    requires FlagsTell(flags, timers)
    ensures FlagsTell(flags - cancelled, Keep(timers, Retired(cancelled)))
  {
    hide Keep;
    var drop := Retired(cancelled);
    forall e ensures e in Keep(timers, drop) <==> e in timers && e.handle !in cancelled {
      KeepMembers(timers, drop, e);
    }
    forall id ensures id in flags - cancelled <==> HasHandle(Keep(timers, drop), id) {
      assert id in flags <==> HasHandle(timers, id);
      if id in flags && id !in cancelled {
        var e :| e in timers && e.handle == id;
        assert e in Keep(timers, drop);
      }
    }
  }

  // ----- what later states owe to earlier ones

  /** Nothing that has happened is undone, and an entry is in the heap from its timer's creation on or never. */
  ghost predicate Follows(s: Sched, s': Sched) {
    && s.registered <= s'.registered && s.dequeued <= s'.dequeued
    && s.scheduled <= s'.scheduled && s.arrivals <= s'.arrivals
    && s.cancelled <= s'.cancelled && s.clock <= s'.clock
    && (forall e :: e in s'.timers ==> e in s.timers || e.handle >= |s.scheduled|)
  }

  lemma FollowsItself(s: Sched)
    ensures Follows(s, s)
  {
  }

  lemma FollowsTwice(s: Sched, s': Sched, s'': Sched)
    requires Follows(s, s') && Follows(s', s'')
    ensures Follows(s, s'')
  {
  }

  lemma NextFollows(s: Sched, step: Step)
    ensures Follows(s, Next(s, step))
  {
    hide Insert, Keep;
    match step
    case Schedule(when, alreadyDue) => InsertMembers(TimerEntry(when, s.order + 1, |s.scheduled|), s.timers);
    case Compact =>
      forall e ensures e in Keep(s.timers, Retired(s.cancelled)) ==> e in s.timers {
        KeepMembers(s.timers, Retired(s.cancelled), e);
      }
    case _ =>
  }

  lemma {:induction false} ExecFollows(before: seq<Step>, after: seq<Step>)
    requires before <= after
    ensures Follows(Exec(INITIAL, before), Exec(INITIAL, after))
    decreases |after|
  {
    if before == after {
      FollowsItself(Exec(INITIAL, before));
    } else {
      hide Next, Follows;
      var n := |after| - 1;
      ExecFollows(before, after[..n]);
      NextFollows(Exec(INITIAL, after[..n]), after[n]);
      FollowsTwice(Exec(INITIAL, before), Exec(INITIAL, after[..n]), Exec(INITIAL, after));
    }
  }

  /** Every timer due by `deadline` has left the heap for good, and it has arrived unless it was cancelled. */
  ghost predicate Delivered(s: Sched, s': Sched, deadline: real) {
    forall e :: e in s.timers && e.when <= deadline ==>
      e !in s'.timers && (e.handle in s'.cancelled || Arrived(s', e.handle, |s'.arrivals|))
  }

  lemma TopIsEarliest(s: seq<TimerEntry>, e: TimerEntry)
    requires Sorted(s) && e in s
    ensures s[0].when <= e.when
  {
    var i :| 0 <= i < |s| && s[i] == e;
    assert i == 0 || Before(s[0], s[i]);
  }

  /** Once nothing due is pending, everything that was due has been delivered. */
  lemma NothingDueDelivers(s: Sched, s': Sched, deadline: real)
    requires TimersOk(s) && TimersOk(s') && Follows(s, s')
    requires s'.timers == [] || deadline < s'.timers[0].when
    ensures Delivered(s, s', deadline)
  {
    forall e | e in s.timers && e.when <= deadline
      ensures e !in s'.timers && (e.handle in s'.cancelled || Arrived(s', e.handle, |s'.arrivals|))
    {
      assert s'.scheduled[e.handle] == e.when;
      forall f | f in s'.timers ensures deadline < f.when && f.handle != e.handle {
        TopIsEarliest(s'.timers, f);
      }
      assert !Pending(s', e.handle);
    }
  }

  lemma StaysDelivered(s: Sched, s': Sched, s'': Sched, deadline: real)
    requires TimersOk(s) && Delivered(s, s', deadline) && Follows(s, s') && Follows(s', s'')
    ensures Delivered(s, s'', deadline)
  {
    forall e | e in s.timers && e.when <= deadline
      ensures e !in s''.timers && (e.handle in s''.cancelled || Arrived(s'', e.handle, |s''.arrivals|))
    {
      if e.handle !in s''.cancelled {
        var j :| 0 <= j < |s'.arrivals| && s'.arrivals[j].id == e.handle;
        assert s''.arrivals[j].id == e.handle;
      }
    }
  }

  // ----- every run

  /** Safety of every run: order, deadlines and conservation, whatever the interleaving. */
  lemma {:induction false} EveryRun(steps: seq<Step>)
    ensures Fifo(Exec(INITIAL, steps)) && TimersOk(Exec(INITIAL, steps)) && ArrivesOnce(Exec(INITIAL, steps))
    ensures ArrivalsQueued(Exec(INITIAL, steps))
  {
    if steps == [] {
    } else {
      var n := |steps| - 1;
      EveryRun(steps[..n]);
      NextKeepsFifo(Exec(INITIAL, steps[..n]), steps[n]);
      NextKeepsTimers(Exec(INITIAL, steps[..n]), steps[n]);
      NextArrivesOnce(Exec(INITIAL, steps[..n]), steps[n]);
      NextQueuesArrivals(Exec(INITIAL, steps[..n]), steps[n]);
    }
  }
}
