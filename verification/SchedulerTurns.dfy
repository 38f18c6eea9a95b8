/** What can happen to the loop, and what each of its turns promises for good. */
module SchedulerTurns {
  import opened TimerOrder
  import opened SchedulerSteps
  import opened SchedulerAlone

  /** What the idle drain looks at between two batches. */
  datatype Moment = Moment(queue: seq<Callback>, stopping: bool, fatal: bool, timer: bool, dns: bool, flush: bool,
                           closing: nat, external: nat)

  /** One batch of the idle drain: the circumstances in which it started and ended. */
  datatype Batch = Batch(before: Moment, after: Moment)

  /** What can happen to the loop: Python calls, or one of its libuv callbacks. */
  datatype Turn =
    | Calls(reaction: Reaction)
    | Woken
    | TimerFires(collecting: seq<Reaction>, arming: seq<Reaction>)
    | Idles(behaviour: nat -> Reaction, elapsed: nat -> nat)
    | Starts(arming: seq<Reaction>)
    | Returns(flushing: Reaction)
    | Polled(ids: seq<nat>)

  /** No Python code re-enters an operation of this turn. */
  ghost predicate Alone(turn: Turn) {
    match turn
    case Calls(reaction) => Flat(reaction.calls)
    case TimerFires(collecting, arming) => collecting == [] && arming == []
    case Idles(behaviour, _) => AllFlat(behaviour)
    case Starts(arming) => arming == []
    case Returns(flushing) => Flat(flushing.calls)
    case _ => true
  }

  // ----- what Python code leaves behind

  /** What a call leaves behind for good, given how many timers there were before it. */
  ghost predicate Lasting(call: Call, known: nat, m: Machine) {
    match call
    case Soon(id) => Callback.Soon(id) in m.s.registered
    case Threadsafe(id) => ThreadSafe(id) in m.s.registered
    case At(when) => when in m.s.scheduled
    case CancelTimer(id) => id < known ==> id in m.s.cancelled
    case Stop => m.flags.stopping
    case Fail => m.flags.stopping && m.flags.fatal
    case Elapse(time) => time <= m.s.clock
    case _ => true
  }

  ghost predicate Lasts(calls: seq<Nested>, known: nat, m: Machine) {
    forall i :: 0 <= i < |calls| ==> Lasting(calls[i].call, known, m)
  }

  /** Nothing that has happened is undone; the loop stays stopped until it returns. */
  ghost predicate Onwards(m: Machine, m': Machine) {
    && Follows(m.s, m'.s)
    && (m.flags.stopping ==> m'.flags.stopping) && (m.flags.fatal ==> m'.flags.fatal)
  }

  ghost predicate Made(calls: seq<Nested>, call: Call) {
    exists i :: 0 <= i < |calls| && calls[i].call == call
  }

  lemma CalledFor(calls: seq<Nested>, known: nat, m: Machine)
    requires Lasts(calls, known, m)
    ensures Made(calls, Stop) ==> m.flags.stopping
    ensures Made(calls, Fail) ==> m.flags.stopping && m.flags.fatal
  {
  }

  lemma StillLasts(calls: seq<Nested>, known: nat, m: Machine, m': Machine)
    requires Lasts(calls, known, m) && Onwards(m, m')
    ensures Lasts(calls, known, m')
  {
    forall i | 0 <= i < |calls| ensures Lasting(calls[i].call, known, m') {
      assert Lasting(calls[i].call, known, m);
    }
  }

  lemma FewerKnown(calls: seq<Nested>, known: nat, fewer: nat, m: Machine)
    requires Lasts(calls, known, m) && fewer <= known
    ensures Lasts(calls, fewer, m)
  {
    forall i | 0 <= i < |calls| ensures Lasting(calls[i].call, fewer, m) {
      assert Lasting(calls[i].call, known, m);
    }
  }

  /** Every callback of `queue` was performed, unless it is a cancelled timer's. */
  ghost predicate AllLast(queue: seq<Callback>, behaviour: nat -> Reaction, start: nat, known: nat, m: Machine) {
    forall i :: 0 <= i < |queue| && !Skipped(queue[i], m.s.cancelled) ==> Lasts(behaviour(start + i).calls, known, m)
  }

  lemma AllStillLast(queue: seq<Callback>, behaviour: nat -> Reaction, start: nat, known: nat, m: Machine, m': Machine)
    requires AllLast(queue, behaviour, start, known, m) && Onwards(m, m')
    ensures AllLast(queue, behaviour, start, known, m')
  {
    forall i | 0 <= i < |queue| && !Skipped(queue[i], m'.s.cancelled)
      ensures Lasts(behaviour(start + i).calls, known, m')
    {
      StillLasts(behaviour(start + i).calls, known, m, m');
    }
  }

  lemma OneMoreLasts(queue: seq<Callback>, callback: Callback, behaviour: nat -> Reaction, start: nat,
                     fewer: nat, known: nat, m: Machine, m': Machine)
    requires AllLast(queue, behaviour, start, fewer, m) && Onwards(m, m') && fewer <= known
    requires !Skipped(callback, m.s.cancelled) ==> Lasts(behaviour(start + |queue|).calls, known, m')
    ensures AllLast(queue + [callback], behaviour, start, fewer, m')
  {
    AllStillLast(queue, behaviour, start, fewer, m, m');
    if !Skipped(callback, m'.s.cancelled) {
      FewerKnown(behaviour(start + |queue|).calls, known, fewer, m');
    }
  }

  lemma OnwardsTwice(m: Machine, m': Machine, m'': Machine)
    requires Onwards(m, m') && Onwards(m', m'')
    ensures Onwards(m, m'')
  {
    FollowsTwice(m.s, m'.s, m''.s);
  }

  lemma NoneLast(behaviour: nat -> Reaction, start: nat, known: nat, m: Machine)
    ensures AllLast([], behaviour, start, known, m)
  {
  }

  /** The callbacks of two batches, one run after the other. */
  lemma BothLast(queue: seq<Callback>, more: seq<Callback>, behaviour: nat -> Reaction, start: nat,
                 fewer: nat, known: nat, m: Machine)
    requires AllLast(queue, behaviour, start, fewer, m) && fewer <= known
    requires AllLast(more, behaviour, start + |queue|, known, m)
    ensures AllLast(queue + more, behaviour, start, fewer, m)
  {
    var all := queue + more;
    forall i | 0 <= i < |all| && !Skipped(all[i], m.s.cancelled) ensures Lasts(behaviour(start + i).calls, fewer, m) {
      if i >= |queue| {
        var k := i - |queue|;
        assert all[i] == more[k];
        assert start + |queue| + k == start + i;
        FewerKnown(behaviour(start + i).calls, known, fewer, m);
      }
    }
  }

  // ----- what runs promise

  /** The callbacks of the reported watchers were appended, in order. */
  ghost predicate PolledInto(queue: seq<Callback>, ids: seq<nat>, queue': seq<Callback>) {
    && |queue'| == |queue| + |ids| && queue <= queue'
    && forall i :: 0 <= i < |ids| ==> queue'[|queue| + i] == Watcher(ids[i])
  }

  /** The callback of every timer due by `deadline` was dequeued, unless the timer was cancelled. */
  ghost predicate RanAll(s: Sched, s': Sched, deadline: real) {
    forall e :: e in s.timers && e.when <= deadline ==>
      e.handle in s'.cancelled || Callback.Timer(e.handle) in s'.dequeued
  }

  /** What the turns taken so far still promise in `s`. */
  ghost predicate AllKept(turns: seq<Turn>, states: seq<Sched>, s: Sched)
    requires 0 < |states| <= |turns| + 1
  {
    && (forall i :: 0 <= i < |states| ==> TimersOk(states[i]) && Follows(states[i], s))
    && (forall i :: 0 <= i < |states| - 1 && turns[i].TimerFires? ==> Delivered(states[i], s, states[i].clock))
    && (forall i :: 0 <= i < |states| - 1 && turns[i].Idles? ==> states[i].dequeued + states[i].ready <= s.dequeued)
    && (forall i, j :: 0 <= i < j < |states| - 1 && turns[i].TimerFires? && turns[j].Idles? ==>
          RanAll(states[i], s, states[i].clock))
  }

  lemma WhatIsKept(turns: seq<Turn>, states: seq<Sched>, s: Sched)
    requires |states| == |turns| + 1 && AllKept(turns, states, s)
    ensures forall i :: 0 <= i < |turns| && turns[i].TimerFires? ==> Delivered(states[i], s, states[i].clock)
    ensures forall i :: 0 <= i < |turns| && turns[i].Idles? ==> states[i].dequeued + states[i].ready <= s.dequeued
    ensures forall i, j :: 0 <= i < j < |turns| && turns[i].TimerFires? && turns[j].Idles? ==>
              RanAll(states[i], s, states[i].clock)
  {
  }

  /** One more turn keeps what the earlier ones promise. */
  lemma KeepAll(turns: seq<Turn>, states: seq<Sched>, s: Sched, s': Sched)
    requires 0 < |states| <= |turns| && AllKept(turns, states, s) && states[|states| - 1] == s
    requires TimersOk(s') && ArrivalsQueued(s) && Follows(s, s')
    requires var turn := turns[|states| - 1];
      && (turn.TimerFires? ==> Delivered(s, s', s.clock))
      && (turn.Idles? ==> s.dequeued + s.ready <= s'.dequeued)
    ensures AllKept(turns, states + [s'], s')
  {
    hide TimersOk, ArrivalsQueued, Delivered, RanAll;
    var n := |states| - 1;
    var states' := states + [s'];
    forall i | 0 <= i < |states'| ensures TimersOk(states'[i]) && Follows(states'[i], s') {
      if i <= n {
        FollowsTwice(states[i], s, s');
      }
    }
    hide Follows;
    forall i | 0 <= i <= n && turns[i].TimerFires? ensures Delivered(states[i], s', states[i].clock) {
      if i < n {
        StaysDelivered(states[i], s, s', states[i].clock);
      }
    }
    forall i | 0 <= i <= n && turns[i].Idles? ensures states[i].dequeued + states[i].ready <= s'.dequeued {
      if i < n {
        KeepsDequeued(s, s', states[i].dequeued + states[i].ready);
      }
    }
    forall i, j | 0 <= i < j <= n && turns[i].TimerFires? && turns[j].Idles?
      ensures RanAll(states[i], s', states[i].clock)
    {
      if j < n {
        StaysRun(states[i], s, s', states[i].clock);
      } else {
        DeliveredRuns(states[i], s, s', states[i].clock);
      }
    }
  }

  lemma KeepsDequeued(s: Sched, s': Sched, queue: seq<Callback>)
    requires Follows(s, s') && queue <= s.dequeued
    ensures queue <= s'.dequeued
  {
  }

  lemma StaysRun(s: Sched, s': Sched, s'': Sched, deadline: real)
    requires RanAll(s, s', deadline) && Follows(s', s'')
    ensures RanAll(s, s'', deadline)
  {
    hide Follows;
    forall e | e in s.timers && e.when <= deadline
      ensures e.handle in s''.cancelled || Callback.Timer(e.handle) in s''.dequeued
    {
      Stays(s', s'', e.handle);
    }
  }

  lemma Stays(s: Sched, s': Sched, id: nat)
    requires Follows(s, s')
    ensures id in s.cancelled ==> id in s'.cancelled
    ensures Callback.Timer(id) in s.dequeued ==> Callback.Timer(id) in s'.dequeued
  {
  }

  /** A timer that was delivered before an idle turn has its callback dequeued by it. */
  lemma DeliveredRuns(s: Sched, s': Sched, s'': Sched, deadline: real)
    requires Delivered(s, s', deadline) && ArrivalsQueued(s') && Follows(s', s'')
    requires s'.dequeued + s'.ready <= s''.dequeued
    ensures RanAll(s, s'', deadline)
  {
    forall e | e in s.timers && e.when <= deadline
      ensures e.handle in s''.cancelled || Callback.Timer(e.handle) in s''.dequeued
    {
      Stays(s', s'', e.handle);
      if e.handle !in s'.cancelled {
        var j :| 0 <= j < |s'.arrivals| && s'.arrivals[j].id == e.handle;
        CallbacksAt(s'.arrivals, j);
        OnlyMembers(s'.dequeued + s'.ready, Timed, Callback.Timer(e.handle));
      }
    }
  }

  /** An idle turn dequeues at least what was ready. */
  lemma FirstBatch(log: seq<Batch>, first: Moment, last: Moment, elapsed: nat -> nat)
    requires Over(log, first, last, elapsed)
    ensures log != [] ==> first.queue <= Flatten(log)
  {
    if log != [] { FlattenStarts(log); }
  }

  lemma {:induction false} FlattenStarts(log: seq<Batch>)
    requires log != []
    ensures log[0].before.queue <= Flatten(log)
  {
    if |log| == 1 {
      assert log[..0] == [];
    } else {
      FlattenStarts(log[..|log| - 1]);
    }
  }

  // ----- the batches of one turn of the idle drain

  ghost function Flatten(log: seq<Batch>): seq<Callback> {
    if log == [] then [] else Flatten(log[..|log| - 1]) + log[|log| - 1].before.queue
  }

  /** Each batch starts where the one before it ended. */
  ghost predicate Chained(log: seq<Batch>, first: Moment, last: Moment) {
    && (if log == [] then first == last else log[0].before == first && log[|log| - 1].after == last)
    && forall k :: 0 < k < |log| ==> log[k].before == log[k - 1].after
  }

  /** After the k-th batch nothing else needs the loop, and the limits leave room for the callbacks now queued. */
  ghost predicate GoesOn(log: seq<Batch>, k: nat, elapsed: nat -> nat)
    requires k < |log|
  {
    var now := log[k].after;
    var ran := |Flatten(log[..k + 1])|;
    && now.queue != [] && !now.stopping && !now.fatal
    && !now.timer && !now.dns && !now.flush && now.closing == 0
    && k + 1 < (if now.external > 1 then 256 else 64)
    && ran < 16384 && |now.queue| <= 16384 - ran
    && (now.external > 1 ==>
        |log[k].before.queue| == 1 && |now.queue| == 1 && elapsed(k + 1) < 25000)
  }

  /** The part of `GoesOn` that is tested as soon as a batch ends. */
  ghost predicate OnlyReady(now: Moment, before: Moment, elapsed: nat) {
    && now.queue != [] && !now.stopping && !now.fatal
    && !now.timer && !now.dns && !now.flush && now.closing == 0
    && (now.external > 1 ==> |before.queue| == 1 && elapsed < 25000)
  }

  ghost predicate IoThroughout(log: seq<Batch>) {
    forall k :: 0 <= k < |log| ==> log[k].before.external > 1
  }

  ghost predicate AllSingle(log: seq<Batch>) {
    forall k :: 0 <= k < |log| ==> |log[k].before.queue| == 1
  }

  /** The limits one turn of the idle drain obeys. */
  ghost predicate Bounded(log: seq<Batch>) {
    && |log| <= 256
    && (log != [] ==> |Flatten(log)| <= if |log[0].before.queue| < 16384 then 16384 else |log[0].before.queue|)
    && (forall k :: 0 < k < |log| ==> !log[k].before.stopping && !log[k].before.fatal)
    && (|log| > 1 && IoThroughout(log) ==> AllSingle(log))
  }

  /** Every batch but the last went on. */
  ghost predicate WentOn(log: seq<Batch>, first: Moment, last: Moment, elapsed: nat -> nat) {
    Chained(log, first, last) && forall k :: 0 <= k < |log| - 1 ==> GoesOn(log, k, elapsed)
  }

  /** And the last one does not. */
  ghost predicate Over(log: seq<Batch>, first: Moment, last: Moment, elapsed: nat -> nat) {
    Chained(log, first, last) && forall k :: 0 <= k < |log| ==> (GoesOn(log, k, elapsed) <==> k + 1 < |log|)
  }

  /** The tests made before another batch. */
  ghost predicate RoomFor(now: Moment, batches: nat, callbacks: nat) {
    && batches < (if now.external > 1 then 256 else 64)
    && callbacks < 16384 && |now.queue| <= 16384 - callbacks
    && (now.external > 1 ==> |now.queue| == 1)
  }

  /** The last batch goes on if the tests made when it ended and those made before the next batch pass. */
  lemma LastGoesOn(log: seq<Batch>, first: Moment, now: Moment, elapsed: nat -> nat)
    requires WentOn(log, first, now, elapsed)
    ensures log != [] ==>
      (GoesOn(log, |log| - 1, elapsed) <==>
       OnlyReady(now, log[|log| - 1].before, elapsed(|log|)) && RoomFor(now, |log|, |Flatten(log)|))
    ensures (log == [] || !GoesOn(log, |log| - 1, elapsed)) ==> Over(log, first, now, elapsed)
  {
    assert log[..|log|] == log;
  }

  /** A turn made of batches that go on keeps the limits. */
  lemma DrainIsBounded(log: seq<Batch>, first: Moment, last: Moment, elapsed: nat -> nat)
    requires Over(log, first, last, elapsed)
    ensures Bounded(log)
  {
    var n := |log| - 1;
    if n == 0 {
      assert Flatten(log) == log[0].before.queue by { assert log[..0] == []; }
    } else if n > 0 {
      assert GoesOn(log, n - 1, elapsed) && log[n].before == log[n - 1].after && log[..n - 1 + 1] == log[..n];
      forall k | 0 < k < |log| ensures !log[k].before.stopping && !log[k].before.fatal {
        assert GoesOn(log, k - 1, elapsed);
      }
      if IoThroughout(log) {
        forall k | 0 <= k < |log| ensures |log[k].before.queue| == 1 {
          if k < n {
            assert GoesOn(log, k, elapsed) && log[k + 1].before == log[k].after;
          }
        }
      }
    }
  }

  /** A batch is added after one that goes on. */
  lemma AddBatch(log: seq<Batch>, entry: Batch, first: Moment, elapsed: nat -> nat)
    requires WentOn(log, first, entry.before, elapsed) && (log != [] ==> GoesOn(log, |log| - 1, elapsed))
    ensures Flatten(log + [entry]) == Flatten(log) + entry.before.queue
    ensures WentOn(log + [entry], first, entry.after, elapsed)
  {
    FlattenOne(log, entry);
    ChainedOne(log, entry, first);
    hide Flatten, GoesOn, Chained;
    forall k | 0 <= k < |log| ensures GoesOn(log + [entry], k, elapsed) {
      assert GoesOn(log, k, elapsed);
      StillGoesOn(log, entry, k, elapsed);
    }
  }

  lemma FlattenOne(log: seq<Batch>, entry: Batch)
    ensures Flatten(log + [entry]) == Flatten(log) + entry.before.queue
  {
    assert (log + [entry])[..|log|] == log;
  }

  lemma ChainedOne(log: seq<Batch>, entry: Batch, first: Moment)
    requires Chained(log, first, entry.before)
    ensures Chained(log + [entry], first, entry.after)
  {
  }

  /** Whether a batch goes on does not depend on later ones. */
  lemma StillGoesOn(log: seq<Batch>, entry: Batch, k: nat, elapsed: nat -> nat)
    requires k < |log| && GoesOn(log, k, elapsed)
    ensures GoesOn(log + [entry], k, elapsed)
  {
    hide Flatten;
    assert (log + [entry])[..k + 1] == log[..k + 1];
  }

  /** What a turn amounts to if nothing re-enters it, the idle drain apart. */
  ghost predicate Amounts(m: Machine, turn: Turn, m': Machine) {
    match turn
    case Calls(reaction) => m' == ApplyAll(m, reaction.calls)
    case Woken => m' == m.(s := Next(m.s, Wake))
    case TimerFires(_, _) => m' == Fired(m)
    case Starts(_) => m' == Started(m)
    case Returns(flushing) => m' == Finished(m, flushing.calls)
    case Polled(_) => m' == m.(s := m.s.(ready := m'.s.ready))
    case Idles(_, _) => false
  }

  lemma AmountsExact(m: Machine, turn: Turn, m': Machine)
    requires Exact(m) && Amounts(m, turn, m')
    ensures Exact(m')
  {
    hide TimersOk, ArrivesOnce, Tally, ApplyAll, Started, Finished, Fired;
    match turn
    case Calls(reaction) => ApplyAllExact(m, reaction.calls);
    case Woken => SameTally(m, Wake, m.flags);
    case TimerFires(_, _) => FiredExact(m);
    case Starts(_) => StartedExact(m);
    case Returns(flushing) => FinishedExact(m, flushing.calls);
    case Polled(_) => SameTimers(m, m');
  }

  lemma SameTimers(m: Machine, m': Machine)
    requires Exact(m) && m' == m.(s := m.s.(ready := m'.s.ready))
    ensures Exact(m')
  {
    OthersKeepTimers(m.s, m'.s);
  }
}
