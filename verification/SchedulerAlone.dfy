/**
 The loop when nothing re-enters it: each operation as a function from state to state.

 `Scheduler` proves that its methods compute these functions whenever the Python code they call does not call back.
 */
module SchedulerAlone {
  import opened TimerOrder
  import opened SchedulerSteps

  /** What Python code may do to the loop while the loop is calling it. */
  datatype Call =
    | Soon(id: nat)
    | Threadsafe(id: nat)
    | At(when: real)
    | Later(delay: real)
    | CancelTimer(id: nat)
    | Stop
    | Fail
    | Elapse(time: real)
    | Handles(external: nat, closing: nat, dns: bool, flush: bool)

  /** A finite tree of calls: at its i-th call-out, an operation meets the i-th reaction of its list. */
  datatype Nested = Nested(call: Call, inner: seq<Reaction>)
  datatype Reaction = Reaction(calls: seq<Nested>)

  /** What only Python code changes. */
  datatype Flags = Flags(stopping: bool, fatal: bool, external: nat, closing: nat, dns: bool, flush: bool)

  /** The whole state: `count` is the heap's own count of cancelled timers in it. */
  datatype Machine = Machine(s: Sched, count: nat, flags: Flags)

  function Less(count: nat): nat {
    if count == 0 then 0 else count - 1
  }

  // ----- the operations

  ghost function DropTop(m: Machine): Machine {
    m.(s := Next(m.s, Step.DropTop), count := Less(m.count))
  }

  /** Pops cancelled timers until the earliest one is live. */
  ghost function Skip(m: Machine): (r: Machine)
    decreases |m.s.timers|
  {
    if m.s.timers == [] || m.s.timers[0].handle !in m.s.cancelled then m else Skip(DropTop(m))
  }

  ghost function PopDue(m: Machine, deadline: real): Machine
    requires m.s.timers != []
  {
    m.(s := Next(m.s, Step.PopDue(deadline)),
       count := if m.s.timers[0].handle in m.s.cancelled then Less(m.count) else m.count)
  }

  /** Pops while the earliest deadline has passed. */
  ghost function Collect(m: Machine, deadline: real): Machine
    decreases |m.s.timers|
  {
    if m.s.timers == [] || deadline < m.s.timers[0].when || m.s.clock < deadline then m
    else Collect(PopDue(m, deadline), deadline)
  }

  /** The libuv timer fires. */
  ghost function Fired(m: Machine): Machine {
    Skip(Collect(m, m.s.clock))
  }

  /** A timer was scheduled, and unless it bypassed the heap, cancelled ones at the front are gone. */
  ghost function Rescheduled(m: Machine, when: real, alreadyDue: bool): Machine {
    var m' := m.(s := Next(m.s, Schedule(when, alreadyDue)));
    if Bypasses(m.s, when, alreadyDue) then m' else Skip(m')
  }

  /** Cancelled timers dominate the heap: they are more than a hundred, and more than half of its entries. */
  ghost predicate Crowds(count: nat, timers: seq<TimerEntry>) {
    count > 100 && count * 2 > |timers|
  }

  /** A cancellation is counted, and a crowded heap compacted. */
  ghost function Noted(m: Machine): Machine {
    if Crowds(m.count + 1, m.s.timers) then m.(s := Next(m.s, Step.Compact), count := 0)
    else m.(count := m.count + 1)
  }

  /** The loop is told of a cancellation, if the timer still sits in the heap. */
  ghost function Reported(m: Machine, id: nat): Machine {
    if HasHandle(m.s.timers, id) then Noted(m) else m
  }

  ghost function Cancelled(m: Machine, id: nat): Machine {
    if id in m.s.cancelled then m else Reported(m.(s := Next(m.s, Step.Cancel(id))), id)
  }

  ghost function Apply(m: Machine, call: Call): Machine {
    match call
    case Soon(id) => m.(s := Next(m.s, Step.CallSoon(id)))
    case Threadsafe(id) => m.(s := Next(m.s, Step.CallSoonThreadsafe(id)))
    case At(when) => Rescheduled(m, when, when <= m.s.clock)
    case Later(delay) => Rescheduled(m, m.s.clock + (if delay > 0.0 then delay else 0.0), delay <= 0.0)
    case CancelTimer(id) => if id < |m.s.scheduled| then Cancelled(m, id) else m
    case Stop => m.(flags := m.flags.(stopping := true))
    case Fail => m.(flags := m.flags.(stopping := true, fatal := true))
    case Elapse(time) => m.(s := Next(m.s, Tick(time)))
    case Handles(external, closing, dns, flush) =>
      m.(flags := m.flags.(external := external, closing := closing, dns := dns, flush := flush))
  }

  ghost function ApplyAll(m: Machine, calls: seq<Nested>): Machine {
    if calls == [] then m else Apply(ApplyAll(m, calls[..|calls| - 1]), calls[|calls| - 1].call)
  }

  /** Nothing re-enters the loop while these calls are made. */
  ghost predicate Flat(calls: seq<Nested>) {
    forall i :: 0 <= i < |calls| ==> calls[i].inner == []
  }

  // ----- the ready queue

  /** A timer cancelled after it came due is dequeued, and that is all. */
  ghost predicate Skipped(callback: Callback, cancelled: set<nat>) {
    callback.Timer? && callback.id in cancelled
  }

  /** The oldest callback is dequeued and runs, unless it belongs to a cancelled timer. */
  ghost function RanOne(m: Machine, reaction: Reaction): Machine
    requires m.s.ready != []
  {
    var m' := m.(s := Next(m.s, Step.Dequeue));
    if Skipped(m.s.ready[0], m.s.cancelled) then m' else ApplyAll(m', reaction.calls)
  }

  /** `n` callbacks run, the i-th of them with the reaction `behaviour(start + i)`. */
  ghost function Ran(m: Machine, behaviour: nat -> Reaction, start: nat, n: nat): Machine {
    if n == 0 then m
    else
      var m' := Ran(m, behaviour, start, n - 1);
      if m'.s.ready == [] then m' else RanOne(m', behaviour(start + n - 1))
  }

  ghost predicate AllFlat(behaviour: nat -> Reaction) {
    forall i :: Flat(behaviour(i).calls)
  }

  /** What `runLoop` does before and after libuv runs. */
  ghost function Started(m: Machine): Machine {
    Skip(m.(flags := m.flags.(stopping := false)))
  }

  ghost function Finished(m: Machine, flushing: seq<Nested>): Machine {
    var m' := ApplyAll(m.(flags := m.flags.(stopping := false)), flushing);
    m'.(flags := m'.flags.(fatal := false))
  }

  // ----- steps of the loops

  lemma SkipDone(m: Machine)
    requires m.s.timers == [] || m.s.timers[0].handle !in m.s.cancelled
    ensures Skip(m) == m
  {
  }

  lemma TopDropped(m: Machine)
    requires m.s.timers != [] && m.s.timers[0].handle in m.s.cancelled
    ensures DropTop(m).s == Next(m.s, Step.DropTop) && Skip(DropTop(m)) == Skip(m)
    ensures |DropTop(m).s.timers| < |m.s.timers|
  {
  }

  lemma CollectDone(m: Machine, deadline: real)
    requires m.s.timers == [] || deadline < m.s.timers[0].when
    ensures Collect(m, deadline) == m
  {
  }

  lemma OneCollected(m: Machine, deadline: real)
    requires m.s.timers != [] && m.s.timers[0].when <= deadline <= m.s.clock
    ensures var m' := PopDue(m, deadline);
      && Collect(m', deadline) == Collect(m, deadline)
      && |m'.s.timers| < |m.s.timers| && m'.s.cancelled == m.s.cancelled
  {
  }

  lemma {:induction false} SkipKeeps(m: Machine)
    ensures Skip(m) == m.(s := m.s.(timers := Skip(m).s.timers), count := Skip(m).count)
    decreases |m.s.timers|
  {
    if m.s.timers != [] && m.s.timers[0].handle in m.s.cancelled { SkipKeeps(DropTop(m)); }
  }

  lemma SkipCompacted(s: Sched, flags: Flags)
    ensures var m := Machine(Next(s, Step.Compact), 0, flags); Skip(m) == m
  {
    CompactedLive(s);
    var s' := Next(s, Step.Compact);
    assert s'.timers != [] ==> s'.timers[0] in s'.timers;
  }

  // ----- collecting what is due

  /** The uncancelled timers due by `deadline`, earliest first. */
  ghost function Due(timers: seq<TimerEntry>, cancelled: set<nat>, deadline: real): (r: seq<Callback>) {
    if timers == [] || deadline < timers[0].when then []
    else
      var rest := Due(timers[1..], cancelled, deadline);
      (if timers[0].handle in cancelled then [] else [Timer(timers[0].handle)]) + rest
  }

  /** Collecting moves exactly the live due timers, in deadline order, and leaves only later ones. */
  lemma {:induction false} CollectMovesDue(m: Machine, deadline: real)
    requires Sorted(m.s.timers) && deadline <= m.s.clock
    ensures var s' := Collect(m, deadline).s;
      && s'.ready == m.s.ready + Due(m.s.timers, m.s.cancelled, deadline)
      && (forall e :: e in s'.timers <==> e in m.s.timers && deadline < e.when)
      && s'.clock == m.s.clock && s'.cancelled == m.s.cancelled && s'.inbox == m.s.inbox
    decreases |m.s.timers|
  {
    var s := m.s;
    if s.timers == [] || deadline < s.timers[0].when {
      assert forall e :: e in s.timers ==> deadline < e.when;
    } else {
      PopOne(s, deadline);
      hide Next;
      var next := PopDue(m, deadline);
      assert s.timers == [s.timers[0]] + s.timers[1..];
      CollectMovesDue(next, deadline);
      assert next.s.ready + Due(s.timers[1..], s.cancelled, deadline) == s.ready + Due(s.timers, s.cancelled, deadline);
    }
  }

  lemma PopOne(s: Sched, deadline: real)
    requires s.timers != [] && s.timers[0].when <= deadline <= s.clock
    ensures var next := Next(s, Step.PopDue(deadline));
      && next.timers == s.timers[1..] && next.clock == s.clock && next.cancelled == s.cancelled && next.inbox == s.inbox
      && next.ready == s.ready + if s.timers[0].handle in s.cancelled then [] else [Timer(s.timers[0].handle)]
  {
  }

  lemma FiredReady(m: Machine)
    requires Sorted(m.s.timers)
    ensures Fired(m).s.ready == m.s.ready + Due(m.s.timers, m.s.cancelled, m.s.clock)
  {
    CollectMovesDue(m, m.s.clock);
    SkipKeeps(Collect(m, m.s.clock));
  }

  /** A compacted heap holds no cancelled timer. */
  lemma CompactedLive(s: Sched)
    ensures var s' := Next(s, Step.Compact);
      && s'.cancelled == s.cancelled && (forall e :: e in s'.timers ==> e.handle !in s.cancelled)
  {
    var s' := Next(s, Step.Compact);
    forall e | e in s'.timers ensures e.handle !in s.cancelled {
      KeepMembers(s.timers, Retired(s.cancelled), e);
    }
  }

  /** Cancelling enough of the timers compacts the heap: none that is cancelled stays in it. */
  lemma CrowdedIsCompacted(m: Machine, id: nat)
    requires id !in m.s.cancelled && HasHandle(m.s.timers, id) && Crowds(m.count + 1, m.s.timers)
    ensures var m' := Cancelled(m, id);
      m'.count == 0 && forall e :: e in m'.s.timers ==> e.handle !in m'.s.cancelled
  {
    CompactedLive(Next(m.s, Step.Cancel(id)));
  }

  // ----- the count of cancelled timers

  function Tally(timers: seq<TimerEntry>, cancelled: set<nat>): (n: nat) {
    if timers == [] then 0
    else (if timers[0].handle in cancelled then 1 else 0) + Tally(timers[1..], cancelled)
  }

  ghost predicate AllCreated(ids: set<nat>, created: nat) {
    forall id :: id in ids ==> id < created
  }

  /** The heap's count is the number of cancelled timers in it, and only timers that exist are cancelled. */
  ghost predicate Exact(m: Machine) {
    && TimersOk(m.s) && ArrivesOnce(m.s)
    && m.count == Tally(m.s.timers, m.s.cancelled)
    && AllCreated(m.s.cancelled, |m.s.scheduled|)
  }

  lemma {:induction false} TallyInsert(e: TimerEntry, timers: seq<TimerEntry>, cancelled: set<nat>)
    requires e.handle !in cancelled
    ensures Tally(Insert(e, timers), cancelled) == Tally(timers, cancelled)
  {
    if timers == [] {
    } else if Before(e, timers[0]) {
      assert ([e] + timers)[1..] == timers;
    } else {
      TallyInsert(e, timers[1..], cancelled);
    }
  }

  ghost predicate Distinct(timers: seq<TimerEntry>) {
    forall i, j :: 0 <= i < j < |timers| ==> timers[i].handle != timers[j].handle
  }

  lemma OncePending(s: Sched)
    requires TimersOk(s) && ArrivesOnce(s)
    ensures Distinct(s.timers)
  {
    forall i, j | 0 <= i < j < |s.timers| ensures s.timers[i].handle != s.timers[j].handle {
      assert Before(s.timers[i], s.timers[j]);
    }
  }

  lemma {:induction false} TallyCancel(timers: seq<TimerEntry>, cancelled: set<nat>, id: nat)
    requires Distinct(timers) && id !in cancelled
    ensures Tally(timers, cancelled + {id}) == Tally(timers, cancelled) + if HasHandle(timers, id) then 1 else 0
  {
    if timers == [] {
    } else {
      var rest := timers[1..];
      assert timers == [timers[0]] + rest;
      assert HasHandle(timers, id) <==> timers[0].handle == id || HasHandle(rest, id);
      TallyCancel(rest, cancelled, id);
    }
  }

  lemma {:induction false} TallyLive(timers: seq<TimerEntry>, cancelled: set<nat>)
    requires forall e :: e in timers ==> e.handle !in cancelled
    ensures Tally(timers, cancelled) == 0
  {
    if timers == [] {
    } else {
      TallyLive(timers[1..], cancelled);
    }
  }

  lemma NextIsSafe(s: Sched, step: Step)
    requires TimersOk(s) && ArrivesOnce(s)
    ensures TimersOk(Next(s, step)) && ArrivesOnce(Next(s, step))
  {
    NextKeepsTimers(s, step);
    NextArrivesOnce(s, step);
  }

  /** A step that touches neither the heap nor the cancelled flags, and creates timers at most. */
  lemma SameTally(m: Machine, step: Step, flags: Flags)
    requires Exact(m) && Next(m.s, step).timers == m.s.timers && Next(m.s, step).cancelled == m.s.cancelled
    ensures Exact(Machine(Next(m.s, step), m.count, flags))
  {
    hide TimersOk, ArrivesOnce, Tally;
    NextIsSafe(m.s, step);
    MoreCreated(m.s.cancelled, m.s, step);
  }

  lemma DropTopExact(m: Machine)
    requires Exact(m) && m.s.timers != [] && m.s.timers[0].handle in m.s.cancelled
    ensures Exact(DropTop(m))
  {
    hide TimersOk, ArrivesOnce;
    NextIsSafe(m.s, Step.DropTop);
  }

  lemma PopDueExact(m: Machine, deadline: real)
    requires Exact(m) && m.s.timers != [] && m.s.timers[0].when <= deadline <= m.s.clock
    ensures Exact(PopDue(m, deadline))
  {
    hide TimersOk, ArrivesOnce;
    NextIsSafe(m.s, Step.PopDue(deadline));
  }

  lemma {:induction false} SkipExact(m: Machine)
    requires Exact(m)
    ensures Exact(Skip(m))
    decreases |m.s.timers|
  {
    if m.s.timers != [] && m.s.timers[0].handle in m.s.cancelled {
      DropTopExact(m);
      SkipExact(DropTop(m));
    }
  }

  lemma {:induction false} CollectExact(m: Machine, deadline: real)
    requires Exact(m)
    ensures Exact(Collect(m, deadline))
    decreases |m.s.timers|
  {
    if m.s.timers != [] && m.s.timers[0].when <= deadline <= m.s.clock {
      PopDueExact(m, deadline);
      CollectExact(PopDue(m, deadline), deadline);
    }
  }

  /** A firing timer keeps the count exact. */
  lemma FiredExact(m: Machine)
    requires Exact(m)
    ensures Exact(Fired(m))
  {
    hide Exact;
    CollectExact(m, m.s.clock);
    SkipExact(Collect(m, m.s.clock));
  }

  /** A step keeps the count exact if it changes the number of cancelled timers in the heap as it changes the count. */
  lemma StepExact(m: Machine, step: Step, count: nat)
    requires Exact(m) && count == Tally(Next(m.s, step).timers, Next(m.s, step).cancelled)
    requires AllCreated(Next(m.s, step).cancelled, |m.s.scheduled|)
    ensures Exact(m.(s := Next(m.s, step), count := count))
  {
    hide TimersOk, ArrivesOnce, Tally;
    NextIsSafe(m.s, step);
    MoreCreated(Next(m.s, step).cancelled, m.s, step);
  }

  lemma MoreCreated(ids: set<nat>, s: Sched, step: Step)
    requires AllCreated(ids, |s.scheduled|)
    ensures AllCreated(ids, |Next(s, step).scheduled|)
  {
    NextFollows(s, step);
  }

  lemma PushedTally(s: Sched, when: real, alreadyDue: bool)
    requires AllCreated(s.cancelled, |s.scheduled|)
    ensures var s' := Next(s, Schedule(when, alreadyDue));
      s'.cancelled == s.cancelled && Tally(s'.timers, s.cancelled) == Tally(s.timers, s.cancelled)
  {
    hide Insert, Tally;
    var e := TimerEntry(when, s.order + 1, |s.scheduled|);
    assert e.handle !in s.cancelled;
    TallyInsert(e, s.timers, s.cancelled);
  }

  lemma RescheduledExact(m: Machine, when: real, alreadyDue: bool)
    requires Exact(m)
    ensures Exact(Rescheduled(m, when, alreadyDue))
  {
    hide TimersOk, ArrivesOnce, Tally, Next;
    PushedTally(m.s, when, alreadyDue);
    StepExact(m, Schedule(when, alreadyDue), m.count);
    hide Exact;
    SkipExact(m.(s := Next(m.s, Schedule(when, alreadyDue))));
  }

  lemma FlaggedTally(s: Sched, id: nat)
    requires TimersOk(s) && ArrivesOnce(s) && id !in s.cancelled
    ensures var s' := Next(s, Step.Cancel(id));
      && s'.timers == s.timers && s'.cancelled == s.cancelled + {id}
      && Tally(s.timers, s'.cancelled) == Tally(s.timers, s.cancelled) + if HasHandle(s.timers, id) then 1 else 0
  {
    OncePending(s);
    hide TimersOk, ArrivesOnce;
    TallyCancel(s.timers, s.cancelled, id);
  }

  lemma CompactedTally(s: Sched)
    ensures var s' := Next(s, Step.Compact); s'.cancelled == s.cancelled && Tally(s'.timers, s.cancelled) == 0
  {
    CompactedLive(s);
    hide Keep;
    TallyLive(Next(s, Step.Compact).timers, s.cancelled);
  }

  lemma CancelledExact(m: Machine, id: nat)
    requires Exact(m) && id < |m.s.scheduled|
    ensures Exact(Cancelled(m, id))
  {
    hide TimersOk, ArrivesOnce, Tally, HasHandle;
    if id !in m.s.cancelled {
      FlaggedTally(m.s, id);
      var s' := Next(m.s, Step.Cancel(id));
      CompactedTally(s');
      var reported := m.count + if HasHandle(m.s.timers, id) then 1 else 0;
      StepExact(m, Step.Cancel(id), reported);
      hide Next;
      StepExact(m.(s := s', count := reported), Step.Compact, 0);
    }
  }

  /** A call that nothing re-enters keeps the count exact. */
  lemma ApplyExact(m: Machine, call: Call)
    requires Exact(m)
    ensures Exact(Apply(m, call))
  {
    hide TimersOk, ArrivesOnce, Tally, Rescheduled, Cancelled;
    match call
    case Soon(id) => SameTally(m, Step.CallSoon(id), m.flags);
    case Threadsafe(id) => SameTally(m, Step.CallSoonThreadsafe(id), m.flags);
    case Elapse(time) => SameTally(m, Tick(time), m.flags);
    case At(when) => RescheduledExact(m, when, when <= m.s.clock);
    case Later(delay) => RescheduledExact(m, m.s.clock + (if delay > 0.0 then delay else 0.0), delay <= 0.0);
    case CancelTimer(id) => if id < |m.s.scheduled| { CancelledExact(m, id); }
    case _ =>
  }

  lemma {:induction false} ApplyAllExact(m: Machine, calls: seq<Nested>)
    requires Exact(m)
    ensures Exact(ApplyAll(m, calls))
  {
    hide Exact, Apply;
    if calls == [] {
    } else {
      ApplyAllExact(m, calls[..|calls| - 1]);
      ApplyExact(ApplyAll(m, calls[..|calls| - 1]), calls[|calls| - 1].call);
    }
  }

  /** And so does running what is ready. */
  lemma {:induction false} RanExact(m: Machine, behaviour: nat -> Reaction, start: nat, n: nat)
    requires Exact(m)
    ensures Exact(Ran(m, behaviour, start, n))
    decreases n
  {
    hide TimersOk, ArrivesOnce, Tally, ApplyAll;
    if n > 0 {
      RanExact(m, behaviour, start, n - 1);
      var m' := Ran(m, behaviour, start, n - 1);
      if m'.s.ready != [] {
        SameTally(m', Step.Dequeue, m'.flags);
        ApplyAllExact(m'.(s := Next(m'.s, Step.Dequeue)), behaviour(start + n - 1).calls);
      }
    }
  }

  lemma StartedExact(m: Machine)
    requires Exact(m)
    ensures Exact(Started(m))
  {
    SkipExact(m.(flags := m.flags.(stopping := false)));
  }

  lemma FinishedExact(m: Machine, flushing: seq<Nested>)
    requires Exact(m)
    ensures Exact(Finished(m, flushing))
  {
    hide TimersOk, ArrivesOnce, Tally, ApplyAll;
    ApplyAllExact(m.(flags := m.flags.(stopping := false)), flushing);
  }
}
