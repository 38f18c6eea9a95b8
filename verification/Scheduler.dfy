/** The loop's scheduler: ready queue, inbox, timers and the idle drain, updated in place. */
module Scheduler {
  import opened Options
  import opened TimerOrder
  import opened HeapOrder
  import opened TimerHeap
  import opened ReadyRing
  import opened SchedulerSteps
  import opened SchedulerAlone
  import opened SchedulerTurns
  import opened TimerArming

  const MIN_CANCELLED_TIMERS := 100
  const BATCH_LIMIT := 64
  const IO_BATCH_LIMIT := 256
  const IO_TIME_LIMIT_NS := 25 * 1000
  const CALLBACK_LIMIT := 16 * 1024

  class Loop {
    const ready: Ready<Callback>
    const inbox: Ready<Callback>
    const timers: Timers
    var wakerPending: bool
    var idleActive: bool
    var timerActive: bool
    var expiry: real
    var clock: real
    /** The CANCELLED flag of every timer, by id, and the number of timers created. */
    var cancelled: set<nat>
    var created: nat
    /** The in-heap flag of every timer, by id. */
    var inHeap: set<nat>
    var stopping: bool
    var fatal: bool
    var externalHandles: nat
    var closingHandles: nat
    var dnsRequests: bool
    var flushPending: bool

    ghost var registered: seq<Callback>
    ghost var dequeued: seq<Callback>
    ghost var scheduled: seq<real>
    ghost var arrivals: seq<Arrival>
    /** When the libuv timer was last set. */
    ghost var armedAt: real
    /** Every atomic step the loop has taken. */
    ghost var history: seq<Step>

    ghost function Frame(): set<object>
      reads this, ready, inbox, timers
    {
      {this, ready, ready.items, inbox, inbox.items, timers, timers.items}
    }

    ghost function Snap(): Sched
      reads this`wakerPending, this`clock, this`cancelled, this`registered, this`dequeued, this`scheduled,
        this`arrivals,
        ready`queue, inbox`queue, timers`sorted, timers`order
    {
      Sched(ready.queue, inbox.queue, wakerPending, timers.sorted, timers.order, clock, cancelled,
            registered, dequeued, scheduled, arrivals)
    }

    ghost function Whole(): Machine
      reads this`wakerPending, this`clock, this`cancelled, this`registered, this`dequeued, this`scheduled,
        this`arrivals, this`stopping, this`fatal, this`externalHandles, this`closingHandles, this`dnsRequests,
        this`flushPending, ready`queue, inbox`queue, timers`sorted, timers`order, timers`cancelled
    {
      Machine(Snap(), timers.cancelled,
              Flags(stopping, fatal, externalHandles, closingHandles, dnsRequests, flushPending))
    }

    ghost predicate Rings()
      reads ready, ready.items, inbox, inbox.items
    {
      ready != inbox && ready.items != inbox.items && ready.Valid() && inbox.Valid()
    }

    ghost predicate Structured()
      reads this`created, this`scheduled, ready, ready.items, inbox, inbox.items, timers, timers.items
    {
      ready != inbox && Rings() && timers.Valid() && created == |scheduled|
    }

    /** The data structures are sound, and the state is what the recorded steps lead to. */
    ghost predicate Valid()
      reads this`wakerPending, this`clock, this`cancelled, this`registered, this`dequeued, this`scheduled,
        this`arrivals,
        this`created, this`inHeap, this`history, ready, ready.items, inbox, inbox.items, timers, timers.items
    {
      Structured() && Snap() == Exec(INITIAL, history) && Flagged()
    }

    ghost predicate Flagged()
      reads this`inHeap, timers`sorted
    {
      FlagsTell(inHeap, timers.sorted)
    }

    /** The state of the libuv timer. */
    ghost function Arming(): (bool, real, real)
      reads this`timerActive, this`expiry, this`armedAt
    {
      (timerActive, expiry, armedAt)
    }

    /** The libuv timer is active exactly when a timer is pending, and set for the earliest deadline. */
    ghost predicate TimerSettled()
      reads this`timerActive, this`expiry, this`armedAt, this`clock, timers
    {
      && (timerActive <==> timers.sorted != [])
      && (timerActive ==> armedAt <= clock && expiry == Expiry(armedAt, timers.sorted[0].when))
    }

    /** The armed expiry is late for no pending timer, and early only where the conversion saturates. */
    ghost predicate ArmedInTime()
      reads this, timers
    {
      timerActive ==>
        && armedAt <= clock && timers.sorted != []
        && (forall e :: e in timers.sorted ==> expiry <= armedAt || expiry <= e.when + 0.002)
        && (expiry >= timers.sorted[0].when <==> (timers.sorted[0].when - armedAt) * 1000.0 <= 18446744073709551615.0)
    }

    lemma SettledIsInTime()
      requires Valid() && TimerSettled()
      ensures ArmedInTime()
    {
      if timerActive {
        ExpiryBounds(armedAt, timers.sorted[0].when);
        forall e | e in timers.sorted ensures timers.sorted[0].when <= e.when {
          TopIsEarliest(timers.sorted, e);
        }
      }
    }

    /** Ready callbacks keep the idle handle active. */
    ghost predicate IdleSettled()
      reads this, ready
    {
      ready.queue != [] ==> idleActive
    }

    /** What the idle drain looks at between two batches. */
    ghost function Now(): Moment
      reads this`stopping, this`fatal, this`timerActive, this`externalHandles, this`closingHandles, this`dnsRequests,
        this`flushPending, ready`queue
    {
      Moment(ready.queue, stopping, fatal, timerActive, dnsRequests, flushPending, closingHandles, externalHandles)
    }

    constructor ()
      ensures Valid() && TimerSettled() && IdleSettled() && fresh(Frame())
      ensures Whole() == Machine(INITIAL, 0, Flags(false, false, 0, 0, false, false)) && !timerActive && !idleActive
    {
      hide Ready.Valid, Timers.Valid;
      ready := new Ready<Callback>();
      inbox := new Ready<Callback>();
      timers := new Timers();
      wakerPending, idleActive, timerActive, expiry, clock, armedAt := false, false, false, 0.0, 0.0, 0.0;
      cancelled, created, inHeap, stopping, fatal := {}, 0, {}, false, false;
      externalHandles, closingHandles, dnsRequests, flushPending := 0, 0, false, false;
      registered, dequeued, scheduled, arrivals, history := [], [], [], [], [];
    }

    /** Every run of the loop keeps the order, deadline and conservation properties. */
    lemma Safe()
      requires Valid()
      ensures Fifo(Snap()) && TimersOk(Snap()) && ArrivesOnce(Snap()) && ArrivalsQueued(Snap())
    {
      EveryRun(history);
    }

    /** What has happened stays so, and an entry that left the heap stays away. */
    twostate lemma Onward()
      requires old(Valid()) && Valid() && old(history) <= history
      ensures Follows(old(Snap()), Snap())
    {
      ExecFollows(old(history), history);
    }

    ghost method Record(step: Step, before: Sched)
      requires before == Exec(INITIAL, history) && Snap() == Next(before, step)
      modifies this`history
      ensures history == old(history) + [step] && Snap() == Exec(INITIAL, history)
    {
      assert (history + [step])[..|history|] == history;
      history := history + [step];
    }

    method StartIdle()
      requires Rings()
      modifies this`idleActive
      ensures idleActive == (old(idleActive) || ready.queue != [])
    {
      if !idleActive && ready.len != 0 { idleActive := true; }
    }

    method DrainThreadsafe()
      requires Rings()
      modifies ready, ready.items, inbox
      ensures Rings() && (fresh(ready.items) || ready.items == old(ready.items)) && inbox.items == old(inbox.items)
      ensures ready.queue == old(ready.queue + inbox.queue) && inbox.queue == []
    {
      ready.EnsureUnusedCapacity(inbox.len);
      MoveAll(inbox, ready);
    }

    method PushReady(callback: Callback)
      requires Rings()
      modifies ready, ready.items
      ensures Rings() && (fresh(ready.items) || ready.items == old(ready.items))
      ensures ready.queue == old(ready.queue) + [callback]
    {
      hide Ready.Valid;
      ready.Push(callback);
    }

    method PopReady() returns (callback: Option<Callback>)
      requires Rings()
      modifies ready, ready.items
      ensures Rings() && ready.items == old(ready.items)
      ensures if old(ready.queue) == [] then callback == None && ready.queue == []
              else callback == Some(old(ready.queue)[0]) && ready.queue == old(ready.queue)[1..]
    {
      hide Ready.Valid;
      callback := ready.Pop();
    }

    method PushInbox(callback: Callback)
      requires Rings()
      modifies inbox, inbox.items
      ensures Rings() && (fresh(inbox.items) || inbox.items == old(inbox.items))
      ensures inbox.queue == old(inbox.queue) + [callback]
    {
      hide Ready.Valid;
      inbox.Push(callback);
    }

    method EnqueueBehindInbox(callback: Callback)
      requires Rings()
      modifies ready, ready.items, inbox
      ensures Rings() && (fresh(ready.items) || ready.items == old(ready.items)) && inbox.items == old(inbox.items)
      ensures ready.queue == old(ready.queue + inbox.queue) + [callback] && inbox.queue == []
    {
      hide Loop.Rings;
      DrainThreadsafe();
      PushReady(callback);
    }

    /** The buffers are the ones from before, or new ones. */
    twostate predicate Renewed()
      reads ready, inbox, timers
    {
      && (ready.items == old(ready.items) || fresh(ready.items))
      && (inbox.items == old(inbox.items) || fresh(inbox.items))
      && (timers.items == old(timers.items) || fresh(timers.items))
    }

    /** What re-entering the loop may do: extend the ready queue and the history, never shorten them. */
    twostate predicate Grew()
      reads this, ready
    {
      && old(ready.queue) <= ready.queue && dequeued == old(dequeued)
      && old(history) <= history && old(cancelled) <= cancelled && old(clock) <= clock
      && (old(stopping) ==> stopping) && (old(fatal) ==> fatal)
    }

    // ----- atomic steps

    method ScheduleSoon(id: nat)
      requires Valid()
      modifies this`idleActive, this`registered, this`history, ready, ready.items, inbox
      ensures Valid() && Renewed() && Grew() && IdleSettled()
      ensures registered == old(registered) + [Callback.Soon(id)]
      ensures Snap() == Next(old(Snap()), Step.CallSoon(id)) && history == old(history) + [Step.CallSoon(id)]
      ensures Arming() == old(Arming())
    {
      hide Exec, Next, Loop.Rings, Timers.Valid, FlagsTell;
      ghost var before := Snap();
      EnqueueBehindInbox(Callback.Soon(id));
      StartIdle();
      registered := registered + [Callback.Soon(id)];
      StepQueues(before, id);
      Record(Step.CallSoon(id), before);
    }

    method CallSoonThreadsafe(id: nat)
      requires Valid()
      modifies this`wakerPending, this`registered, this`history, inbox, inbox.items
      ensures Valid() && Renewed() && Grew()
      ensures registered == old(registered) + [ThreadSafe(id)] && ready.queue == old(ready.queue)
      ensures Snap() == Next(old(Snap()), Step.CallSoonThreadsafe(id))
      ensures history == old(history) + [Step.CallSoonThreadsafe(id)]
      ensures Arming() == old(Arming()) && idleActive == old(idleActive)
    {
      hide Exec, Next, Loop.Rings, Timers.Valid, FlagsTell;
      ghost var before := Snap();
      PushInbox(ThreadSafe(id));
      if !wakerPending { wakerPending := true; }
      registered := registered + [ThreadSafe(id)];
      StepPosts(before, id);
      Record(Step.CallSoonThreadsafe(id), before);
    }

    method OnWake()
      requires Valid()
      modifies this`wakerPending, this`idleActive, this`history, ready, ready.items, inbox
      ensures Valid() && Renewed() && Grew() && IdleSettled()
      ensures Snap() == Next(old(Snap()), Wake)
      ensures Arming() == old(Arming())
    {
      hide Exec, Next, Loop.Rings, Timers.Valid, FlagsTell;
      ghost var before := Snap();
      wakerPending := false;
      DrainThreadsafe();
      StartIdle();
      StepWakes(before);
      Record(Wake, before);
    }

    /** A due timer goes straight to the ready queue. */
    method BypassHeap(when: real)
      requires Valid() && when <= clock && Bypasses(Snap(), when, true)
      modifies this`idleActive, this`arrivals, this`created, this`scheduled, this`history, ready, ready.items
      ensures Valid() && Renewed() && Grew() && IdleSettled()
      ensures Snap() == Next(old(Snap()), Schedule(when, true)) && scheduled == old(scheduled) + [when]
      ensures history == old(history) + [Schedule(when, true)] && (old(TimerSettled()) ==> TimerSettled())
    {
      hide Exec, Next, Loop.Structured, FlagsTell;
      ghost var before := Snap();
      ArriveAtOnce(when);
      StepBypasses(before, when);
      Record(Schedule(when, true), before);
    }

    method ArriveAtOnce(when: real)
      requires Structured()
      modifies this`idleActive, this`arrivals, this`created, this`scheduled, ready, ready.items
      ensures Structured() && Renewed() && IdleSettled()
      ensures Snap() == old(Snap()).(ready := old(ready.queue) + [Callback.Timer(|old(scheduled)|)],
                                     scheduled := old(scheduled) + [when],
                                     arrivals := old(arrivals) + [Arrival(|old(scheduled)|, when, clock)])
    {
      hide Loop.Rings, Timers.Valid;
      PushReady(Callback.Timer(created));
      StartIdle();
      arrivals := arrivals + [Arrival(created, when, clock)];
      created := created + 1;
      scheduled := scheduled + [when];
    }

    method PushTimer(when: real, alreadyDue: bool)
      requires Valid() && (alreadyDue ==> when <= clock) && !Bypasses(Snap(), when, alreadyDue)
      modifies this`inHeap, this`created, this`scheduled, this`history, timers, timers.items
      ensures Valid() && Renewed() && Grew()
      ensures Snap() == Next(old(Snap()), Schedule(when, alreadyDue)) && timers.cancelled == old(timers.cancelled)
      ensures history == old(history) + [Schedule(when, alreadyDue)] && scheduled == old(scheduled) + [when]
      ensures old(IdleSettled()) ==> IdleSettled()
    {
      hide Exec, Insert, Loop.Rings, Timers.Valid, FlagsTell;
      ghost var before := Snap();
      FlagPushed(inHeap, timers.sorted, TimerEntry(when, timers.order + 1, created));
      inHeap := inHeap + {created};
      timers.Push(when, created);
      created := created + 1;
      scheduled := scheduled + [when];
      Record(Schedule(when, alreadyDue), before);
    }

    lemma PopClearsFlag()
      requires Valid() && timers.sorted != []
      ensures FlagsTell(inHeap - {timers.sorted[0].handle}, timers.sorted[1..])
    {
      hide FlagsTell, Exec, TimersOk, ArrivesOnce, Fifo;
      Safe();
      FlagPopped(Snap(), inHeap);
    }

    /** Pops the earliest timer, which is cancelled. */
    method DropTop() returns (handle: Handle)
      requires Valid() && timers.sorted != [] && timers.sorted[0].handle in cancelled
      modifies this`inHeap, this`history, timers, timers.items
      ensures Valid() && Renewed() && Grew()
      ensures Snap() == Next(old(Snap()), Step.DropTop) && history == old(history) + [Step.DropTop]
      ensures timers.cancelled == old(timers.cancelled)
      ensures idleActive == old(idleActive) && handle == old(timers.sorted)[0].handle
    {
      hide Exec, Loop.Structured, FlagsTell;
      ghost var before := Snap();
      PopClearsFlag();
      var entry := TakeTop();
      handle := entry.handle;
      Record(Step.DropTop, before);
    }

    /** Pops the earliest timer, which is due: a cancelled one is dropped, a live one becomes ready. */
    method PopDue(deadline: real) returns (dropped: Option<Handle>)
      requires Valid() && timers.sorted != [] && timers.sorted[0].when <= deadline <= clock
      modifies this`inHeap, this`arrivals, this`history, timers, timers.items, ready, ready.items
      ensures Valid() && Renewed() && Grew()
      ensures Snap() == Next(old(Snap()), Step.PopDue(deadline)) && history == old(history) + [Step.PopDue(deadline)]
      ensures dropped.Some? <==> old(timers.sorted)[0].handle in old(cancelled)
      ensures timers.cancelled == old(timers.cancelled)
      ensures idleActive == old(idleActive)
    {
      hide Exec, Next, Loop.Structured, FlagsTell;
      ghost var before := Snap();
      PopClearsFlag();
      var entry := TakeTop();
      dropped := None;
      if entry.handle in cancelled {
        dropped := Some(entry.handle);
      } else {
        Arrive(entry);
      }
      StepPops(before, deadline);
      Record(Step.PopDue(deadline), before);
    }

    /** Takes the earliest timer out of the heap. */
    method TakeTop() returns (entry: TimerEntry)
      requires Structured() && timers.sorted != []
      modifies this`inHeap, timers, timers.items
      ensures Structured() && Renewed() && entry == old(timers.sorted)[0]
      ensures timers.sorted == old(timers.sorted)[1..] && timers.order == old(timers.order)
      ensures inHeap == old(inHeap) - {entry.handle} && timers.cancelled == old(timers.cancelled)
    {
      hide Loop.Rings, Timers.Valid;
      var top := timers.Pop();
      entry := top.value;
      inHeap := inHeap - {entry.handle};
    }

    method Arrive(entry: TimerEntry)
      requires Structured()
      modifies this`arrivals, ready, ready.items
      ensures Structured() && Renewed() && ready.queue == old(ready.queue) + [Callback.Timer(entry.handle)]
      ensures arrivals == old(arrivals) + [Arrival(entry.handle, entry.when, clock)] && inbox.queue == old(inbox.queue)
    {
      hide Loop.Rings, Timers.Valid;
      PushReady(Callback.Timer(entry.handle));
      arrivals := arrivals + [Arrival(entry.handle, entry.when, clock)];
    }

    method CompactTimers() returns (doomed: seq<Handle>)
      requires Valid()
      modifies this`inHeap, this`history, timers, timers.items
      ensures Valid() && Renewed() && Grew()
      ensures Snap() == Next(old(Snap()), Step.Compact) && history == old(history) + [Step.Compact]
      ensures timers.cancelled == 0 && idleActive == old(idleActive) && ready.queue == old(ready.queue)
      ensures |doomed| + |timers.sorted| == |old(timers.sorted)|
    {
      hide Exec, Keep, Dropped, Loop.Rings, Timers.Valid, FlagsTell;
      ghost var before := Snap();
      FlagCompacted(inHeap, timers.sorted, cancelled);
      inHeap := inHeap - cancelled;
      doomed := timers.CompactHeap(Retired(cancelled));
      Record(Step.Compact, before);
    }

    /** Pops the oldest ready callback. */
    method Dequeue() returns (callback: Option<Callback>)
      requires Valid()
      modifies this`dequeued, this`history, ready, ready.items
      ensures Valid() && Renewed()
      ensures Snap() == Next(old(Snap()), Step.Dequeue) && history == old(history) + [Step.Dequeue]
      ensures callback == if old(ready.queue) == [] then None else Some(old(ready.queue)[0])
      ensures (old(IdleSettled()) ==> IdleSettled()) && (old(TimerSettled()) ==> TimerSettled())
    {
      hide Exec, Loop.Rings, Timers.Valid, FlagsTell;
      ghost var before := Snap();
      callback := PopReady();
      if callback.Some? { dequeued := dequeued + [callback.value]; }
      Record(Step.Dequeue, before);
    }

    /** Time passes; the clock never runs backwards. */
    method Advance(time: real)
      requires Valid()
      modifies this`clock, this`history
      ensures Valid() && Renewed() && Grew()
      ensures time <= clock
      ensures Snap() == Next(old(Snap()), Tick(time)) && history == old(history) + [Tick(time)]
      ensures idleActive == old(idleActive) && Arming() == old(Arming())
    {
      hide Exec, Loop.Rings, Timers.Valid, FlagsTell;
      ghost var before := Snap();
      if time >= clock { clock := time; }
      Record(Tick(time), before);
    }

    method FlagCancelled(id: nat)
      requires Valid()
      modifies this`cancelled, this`history
      ensures Valid() && Renewed() && Grew()
      ensures Snap() == Next(old(Snap()), Step.Cancel(id)) && history == old(history) + [Step.Cancel(id)]
      ensures id in cancelled && (old(IdleSettled()) ==> IdleSettled()) && (old(TimerSettled()) ==> TimerSettled())
    {
      hide Exec, Loop.Rings, Timers.Valid, FlagsTell;
      ghost var before := Snap();
      cancelled := cancelled + {id};
      Record(Step.Cancel(id), before);
    }

    // ----- operations; Python code may re-enter wherever a handle is released or a callback runs

    /** Points the single libuv timer at the earliest live deadline. */
    method ArmTimer(points: seq<Reaction>)
      requires Valid()
      modifies Frame()
      ensures Valid() && Renewed() && Grew() && TimerSettled()
      ensures timerActive ==> timers.sorted[0].handle !in cancelled && armedAt == clock
      ensures points == [] ==> Whole() == Skip(old(Whole()))
      ensures old(IdleSettled()) ==> IdleSettled()
      decreases points, 1, 1
    {
      hide Loop.Valid, Skip;
      var first := RetireCancelled(points);
      SetLibuvTimer(first);
    }

    method SetLibuvTimer(first: Option<TimerEntry>)
      requires Valid()
      modifies this`timerActive, this`expiry, this`armedAt
      ensures Valid() && timerActive == first.Some? && (timerActive ==> armedAt == clock)
      ensures first.Some? ==> expiry == Expiry(clock, first.value.when)
    {
      hide Loop.Valid;
      if first == None {
        if timerActive { timerActive := false; }
        return;
      }
      expiry := clock + TimerMilliseconds(first.value.when - clock, 1) as real / 1000.0;
      timerActive := true;
      armedAt := clock;
    }

    /** Pops cancelled timers until the earliest one is live. */
    method RetireCancelled(points: seq<Reaction>) returns (first: Option<TimerEntry>)
      requires Valid()
      modifies Frame()
      ensures Valid() && Renewed() && Grew()
      ensures first == if timers.sorted == [] then None else Some(timers.sorted[0])
      ensures first.Some? ==> first.value.handle !in cancelled
      ensures points == [] ==> Whole() == Skip(old(Whole()))
      ensures old(IdleSettled()) ==> IdleSettled()
      decreases points, 1, 0
    {
      hide Loop.Valid, Skip;
      var k := 0;
      first := PeekTimer();
      while first.Some? && first.value.handle in cancelled
        invariant Valid() && Renewed() && Grew()
        invariant first == if timers.sorted == [] then None else Some(timers.sorted[0])
        invariant points == [] ==> Skip(Whole()) == Skip(old(Whole()))
        invariant old(IdleSettled()) ==> IdleSettled()
        decreases if k < |points| then |points| - k else 0, |timers.sorted|
      {
        RetireTop(points, k);
        k := k + 1;
        first := PeekTimer();
      }
      SkipDone(Whole());
    }

    /** Pops one cancelled timer and releases its handle, whose finalizers may call the loop. */
    method RetireTop(points: seq<Reaction>, k: nat)
      requires Valid() && timers.sorted != [] && timers.sorted[0].handle in cancelled
      modifies Frame()
      ensures Valid() && Renewed() && Grew()
      ensures k >= |points| ==> Skip(Whole()) == Skip(old(Whole())) && |timers.sorted| < |old(timers.sorted)|
      ensures old(history) + [Step.DropTop] <= history
      ensures k < |points| ==> Lasts(points[k].calls, old(created), Whole())
      ensures old(IdleSettled()) ==> IdleSettled()
      decreases points, 0
    {
      hide Loop.Valid, Skip, Next;
      TopDropped(Whole());
      var handle := DropTop();
      if k < |points| { React(points[k]); }
      CountRetired();
    }

    method CountRetired()
      requires Valid()
      modifies timers`cancelled
      ensures Valid() && timers.cancelled == Less(old(timers.cancelled))
    {
      hide Exec, Loop.Rings, FlagsTell;
      timers.NoteRetired();
    }

    method PeekTimer() returns (first: Option<TimerEntry>)
      requires Valid()
      ensures first == if timers.sorted == [] then None else Some(timers.sorted[0])
    {
      first := timers.Peek();
    }

    /** Python code running in the middle of one of the loop's operations. */
    method React(reaction: Reaction)
      requires Valid()
      modifies Frame()
      ensures Valid() && Renewed() && Grew() && Lasts(reaction.calls, old(created), Whole())
      ensures Flat(reaction.calls) ==> Whole() == ApplyAll(old(Whole()), reaction.calls)
      ensures old(IdleSettled()) ==> IdleSettled()
      ensures old(TimerSettled()) ==> TimerSettled()
      decreases reaction, 1
    {
      hide Loop.Valid, Lasting, Apply;
      var i := 0;
      while i < |reaction.calls|
        invariant 0 <= i <= |reaction.calls| && old(created) <= created
        invariant Valid() && Renewed() && Grew() && Lasts(reaction.calls[..i], old(created), Whole())
        invariant Flat(reaction.calls) ==> Whole() == ApplyAll(old(Whole()), reaction.calls[..i])
        invariant old(IdleSettled()) ==> IdleSettled()
        invariant old(TimerSettled()) ==> TimerSettled()
      {
        DoNth(reaction, i, old(created));
        assert reaction.calls[..i + 1][..i] == reaction.calls[..i];
        i := i + 1;
      }
      assert reaction.calls[..i] == reaction.calls;
    }

    method DoNth(reaction: Reaction, i: nat, ghost known: nat)
      requires Valid() && i < |reaction.calls| && Lasts(reaction.calls[..i], known, Whole()) && known <= created
      modifies Frame()
      ensures Valid() && Renewed() && Grew() && Lasts(reaction.calls[..i + 1], known, Whole()) && known <= created
      ensures reaction.calls[i].inner == [] ==> Whole() == Apply(old(Whole()), reaction.calls[i].call)
      ensures old(IdleSettled()) ==> IdleSettled()
      ensures old(TimerSettled()) ==> TimerSettled()
      decreases reaction, 0
    {
      hide Loop.Valid, Apply, Follows;
      Do(reaction.calls[i].call, reaction.calls[i].inner);
      CreatedGrows();
      Onward();
      StillLasts(reaction.calls[..i], known, old(Whole()), Whole());
      assert Lasts([reaction.calls[i]], old(created), Whole());
      FewerKnown([reaction.calls[i]], old(created), known, Whole());
      assert reaction.calls[..i + 1] == reaction.calls[..i] + [reaction.calls[i]];
    }

    /** One call, with the effect of the operation it stands for. */
    method Do(call: Call, points: seq<Reaction>)
      requires Valid()
      modifies Frame()
      ensures Valid() && Renewed() && Grew() && Lasting(call, old(created), Whole())
      ensures call.Soon? || call.Threadsafe? || call.Elapse? || call.Handles? || points == [] ==>
        Whole() == Apply(old(Whole()), call)
      ensures old(IdleSettled()) ==> IdleSettled()
      ensures old(TimerSettled()) ==> TimerSettled()
      decreases points, 3
    {
      hide Loop.Valid, Loop.IdleSettled, Loop.TimerSettled, Next, Rescheduled, Cancelled;
      if call.Soon? || call.Threadsafe? || call.Elapse? {
        DoQueue(call);
      } else if call.Stop? || call.Fail? || call.Handles? {
        SetFlag(call);
      } else {
        DoTimer(call, points);
      }
    }

    /** A call that touches no timer. */
    method DoQueue(call: Call)
      requires Valid() && (call.Soon? || call.Threadsafe? || call.Elapse?)
      modifies Frame()
      ensures Valid() && Renewed() && Grew() && Lasting(call, created, Whole()) && Whole() == Apply(old(Whole()), call)
      ensures old(IdleSettled()) ==> IdleSettled()
      ensures old(TimerSettled()) ==> TimerSettled()
    {
      hide Loop.Valid, Next;
      match call {
        case Soon(id) => ScheduleSoon(id);
        case Threadsafe(id) => CallSoonThreadsafe(id);
        case Elapse(time) => Advance(time);
      }
    }

    /** A call that only sets flags. */
    method SetFlag(call: Call)
      requires Valid() && (call.Stop? || call.Fail? || call.Handles?)
      modifies this`stopping, this`fatal, this`externalHandles, this`closingHandles, this`dnsRequests, this`flushPending
      ensures Valid() && Lasting(call, created, Whole()) && Whole() == Apply(old(Whole()), call)
      ensures (old(IdleSettled()) ==> IdleSettled()) && (old(TimerSettled()) ==> TimerSettled())
      ensures (old(stopping) ==> stopping) && (old(fatal) ==> fatal)
    {
      hide Loop.Valid, Next, Rescheduled, Cancelled;
      match call {
        case Stop => Interrupt(false);
        case Fail => Interrupt(true);
        case Handles(external, closing, dns, flush) => SetHandles(external, closing, dns, flush);
      }
    }

    method DoTimer(call: Call, points: seq<Reaction>)
      requires Valid() && (call.At? || call.Later? || call.CancelTimer?)
      modifies Frame()
      ensures Valid() && Renewed() && Grew() && Lasting(call, old(created), Whole())
      ensures points == [] ==> Whole() == Apply(old(Whole()), call)
      ensures old(IdleSettled()) ==> IdleSettled()
      ensures old(TimerSettled()) ==> TimerSettled()
      decreases points, 2, 3
    {
      hide Loop.Valid, Next, Rescheduled, Cancelled;
      match call {
        case At(when) => CallAt(when, points);
        case Later(delay) => CallLater(delay, points);
        case CancelTimer(id) => CancelKnown(id, points);
      }
    }

    /** Only a timer that was created has a handle to cancel it by. */
    method CancelKnown(id: nat, points: seq<Reaction>)
      requires Valid()
      modifies Frame()
      ensures Valid() && Renewed() && Grew() && (id < old(created) ==> id in cancelled)
      ensures points == [] ==> Whole() == Apply(old(Whole()), CancelTimer(id))
      ensures old(IdleSettled()) ==> IdleSettled()
      ensures old(TimerSettled()) ==> TimerSettled()
      decreases points, 2, 2
    {
      assert created == |scheduled|;
      hide Loop.Valid, Cancelled;
      if id < created { CancelTimerHandle(id, points); }
    }

    /** `stop()`, or a fatal exception, which stops the loop as well. */
    method Interrupt(failed: bool)
      requires Valid()
      modifies this`stopping, this`fatal
      ensures Valid() && stopping && fatal == (old(fatal) || failed)
    {
      hide Loop.Valid;
      stopping, fatal := true, fatal || failed;
    }

    method SetHandles(external: nat, closing: nat, dns: bool, flush: bool)
      requires Valid()
      modifies this`externalHandles, this`closingHandles, this`dnsRequests, this`flushPending
      ensures Valid()
      ensures (externalHandles, closingHandles, dnsRequests, flushPending) == (external, closing, dns, flush)
    {
      hide Loop.Valid;
      externalHandles, closingHandles, dnsRequests, flushPending := external, closing, dns, flush;
    }

    method CallLater(delay: real, points: seq<Reaction>)
      requires Valid()
      modifies Frame()
      ensures Valid() && Renewed() && Grew()
      ensures old(history) + [Schedule(old(clock) + (if delay > 0.0 then delay else 0.0), delay <= 0.0)] <= history
      ensures old(scheduled) + [old(clock) + (if delay > 0.0 then delay else 0.0)] <= scheduled
      ensures points == [] ==> Whole() == Apply(old(Whole()), Call.Later(delay))
      ensures old(IdleSettled()) ==> IdleSettled()
      ensures old(TimerSettled()) ==> TimerSettled()
      decreases points, 2, 1
    {
      hide Loop.Valid, Skip, Next;
      ScheduleAt(clock + (if delay > 0.0 then delay else 0.0), delay <= 0.0, points);
    }

    method CallAt(when: real, points: seq<Reaction>)
      requires Valid()
      modifies Frame()
      ensures Valid() && Renewed() && Grew()
      ensures old(history) + [Schedule(when, when <= old(clock))] <= history
      ensures old(scheduled) + [when] <= scheduled && when in scheduled
      ensures points == [] ==> Whole() == Apply(old(Whole()), Call.At(when))
      ensures old(IdleSettled()) ==> IdleSettled()
      ensures old(TimerSettled()) ==> TimerSettled()
      decreases points, 2, 1
    {
      hide Loop.Valid, Skip, Next;
      ScheduleAt(when, when <= clock, points);
      assert scheduled[|old(scheduled)|] == when;
    }

    method ScheduleAt(when: real, alreadyDue: bool, points: seq<Reaction>)
      requires Valid() && (alreadyDue ==> when <= clock)
      modifies Frame()
      ensures Valid() && Renewed() && Grew()
      ensures old(history) + [Schedule(when, alreadyDue)] <= history
      ensures old(scheduled) + [when] <= scheduled && (points == [] ==> scheduled == old(scheduled) + [when])
      ensures !Bypasses(old(Snap()), when, alreadyDue) ==> TimerSettled() && (timerActive ==> armedAt == clock)
      ensures points == [] ==> Whole() == Rescheduled(old(Whole()), when, alreadyDue)
      ensures old(IdleSettled()) ==> IdleSettled()
      ensures old(TimerSettled()) ==> TimerSettled()
      decreases points, 2, 0
    {
      hide Loop.Valid, Loop.IdleSettled, Loop.TimerSettled, Next, Skip;
      if alreadyDue {
        var first := PeekTimer();
        var canBypassHeap := if first.Some? then when < first.value.when else true;
        if canBypassHeap {
          BypassHeap(when);
          return;
        }
      }
      PushTimer(when, alreadyDue);
      RearmTimer(points);
    }

    /** Arms the libuv timer after a timer was pushed. */
    method RearmTimer(points: seq<Reaction>)
      requires Valid()
      modifies Frame()
      ensures Valid() && Renewed() && Grew() && TimerSettled() && old(scheduled) <= scheduled
      ensures timerActive ==> armedAt == clock
      ensures points == [] ==> Whole() == Skip(old(Whole())) && scheduled == old(scheduled)
      ensures old(IdleSettled()) ==> IdleSettled()
      decreases points, 1, 2
    {
      hide Loop.Valid, Skip, Follows;
      SkipKeeps(Whole());
      ArmTimer(points);
      ScheduledKept();
    }

    twostate lemma ScheduledKept()
      requires old(Valid()) && Valid() && old(history) <= history
      ensures old(scheduled) <= scheduled
    {
      Onward();
    }

    /**
     `cancel()` on a timer handle: its callback and arguments are released, which may run finalizers, and only then
     the loop is told, if the timer still sits in the heap.
     */
    method CancelTimerHandle(id: nat, points: seq<Reaction>)
      requires Valid()
      modifies Frame()
      ensures Valid() && Renewed() && Grew() && id in cancelled
      ensures id !in old(cancelled) ==> old(history) + [Step.Cancel(id)] <= history
      ensures points == [] || id in old(cancelled) ==> Whole() == Cancelled(old(Whole()), id)
      ensures points != [] && id !in old(cancelled) ==> Lasts(points[0].calls, old(created), Whole())
      ensures |points| == 1 && Flat(points[0].calls) && id !in old(cancelled) ==>
        Whole() == Reported(ApplyAll(old(Whole()).(s := Next(old(Snap()), Step.Cancel(id))), points[0].calls), id)
      ensures old(IdleSettled()) ==> IdleSettled()
      ensures old(TimerSettled()) ==> TimerSettled()
      decreases points, 2, 1
    {
      hide Loop.Valid, Loop.IdleSettled, Loop.TimerSettled, HasHandle, Noted, Lasts, Flat;
      if id in cancelled { return; }
      FlagCancelled(id);
      if points != [] {
        ReactAndReport(id, points);
      } else {
        Report(id, points);
      }
    }

    /** Finalizers run, and what they do is there when the loop is told. */
    method ReactAndReport(id: nat, points: seq<Reaction>)
      requires Valid() && id in cancelled && points != []
      modifies Frame()
      ensures Valid() && Renewed() && Grew() && Lasts(points[0].calls, old(created), Whole())
      ensures |points| == 1 && Flat(points[0].calls) ==>
        Whole() == Reported(ApplyAll(old(Whole()), points[0].calls), id)
      ensures old(IdleSettled()) ==> IdleSettled()
      ensures old(TimerSettled()) ==> TimerSettled()
      decreases points, 2, 0, 2
    {
      hide Loop.Valid, Loop.IdleSettled, Loop.TimerSettled, HasHandle, Noted, Lasts, Flat, Follows;
      React(points[0]);
      label Reacted:
      Report(id, points[1..]);
      Onward@Reacted();
      StillLasts(points[0].calls, old(created), old@Reacted(Whole()), Whole());
    }

    /** Tells the loop of a cancellation, if the timer still sits in the heap. */
    method Report(id: nat, points: seq<Reaction>)
      requires Valid() && id in cancelled
      modifies Frame()
      ensures Valid() && Renewed() && Grew()
      ensures !HasHandle(old(timers.sorted), id) ==> Whole() == old(Whole())
      ensures HasHandle(old(timers.sorted), id) && (points == [] || !old(Crowding())) ==>
        Whole() == Noted(old(Whole()))
      ensures HasHandle(old(timers.sorted), id) && old(Crowding()) ==> old(history) + [Step.Compact] <= history
      ensures old(IdleSettled()) ==> IdleSettled()
      ensures old(TimerSettled()) ==> TimerSettled()
      decreases points, 2, 0, 1
    {
      hide Loop.Valid, HasHandle, Noted;
      var reported := InHeap(id);
      if reported { NoteTimerCancelled(points); }
    }

    method InHeap(id: nat) returns (b: bool)
      requires Valid()
      ensures b <==> HasHandle(timers.sorted, id)
    {
      hide Exec, Ready.Valid, Timers.Valid;
      return id in inHeap;
    }

    /** One more cancellation makes cancelled timers dominate the heap. */
    ghost predicate Crowding()
      reads timers
    {
      Crowds(timers.cancelled + 1, timers.sorted)
    }

    /** Counts a cancellation; true when cancelled timers dominate the heap. */
    method CountCancelled() returns (crowded: bool)
      requires Valid()
      modifies timers`cancelled
      ensures Valid() && timers.cancelled == old(timers.cancelled) + 1
      ensures crowded <==> old(Crowding())
    {
      hide Exec, Loop.Rings, FlagsTell;
      timers.NoteCancelled();
      SameSize(timers.heap, timers.sorted, timers.order);
      crowded := timers.cancelled > MIN_CANCELLED_TIMERS && timers.cancelled * 2 > timers.len;
    }

    method NoteTimerCancelled(points: seq<Reaction>)
      requires Valid()
      modifies Frame()
      ensures Valid() && Renewed() && Grew()
      ensures points == [] || !old(Crowding()) ==> Whole() == Noted(old(Whole()))
      ensures old(Crowding()) ==> old(history) + [Step.Compact] <= history && TimerSettled()
      ensures old(IdleSettled()) ==> IdleSettled()
      ensures old(TimerSettled()) ==> TimerSettled()
      decreases points, 2, 0, 0
    {
      hide Loop.Valid, Next;
      var crowded := CountCancelled();
      if crowded { CompactAndArm(points); }
    }

    method CompactAndArm(points: seq<Reaction>)
      requires Valid()
      modifies Frame()
      ensures Valid() && Renewed() && Grew() && TimerSettled()
      ensures old(history) + [Step.Compact] <= history
      ensures points == [] ==> Whole() == old(Whole()).(s := Next(old(Snap()), Step.Compact), count := 0)
      ensures AllReleased(points, |old(timers.sorted)| - |Next(old(Snap()), Step.Compact).timers|, old(created))
      ensures old(IdleSettled()) ==> IdleSettled()
      decreases points, 1, 3
    {
      hide Loop.Valid, Skip, Next, Lasts, Follows;
      SkipCompacted(Snap(), Whole().flags);
      ghost var known, n := created, |timers.sorted| - |Next(Snap(), Step.Compact).timers|;
      var k := CompactAndRelease(points);
      label Released:
      ArmTimer(if k == 0 then points else points[k..]);
      Onward@Released();
      forall j | 0 <= j < n && j < |points| ensures Lasts(points[j].calls, known, Whole()) {
        StillLasts(points[j].calls, known, old@Released(Whole()), Whole());
      }
    }

    /** For each of `n` released handles, what its finalizers do has been done. */
    ghost predicate AllReleased(points: seq<Reaction>, n: int, known: nat)
      reads this, ready, inbox, timers
    {
      forall k :: 0 <= k < n && k < |points| ==> Lasts(points[k].calls, known, Whole())
    }

    /** Compacts the heap and releases what it drops; `k` reactions are spent on that. */
    method CompactAndRelease(points: seq<Reaction>) returns (k: nat)
      requires Valid()
      modifies Frame()
      ensures Valid() && Renewed() && Grew() && k <= |points|
      ensures old(history) + [Step.Compact] <= history
      ensures points == [] ==> Whole() == old(Whole()).(s := Next(old(Snap()), Step.Compact), count := 0)
      ensures AllReleased(points, |old(timers.sorted)| - |Next(old(Snap()), Step.Compact).timers|, old(created))
      ensures old(IdleSettled()) ==> IdleSettled()
      decreases points, 1, 2
    {
      hide Loop.Valid, Next, Lasts;
      var doomed := CompactTimers();
      ReleaseAll(doomed, points);
      k := if |doomed| < |points| then |doomed| else |points|;
    }

    /** Releases the handles compaction set aside; the heap is already whole. */
    method ReleaseAll(doomed: seq<Handle>, points: seq<Reaction>)
      requires Valid()
      modifies Frame()
      ensures Valid() && Renewed() && Grew()
      ensures points == [] ==> Whole() == old(Whole())
      ensures forall k :: 0 <= k < |doomed| && k < |points| ==> Lasts(points[k].calls, old(created), Whole())
      ensures old(IdleSettled()) ==> IdleSettled()
      decreases points, 0, 1
    {
      hide Loop.Valid, Lasts, Follows;
      var k := 0;
      while k < |doomed|
        invariant 0 <= k <= |doomed| && old(created) <= created
        invariant Valid() && Renewed() && Grew()
        invariant forall j :: 0 <= j < k && j < |points| ==> Lasts(points[j].calls, old(created), Whole())
        invariant points == [] ==> Whole() == old(Whole())
        invariant old(IdleSettled()) ==> IdleSettled()
      {
        ReleaseNth(points, k, old(created));
        k := k + 1;
      }
    }

    /** Releases one handle. */
    method ReleaseNth(points: seq<Reaction>, k: nat, ghost known: nat)
      requires Valid() && known <= created
      requires forall j :: 0 <= j < k && j < |points| ==> Lasts(points[j].calls, known, Whole())
      modifies Frame()
      ensures Valid() && Renewed() && Grew() && known <= created
      ensures forall j :: 0 <= j <= k && j < |points| ==> Lasts(points[j].calls, known, Whole())
      ensures points == [] ==> Whole() == old(Whole())
      ensures old(IdleSettled()) ==> IdleSettled()
      decreases points, 0, 0
    {
      hide Loop.Valid, Loop.IdleSettled, Lasts, Follows;
      if k < |points| {
        React(points[k]);
        CreatedGrows();
        Onward();
        FewerKnown(points[k].calls, old(created), known, Whole());
        forall j | 0 <= j < k ensures Lasts(points[j].calls, known, Whole()) {
          StillLasts(points[j].calls, known, old(Whole()), Whole());
        }
      }
    }

    /** Moves every due timer to the ready queue; cancelled ones are dropped. */
    method CollectDueTimers(points: seq<Reaction>)
      requires Valid()
      modifies Frame()
      ensures Valid() && Renewed() && Grew() && IdleSettled()
      ensures timers.sorted == [] || old(clock) < timers.sorted[0].when
      ensures points == [] ==> Whole() == Collect(old(Whole()), old(clock))
    {
      hide Loop.Valid, Collect;
      var deadline := clock;
      var k := 0;
      var first := PeekTimer();
      while first.Some? && first.value.when <= deadline
        invariant Valid() && Renewed() && Grew() && deadline <= clock
        invariant first == if timers.sorted == [] then None else Some(timers.sorted[0])
        invariant points == [] ==> Collect(Whole(), deadline) == Collect(old(Whole()), deadline)
        decreases if k < |points| then |points| - k else 0, |timers.sorted|
      {
        k := CollectOne(deadline, points, k);
        first := PeekTimer();
      }
      CollectDone(Whole(), deadline);
      BecomeIdle();
    }

    method CollectOne(deadline: real, points: seq<Reaction>, k: nat) returns (k': nat)
      requires Valid() && timers.sorted != [] && timers.sorted[0].when <= deadline <= clock
      modifies Frame()
      ensures Valid() && Renewed() && Grew() && deadline <= clock
      ensures k' == if old(timers.sorted)[0].handle in old(cancelled) then k + 1 else k
      ensures k' == k || k >= |points| ==> |timers.sorted| < |old(timers.sorted)|
      ensures k' == k + 1 && k < |points| ==> Lasts(points[k].calls, old(created), Whole())
      ensures old(history) + [Step.PopDue(deadline)] <= history
      ensures points == [] ==> Collect(Whole(), deadline) == Collect(old(Whole()), deadline)
    {
      hide Loop.Valid, Collect, Next;
      OneCollected(Whole(), deadline);
      var dropped := PopDue(deadline);
      k' := k;
      if dropped.Some? {
        if k < |points| { React(points[k]); }
        CountRetired();
        k' := k + 1;
      }
    }

    method BecomeIdle()
      requires Valid()
      modifies this`idleActive
      ensures Valid() && IdleSettled()
    {
      hide Exec, Timers.Valid, FlagsTell;
      StartIdle();
    }

    /** The libuv timer fired. */
    method OnTimer(collecting: seq<Reaction>, arming: seq<Reaction>)
      requires Valid()
      modifies Frame()
      ensures Valid() && Renewed() && Grew() && IdleSettled() && TimerSettled()
      ensures timerActive ==> timers.sorted[0].handle !in cancelled && armedAt == clock
      ensures Delivered(old(Snap()), Snap(), old(clock))
      ensures collecting == [] && arming == [] ==> Whole() == Fired(old(Whole()))
      ensures collecting == [] && arming == [] ==>
        ready.queue == old(ready.queue) + Due(old(timers.sorted), old(cancelled), old(clock))
    {
      hide Loop.Valid, Collect, Skip, Delivered, Due, FlagsTell, Follows, Sorted;
      EarliestFirst();
      FiredReady(Whole());
      SetLibuvTimer(None);
      CollectDueTimers(collecting);
      Onward();
      AllDelivered();
      label Ready:
      ArmTimer(arming);
      Onward@Ready();
      StaysDelivered(old(Snap()), old@Ready(Snap()), Snap(), old(clock));
    }

    lemma EarliestFirst()
      requires Valid()
      ensures Sorted(timers.sorted) && TimersOk(Snap())
    {
      Safe();
    }

    /** Once no due timer is left, every timer that was due has been delivered. */
    twostate lemma AllDelivered()
      requires old(Valid()) && Valid() && old(history) <= history
      requires timers.sorted == [] || old(clock) < timers.sorted[0].when
      ensures Delivered(old(Snap()), Snap(), old(clock))
    {
      Onward();
      Safe();
      EveryRun(old(history));
      hide Loop.Valid, TimersOk, Follows, Delivered, ArrivesOnce, Fifo, ArrivalsQueued;
      NothingDueDelivers(old(Snap()), Snap(), old(clock));
    }

    /** Runs exactly the callbacks queued on entry; `behaviour` says what each dequeued callback does. */
    method RunReady(behaviour: nat -> Reaction, start: nat)
      requires Valid()
      modifies Frame()
      ensures Valid() && Renewed() && old(history) <= history && Onwards(old(Whole()), Whole())
      ensures dequeued == old(dequeued + ready.queue)
      ensures AllLast(old(ready.queue), behaviour, start, old(created), Whole()) && old(created) <= created
      ensures AllFlat(behaviour) ==> Whole() == Ran(old(Whole()), behaviour, start, |old(ready.queue)|)
      ensures old(IdleSettled()) ==> IdleSettled()
      ensures old(TimerSettled()) ==> TimerSettled()
    {
      hide Loop.Valid, Loop.IdleSettled, Loop.TimerSettled, AllLast, Follows, RanOne, AllFlat;
      var remaining := ready.len;
      assert remaining == |ready.queue| by { QueueLength(); }
      var total := remaining;
      ghost var done, queue := [], ready.queue;
      NoneLast(behaviour, start, created, Whole());
      FollowsItself(Snap());
      while remaining != 0
        invariant Valid() && Renewed() && old(history) <= history
        invariant 0 <= remaining <= total && dequeued == old(dequeued) + done
        invariant Midway(behaviour, start, remaining, queue, done, old(created), old(Whole()))
        invariant old(IdleSettled()) ==> IdleSettled()
        invariant old(TimerSettled()) ==> TimerSettled()
      {
        done := RunNth(behaviour(start + total - remaining), behaviour, start, remaining, queue, done, old(created),
                       old(Whole()));
        remaining := remaining - 1;
      }
      assert done == queue;
    }

    /** Of the callbacks in `queue`, those in `done` have run, and `remaining` more will. */
    ghost predicate Midway(behaviour: nat -> Reaction, start: nat, remaining: nat, queue: seq<Callback>,
                           done: seq<Callback>, known: nat, m: Machine)
      reads this, ready, inbox, timers
    {
      && |done| + remaining == |queue| && remaining <= |ready.queue| && done + ready.queue[..remaining] == queue
      && Onwards(m, Whole()) && known <= created
      && AllLast(done, behaviour, start, known, Whole())
      && (AllFlat(behaviour) ==> Whole() == Ran(m, behaviour, start, |done|))
    }

    /** Runs the next callback of the batch. */
    method RunNth(reaction: Reaction, ghost behaviour: nat -> Reaction, ghost start: nat, ghost remaining: nat,
                  ghost queue: seq<Callback>, ghost done: seq<Callback>, ghost known: nat, ghost m: Machine)
      returns (ghost done': seq<Callback>)
      requires Valid() && remaining > 0 && Midway(behaviour, start, remaining, queue, done, known, m)
      requires reaction == behaviour(start + |done|)
      modifies Frame()
      ensures Valid() && Renewed() && old(history) <= history
      ensures Midway(behaviour, start, remaining - 1, queue, done', known, m)
      ensures done' == done + [old(ready.queue)[0]] && dequeued == old(dequeued) + [old(ready.queue)[0]]
      ensures old(IdleSettled()) ==> IdleSettled()
      ensures old(TimerSettled()) ==> TimerSettled()
    {
      hide Loop.Valid, Loop.IdleSettled, Loop.TimerSettled, Skipped, Lasts, AllLast, Onwards, RanOne, Flat;
      ghost var m', known', callback := Whole(), created, ready.queue[0];
      RunOne(reaction, remaining);
      OneMoreLasts(done, callback, behaviour, start, known, known', m', Whole());
      OnwardsTwice(m, m', Whole());
      done' := done + [callback];
    }

    lemma QueueLength()
      requires Valid()
      ensures ready.len == |ready.queue|
    {
    }

    /** Dequeues the oldest callback and runs it, unless it belongs to a timer cancelled in the meantime. */
    method RunOne(reaction: Reaction, ghost remaining: nat)
      requires Valid() && 0 < remaining <= |ready.queue|
      modifies Frame()
      ensures Valid() && Renewed() && old(history) <= history && Onwards(old(Whole()), Whole())
      ensures remaining - 1 <= |ready.queue| && ready.queue[..remaining - 1] == old(ready.queue)[1..remaining]
      ensures dequeued == old(dequeued) + [old(ready.queue)[0]] && old(created) <= created
      ensures !Skipped(old(ready.queue)[0], old(cancelled)) ==> Lasts(reaction.calls, old(created), Whole())
      ensures Flat(reaction.calls) || Skipped(old(ready.queue)[0], old(cancelled)) ==>
        Whole() == RanOne(old(Whole()), reaction)
      ensures old(IdleSettled()) ==> IdleSettled()
      ensures old(TimerSettled()) ==> TimerSettled()
    {
      hide Loop.Valid, Loop.IdleSettled, Loop.TimerSettled, Lasts, Flat, ApplyAll, Follows;
      var callback := Dequeue();
      if !(callback.value.Timer? && callback.value.id in cancelled) { React(reaction); }
      CreatedGrows();
      Onward();
    }

    twostate lemma CreatedGrows()
      requires old(Valid()) && Valid() && old(history) <= history
      ensures old(created) <= created
    {
      Onward();
    }

    /** One turn of the idle handle: runs batches while that is all the loop has to do. */
    method OnIdle(behaviour: nat -> Reaction, elapsed: nat -> nat)
      returns (batches: nat, callbacks: nat, ghost log: seq<Batch>)
      requires Valid()
      modifies Frame()
      ensures Valid() && Renewed() && old(history) <= history
      ensures dequeued == old(dequeued) + Flatten(log) && batches == |log| && callbacks == |Flatten(log)|
      ensures AllLast(Flatten(log), behaviour, 0, old(created), Whole())
      ensures Over(log, old(Now()), Now(), elapsed) && (log == [] <==> old(ready.queue) == [])
      ensures Bounded(log)
      ensures AllFlat(behaviour) && old(Exact(Whole())) ==> Exact(Whole())
      ensures old(IdleSettled()) ==> IdleSettled()
      ensures ready.queue == [] ==> !idleActive
      ensures old(TimerSettled()) ==> TimerSettled()
    {
      hide Loop.Valid, Loop.IdleSettled, Loop.TimerSettled, Bounded, Flatten, AllLast, Over, Exact, AllFlat;
      batches, callbacks, log := RunBatches(behaviour, elapsed);
      DrainIsBounded(log, old(Now()), Now(), elapsed);
      StopIdleIfDone();
    }

    /** A turn that began at `first`, in state `m`, has run the batches of `log`, and may have stopped. */
    ghost predicate InTurn(log: seq<Batch>, stopped: bool, behaviour: nat -> Reaction, elapsed: nat -> nat,
                           first: Moment, m: Machine, known: nat)
      reads this, ready, inbox, timers
    {
      && dequeued == m.s.dequeued + Flatten(log) && known <= created
      && (AllFlat(behaviour) && Exact(m) ==> Exact(Whole()))
      && AllLast(Flatten(log), behaviour, 0, known, Whole())
      && WentOn(log, first, Now(), elapsed)
      && (stopped || ready.queue == [] ==> Over(log, first, Now(), elapsed))
      && (if log == [] then !stopped else stopped || OnlyReady(Now(), log[|log| - 1].before, elapsed(|log|)))
      && (log == [] ==> Now() == first) && (log != [] ==> first.queue != [])
    }

    lemma FreshTurn(behaviour: nat -> Reaction, elapsed: nat -> nat)
      ensures InTurn([], false, behaviour, elapsed, Now(), Whole(), created) && Flatten([]) == []
    {
      NoneLast(behaviour, 0, created, Whole());
    }

    method RunBatches(behaviour: nat -> Reaction, elapsed: nat -> nat)
      returns (batches: nat, callbacks: nat, ghost log: seq<Batch>)
      requires Valid()
      modifies Frame()
      ensures Valid() && Renewed() && old(history) <= history
      ensures dequeued == old(dequeued) + Flatten(log) && batches == |log| && callbacks == |Flatten(log)|
      ensures AllLast(Flatten(log), behaviour, 0, old(created), Whole())
      ensures Over(log, old(Now()), Now(), elapsed) && (log == [] <==> old(ready.queue) == [])
      ensures AllFlat(behaviour) && old(Exact(Whole())) ==> Exact(Whole())
      ensures old(IdleSettled()) ==> IdleSettled()
      ensures old(TimerSettled()) ==> TimerSettled()
    {
      hide Loop.Valid, Loop.IdleSettled, Loop.TimerSettled, Flatten, AllLast, Over, Loop.InTurn, Exact, AllFlat;
      batches, callbacks, log := 0, 0, [];
      FreshTurn(behaviour, elapsed);
      QueueLength();
      var stopped := false;
      while ready.len != 0 && !stopped
        invariant Valid() && Renewed() && old(history) <= history && ready.len == |ready.queue|
        invariant InTurn(log, stopped, behaviour, elapsed, old(Now()), old(Whole()), old(created))
        invariant batches == |log| && callbacks == |Flatten(log)|
        invariant old(IdleSettled()) ==> IdleSettled()
        invariant old(TimerSettled()) ==> TimerSettled()
        decreases !stopped, IO_BATCH_LIMIT - batches
      {
        stopped, batches, callbacks, log :=
          NextBatch(behaviour, elapsed, batches, callbacks, log, old(Now()), old(Whole()), old(created));
        QueueLength();
      }
      TurnOver(log, stopped, behaviour, elapsed, old(Now()), old(Whole()), old(created));
    }

    lemma TurnOver(log: seq<Batch>, stopped: bool, behaviour: nat -> Reaction, elapsed: nat -> nat,
                   first: Moment, m: Machine, known: nat)
      requires InTurn(log, stopped, behaviour, elapsed, first, m, known) && (stopped || ready.queue == [])
      ensures AllFlat(behaviour) && Exact(m) ==> Exact(Whole())
      ensures dequeued == m.s.dequeued + Flatten(log) && AllLast(Flatten(log), behaviour, 0, known, Whole())
      ensures Over(log, first, Now(), elapsed) && (log == [] <==> first.queue == [])
    {
    }

    /** One round of the idle drain: stops before the next batch, runs it and stops, or runs it and goes on. */
    method NextBatch(behaviour: nat -> Reaction, elapsed: nat -> nat, batches: nat, callbacks: nat,
                     ghost log: seq<Batch>, ghost first: Moment, ghost m: Machine, ghost known: nat)
      returns (stopped: bool, batches': nat, callbacks': nat, ghost log': seq<Batch>)
      requires Valid() && batches == |log| && callbacks == |Flatten(log)| && ready.queue != []
      requires InTurn(log, false, behaviour, elapsed, first, m, known)
      modifies Frame()
      ensures Valid() && Renewed() && old(history) <= history
      ensures batches' == |log'| && callbacks' == |Flatten(log')|
      ensures InTurn(log', stopped, behaviour, elapsed, first, m, known)
      ensures stopped || batches < batches' <= IO_BATCH_LIMIT
      ensures old(IdleSettled()) ==> IdleSettled()
      ensures old(TimerSettled()) ==> TimerSettled()
    {
      hide Loop.Valid, Loop.IdleSettled, Loop.TimerSettled, Flatten, AllLast, WentOn, Over, GoesOn, RoomFor, OnlyReady;
      hide Exact, AllFlat;
      LastGoesOn(log, first, Now(), elapsed);
      if batches != 0 {
        var room := RoomLeft(batches, callbacks);
        if !room { return true, batches, callbacks, log; }
      }
      stopped, batches', callbacks', log' :=
        RunAndLook(behaviour, elapsed, batches, callbacks, log, first, m, known);
    }

    /** Runs the next batch, then looks whether that is still all there is to do. */
    method RunAndLook(behaviour: nat -> Reaction, elapsed: nat -> nat, batches: nat, callbacks: nat,
                      ghost log: seq<Batch>, ghost first: Moment, ghost m: Machine, ghost known: nat)
      returns (stopped: bool, batches': nat, callbacks': nat, ghost log': seq<Batch>)
      requires Valid() && batches == |log| && callbacks == |Flatten(log)| && ready.queue != []
      requires InTurn(log, false, behaviour, elapsed, first, m, known)
      requires log != [] ==> GoesOn(log, |log| - 1, elapsed)
      modifies Frame()
      ensures Valid() && Renewed() && old(history) <= history
      ensures batches' == |log'| == batches + 1 && callbacks' == |Flatten(log')|
      ensures InTurn(log', stopped, behaviour, elapsed, first, m, known)
      ensures old(IdleSettled()) ==> IdleSettled()
      ensures old(TimerSettled()) ==> TimerSettled()
    {
      hide Loop.Valid, Loop.IdleSettled, Loop.TimerSettled, Flatten, AllLast, WentOn, Over, GoesOn, RoomFor, OnlyReady;
      hide Exact, AllFlat;
      QueueLength();
      var batch := ready.len;
      log' := RunBatch(behaviour, elapsed, callbacks, log, known, first);
      batches' := batches + 1;
      callbacks' := callbacks + batch;
      LastGoesOn(log', first, Now(), elapsed);
      var only := NothingElse(batch, elapsed(batches'), log'[batches].before);
      stopped := !only;
    }

    /** Whether the limits leave room for another batch. */
    method RoomLeft(batches: nat, callbacks: nat) returns (room: bool)
      requires Valid()
      ensures (room <==> RoomFor(Now(), batches, callbacks)) && (room ==> batches < IO_BATCH_LIMIT)
    {
      QueueLength();
      hide Loop.Valid;
      var batch := ready.len;
      // Every loop owns one external handle, the poller of its self-pipe.
      var hasIo := externalHandles > 1;
      var batchLimit := if hasIo then IO_BATCH_LIMIT else BATCH_LIMIT;
      if batches >= batchLimit || callbacks >= CALLBACK_LIMIT || batch > CALLBACK_LIMIT - callbacks ||
         (hasIo && batch != 1) { return false; }
      return true;
    }

    /** Whether ready callbacks are all the loop has to deal with, after a batch of `batch`. */
    method NothingElse(batch: nat, elapsed: nat, ghost before: Moment) returns (only: bool)
      requires Valid() && batch == |before.queue|
      ensures (only <==> OnlyReady(Now(), before, elapsed)) && (only ==> ready.queue != [])
    {
      QueueLength();
      hide Loop.Valid;
      if stopping || fatal || ready.len == 0 { return false; }
      if timerActive || dnsRequests || flushPending { return false; }
      if closingHandles != 0 { return false; }
      if externalHandles > 1 {
        if batch != 1 || elapsed >= IO_TIME_LIMIT_NS { return false; }
      }
      return true;
    }

    /** Runs what is ready, and adds it to the log of this turn's batches. */
    method RunBatch(behaviour: nat -> Reaction, ghost elapsed: nat -> nat, callbacks: nat, ghost log: seq<Batch>,
                    ghost known: nat, ghost first: Moment)
      returns (ghost log': seq<Batch>)
      requires Valid() && callbacks == |Flatten(log)| && known <= created
      requires AllLast(Flatten(log), behaviour, 0, known, Whole())
      requires WentOn(log, first, Now(), elapsed) && (log != [] ==> GoesOn(log, |log| - 1, elapsed))
      modifies Frame()
      ensures Valid() && Renewed() && old(history) <= history
      ensures |log'| == |log| + 1 && log'[|log|] == Batch(old(Now()), Now()) && dequeued == old(dequeued + ready.queue)
      ensures WentOn(log', first, Now(), elapsed)
      ensures Flatten(log') == Flatten(log) + old(ready.queue)
      ensures AllLast(Flatten(log'), behaviour, 0, known, Whole()) && known <= created
      ensures AllFlat(behaviour) && old(Exact(Whole())) ==> Exact(Whole())
      ensures old(IdleSettled()) ==> IdleSettled()
      ensures old(TimerSettled()) ==> TimerSettled()
    {
      hide Loop.Valid, Loop.IdleSettled, Loop.TimerSettled, Flatten, AllLast, AllFlat, Ran, GoesOn, Onwards, WentOn;
      hide Exact;
      ghost var before, m, queue, late := Now(), Whole(), ready.queue, created;
      RunReady(behaviour, callbacks);
      if Exact(m) { RanExact(m, behaviour, callbacks, |queue|); }
      log' := log + [Batch(before, Now())];
      AddBatch(log, Batch(before, Now()), first, elapsed);
      AllStillLast(Flatten(log), behaviour, 0, known, m, Whole());
      BothLast(Flatten(log), queue, behaviour, 0, known, late, Whole());
    }

    method StopIdleIfDone()
      requires Valid()
      modifies this`idleActive
      ensures Valid() && idleActive == (old(idleActive) && ready.queue != [])
      ensures (old(IdleSettled()) ==> IdleSettled()) && (old(TimerSettled()) ==> TimerSettled())
    {
      hide Exec, Timers.Valid, FlagsTell;
      if ready.len == 0 && idleActive { idleActive := false; }
    }

    /** What `runLoop` does before it lets libuv run. */
    method StartRunning(arming: seq<Reaction>)
      requires Valid()
      modifies Frame()
      ensures Valid() && Renewed() && old(history) <= history && IdleSettled() && TimerSettled()
      ensures timerActive ==> timers.sorted[0].handle !in cancelled && armedAt == clock
      ensures arming == [] ==> Whole() == Started(old(Whole()))
    {
      hide Loop.Valid, Skip;
      SetFlags(false, fatal);
      BecomeIdle();
      ArmTimer(arming);
    }

    /**
     What `runLoop` does once libuv has returned. Draining the flush list runs Python code, before the loop looks for
     a fatal exception; `failed` says that there is one, and that it is raised.
     */
    method FinishRunning(flushing: Reaction) returns (failed: bool)
      requires Valid() && IdleSettled() && TimerSettled()
      modifies Frame()
      ensures Valid() && Renewed() && old(history) <= history && IdleSettled() && TimerSettled()
      ensures !fatal && (old(fatal) ==> failed)
      ensures (Made(flushing.calls, Fail) ==> failed) && (Made(flushing.calls, Stop) ==> stopping)
      ensures Flat(flushing.calls) ==> Whole() == Finished(old(Whole()), flushing.calls)
    {
      hide Loop.Valid, Lasts, ApplyAll, Flat, Made;
      SetFlags(false, fatal);
      ghost var known := created;
      React(flushing);
      CalledFor(flushing.calls, known, Whole());
      failed := fatal;
      SetFlags(stopping, false);
    }

    method SetFlags(stop: bool, failed: bool)
      requires Valid()
      modifies this`stopping, this`fatal
      ensures Valid() && stopping == stop && fatal == failed
    {
      hide Loop.Valid;
      stopping, fatal := stop, failed;
    }

    // ----- descriptor watchers

    /** libuv reports on watched descriptors: their callbacks become ready, in order. */
    method OnPolled(ids: seq<nat>)
      requires Valid()
      modifies Frame()
      ensures Valid() && Renewed() && Grew() && IdleSettled()
      ensures PolledInto(old(ready.queue), ids, ready.queue)
      ensures Whole() == old(Whole()).(s := old(Snap()).(ready := ready.queue))
      ensures old(TimerSettled()) ==> TimerSettled()
    {
      hide Loop.Valid, Loop.TimerSettled;
      for i := 0 to |ids|
        invariant Valid() && Renewed() && Grew()
        invariant PolledInto(old(ready.queue), ids[..i], ready.queue)
        invariant Whole() == old(Whole()).(s := old(Snap()).(ready := ready.queue))
        invariant old(TimerSettled()) ==> TimerSettled()
      {
        PushWatcher(ids[i]);
        assert ids[..i + 1] == ids[..i] + [ids[i]];
      }
      assert ids[..|ids|] == ids;
      BecomeIdle();
    }

    method PushWatcher(id: nat)
      requires Valid()
      modifies this`history, ready, ready.items
      ensures Valid() && Renewed() && Grew()
      ensures Snap() == old(Snap()).(ready := old(ready.queue) + [Watcher(id)])
      ensures history == old(history) + [Watch(id)]
      ensures old(TimerSettled()) ==> TimerSettled()
    {
      hide Exec, Loop.Rings, Timers.Valid, FlagsTell;
      ghost var before := Snap();
      PushReady(Watcher(id));
      Record(Watch(id), before);
    }

    // ----- whole runs

    /** What a turn promises, whatever Python code does meanwhile. */
    twostate predicate Took(turn: Turn)
      reads this, ready, inbox, timers
    {
      match turn
      case Calls(reaction) => Lasts(reaction.calls, old(created), Whole())
      case Woken => Snap() == Next(old(Snap()), Wake)
      case TimerFires(collecting, arming) => Delivered(old(Snap()), Snap(), old(clock))
      case Idles(_, _) => old(dequeued + ready.queue) <= dequeued
      case Starts(arming) =>
        timerActive ==> timers.sorted != [] && timers.sorted[0].handle !in cancelled && armedAt == clock
      case Returns(_) => !fatal
      case Polled(ids) => PolledInto(old(ready.queue), ids, ready.queue)
    }

    method Take(turn: Turn)
      requires Valid() && IdleSettled() && TimerSettled()
      modifies Frame()
      ensures Valid() && IdleSettled() && TimerSettled() && Renewed() && old(history) <= history
      ensures Took(turn)
      ensures Alone(turn) && old(Exact(Whole())) ==> Exact(Whole())
    {
      hide Loop.Valid, Bounded, Flatten, Over, Delivered, Next, AllLast, Lasts, ApplyAll, Started, Finished, Fired;
      hide Exact, AllFlat, Flat;
      match turn {
        case Calls(reaction) => React(reaction);
        case Woken => OnWake();
        case Starts(arming) => StartRunning(arming);
        case Returns(flushing) => var failed := FinishRunning(flushing);
        case Polled(ids) => OnPolled(ids);
        case TimerFires(collecting, arming) => OnTimer(collecting, arming);
        case Idles(behaviour, elapsed) =>
          var batches, callbacks;
          ghost var log;
          batches, callbacks, log := OnIdle(behaviour, elapsed);
          FirstBatch(log, old(Now()), Now(), elapsed);
      }
      if old(Exact(Whole())) && Amounts(old(Whole()), turn, Whole()) { AmountsExact(old(Whole()), turn, Whole()); }
    }

    /**
     Whatever happens to the loop, in whatever order, it loses no wakeup and keeps every ordering promise. `states` are
     the states before each turn, and the last: a timer due when the libuv timer fires is delivered for good, a callback
     ready when the loop idles is dequeued, and so a due timer's callback is, once both have happened in this order.
     */
    method Run(turns: seq<Turn>) returns (ghost states: seq<Sched>)
      requires Valid() && IdleSettled() && TimerSettled()
      modifies Frame()
      ensures Valid() && IdleSettled() && TimerSettled() && old(history) <= history
      ensures Fifo(Snap()) && TimersOk(Snap()) && ArrivesOnce(Snap()) && ArrivalsQueued(Snap()) && ArmedInTime()
      ensures |states| == |turns| + 1 && states[0] == old(Snap()) && states[|turns|] == Snap()
      ensures forall i :: 0 <= i < |turns| && turns[i].TimerFires? ==> Delivered(states[i], Snap(), states[i].clock)
      ensures forall i :: 0 <= i < |turns| && turns[i].Idles? ==> states[i].dequeued + states[i].ready <= dequeued
      ensures forall i, j :: 0 <= i < j < |turns| && turns[i].TimerFires? && turns[j].Idles? ==>
                RanAll(states[i], Snap(), states[i].clock)
      ensures (forall i :: 0 <= i < |turns| ==> Alone(turns[i])) && old(Exact(Whole())) ==> Exact(Whole())
    {
      StartKept(turns);
      states := [Snap()];
      hide Loop.Valid, Loop.IdleSettled, Loop.TimerSettled, AllKept, Exact, Alone;
      for i := 0 to |turns|
        invariant Valid() && IdleSettled() && TimerSettled() && Renewed() && old(history) <= history
        invariant |states| == i + 1 && states[0] == old(Snap()) && states[i] == Snap()
        invariant AllKept(turns, states, Snap())
        invariant (forall j :: 0 <= j < |turns| ==> Alone(turns[j])) && old(Exact(Whole())) ==> Exact(Whole())
      {
        TakeNext(turns, i, states);
        states := states + [Snap()];
      }
      WhatIsKept(turns, states, Snap());
      hide *;
      Safe();
      SettledIsInTime();
    }

    lemma StartKept(turns: seq<Turn>)
      requires Valid()
      ensures AllKept(turns, [Snap()], Snap())
    {
      Safe();
      FollowsItself(Snap());
    }

    method TakeNext(turns: seq<Turn>, i: nat, ghost states: seq<Sched>)
      requires Valid() && IdleSettled() && TimerSettled()
      requires i < |turns| && |states| == i + 1 && states[i] == Snap() && AllKept(turns, states, Snap())
      modifies Frame()
      ensures Valid() && IdleSettled() && TimerSettled() && Renewed() && old(history) <= history
      ensures AllKept(turns, states + [Snap()], Snap())
      ensures Alone(turns[i]) && old(Exact(Whole())) ==> Exact(Whole())
    {
      hide Loop.Valid, Loop.IdleSettled, Loop.TimerSettled, AllKept, Fifo, TimersOk, ArrivesOnce, ArrivalsQueued;
      hide Follows;
      hide Delivered, Lasts, Next, Exact, Alone;
      Safe();
      Take(turns[i]);
      Safe();
      Onward();
      KeepAll(turns, states, old(Snap()), Snap());
    }
  }

  // What a step does to the fields it touches.

  lemma StepBypasses(s: Sched, when: real)
    requires when <= s.clock && Bypasses(s, when, true)
    ensures Next(s, Schedule(when, true)) ==
      s.(ready := s.ready + [Callback.Timer(|s.scheduled|)], scheduled := s.scheduled + [when],
         arrivals := s.arrivals + [Arrival(|s.scheduled|, when, s.clock)])
  {
  }

  lemma StepWakes(s: Sched)
    ensures Next(s, Wake) == s.(ready := s.ready + s.inbox, inbox := [], wakerPending := false)
  {
  }

  lemma StepPops(s: Sched, deadline: real)
    requires s.timers != [] && s.timers[0].when <= deadline <= s.clock
    ensures Next(s, Step.PopDue(deadline)) ==
      var top := s.timers[0];
      if top.handle in s.cancelled then s.(timers := s.timers[1..])
      else s.(timers := s.timers[1..], ready := s.ready + [Callback.Timer(top.handle)],
              arrivals := s.arrivals + [Arrival(top.handle, top.when, s.clock)])
  {
  }

  lemma StepPosts(s: Sched, id: nat)
    ensures Next(s, Step.CallSoonThreadsafe(id)) ==
      s.(inbox := s.inbox + [ThreadSafe(id)], registered := s.registered + [ThreadSafe(id)], wakerPending := true)
  {
  }

  lemma StepQueues(s: Sched, id: nat)
    ensures Next(s, Step.CallSoon(id)) ==
      s.(ready := s.ready + s.inbox + [Callback.Soon(id)], inbox := [],
         registered := s.registered + [Callback.Soon(id)])
  {
  }
}
