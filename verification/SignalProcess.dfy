/** The signal machinery of the loops of one process, updating process-global state in place. */
module SignalProcess {
  import opened Options
  import opened SignalWorld
  import opened SignalShadow
  import opened SignalTransaction
  import opened SignalApart
  import opened SignalStripping
  import opened SignalInterleaving
  import opened SignalDefaults

  const SIGINT := Sig(2)

  datatype WakeupState = WakeupState(fd: Option<LoopId>, owner: Option<LoopId>, wasAttached: bool)

  /** How a registration ends: refused outright, installed, rolled back, or with the rollback's own reset raising. */
  datatype Outcome = Refused | Registered | RolledBack | ResetRaised

  /** What other loops do at each call boundary of a registration: what they set out to do, or what that amounts to. */
  datatype Boundaries<T> = Boundaries(
    attachReturns: seq<T>, attachCheck: seq<T>, attachCleared: seq<T>,
    installReturns: seq<T>,
    rollbackCheck: seq<T>, resetReturns: seq<T>, commitCheck: seq<T>, commitReset: seq<T>,
    restoreCheck: seq<T>, restoreSet: seq<T>, restoreReturns: seq<T>, restoreFailed: seq<T>,
    restoreCommit: seq<T>, restoreCleared: seq<T>)

  /** A close or a cleanup of another loop, with what yet other loops do at each of its own call boundaries. */
  datatype Deed = Deed(ev: Event, intervals: seq<Interval>)
  datatype Interval = Interval(deeds: seq<Deed>)

  ghost predicate AllSpare(b: Boundaries<Deed>, self: Option<LoopId>) {
    && SpareDeeds(b.attachReturns, self) && SpareDeeds(b.attachCheck, self) && SpareDeeds(b.attachCleared, self)
    && SpareDeeds(b.installReturns, self)
    && SpareDeeds(b.rollbackCheck, self) && SpareDeeds(b.resetReturns, self)
    && SpareDeeds(b.commitCheck, self) && SpareDeeds(b.commitReset, self)
    && SpareDeeds(b.restoreCheck, self) && SpareDeeds(b.restoreSet, self)
    && SpareDeeds(b.restoreReturns, self) && SpareDeeds(b.restoreFailed, self)
    && SpareDeeds(b.restoreCommit, self) && SpareDeeds(b.restoreCleared, self)
  }

  /** Nothing happens inside these deeds. */
  ghost predicate Plain(deeds: seq<Deed>) {
    forall i :: 0 <= i < |deeds| ==> deeds[i].intervals == []
  }

  ghost function Events(deeds: seq<Deed>): seq<Event> {
    seq(|deeds|, i requires 0 <= i < |deeds| => deeds[i].ev)
  }

  /** The event finds its loop as it expects it: a close one that is open, a cleanup one that awaits it. */
  ghost predicate Applies(w: World, ev: Event) {
    match ev
    case Close(id, onMain, order) =>
      id in w.loops && !w.loops[id].finalized && Elements(order, w.loops[id].handlers.Keys)
    case RunCleanup(id) => id in w.pending
  }

  /** The events that deeds amount to when nothing acts inside them. */
  ghost function Effect(w: World, deeds: seq<Deed>): seq<Event> {
    if deeds == [] then []
    else
      var events := Effect(w, deeds[..|deeds| - 1]);
      var ev := deeds[|deeds| - 1].ev;
      if Applies(RunEvents(w, events), ev) then events + [ev] else events
  }

  /** These events are what others do at the k-th boundary, as far as nothing acts inside that. */
  ghost predicate Boundaried(w: World, events: seq<Event>, intervals: seq<Interval>, k: nat) {
    if k >= |intervals| then events == []
    else Plain(intervals[k].deeds) ==> events == Effect(w, intervals[k].deeds)
  }

  ghost predicate AllPlain(b: Boundaries<Deed>) {
    && Plain(b.attachReturns) && Plain(b.attachCheck) && Plain(b.attachCleared) && Plain(b.installReturns)
    && Plain(b.rollbackCheck) && Plain(b.resetReturns) && Plain(b.commitCheck) && Plain(b.commitReset)
    && Plain(b.restoreCheck) && Plain(b.restoreSet) && Plain(b.restoreReturns) && Plain(b.restoreFailed)
    && Plain(b.restoreCommit) && Plain(b.restoreCleared)
  }

  ghost function AllEvents(b: Boundaries<Deed>): Boundaries<Event> {
    Boundaries(
      Events(b.attachReturns), Events(b.attachCheck), Events(b.attachCleared), Events(b.installReturns),
      Events(b.rollbackCheck), Events(b.resetReturns), Events(b.commitCheck), Events(b.commitReset),
      Events(b.restoreCheck), Events(b.restoreSet), Events(b.restoreReturns), Events(b.restoreFailed),
      Events(b.restoreCommit), Events(b.restoreCleared))
  }

  /** Plain deeds amount to themselves. */
  ghost predicate Told(b: Boundaries<Deed>, flat: Boundaries<Event>) {
    AllPlain(b) ==> flat == AllEvents(b)
  }

  ghost predicate SameAttach(a: Boundaries<Event>, b: Boundaries<Event>) {
    && a.attachReturns == b.attachReturns && a.attachCheck == b.attachCheck && a.attachCleared == b.attachCleared
    && a.installReturns == b.installReturns
  }

  ghost predicate SameCommit(a: Boundaries<Event>, b: Boundaries<Event>) {
    SameAttach(a, b) && a.rollbackCheck == b.rollbackCheck && a.commitCheck == b.commitCheck
  }

  /** What other loops do while the descriptor is being attached: more boundaries are met when that fails. */
  ghost function AttachEvents(w: World, ok: bool, b: Boundaries<Event>): seq<Event> {
    if ok || w.wakeOwner == None then b.attachReturns
    else
      var checked := b.attachReturns + b.attachCheck;
      if Live(RunEvents(w, checked), w.wakeOwner.value) then checked else checked + b.attachCleared
  }

  /** The events up to the last look at the previous owner, `before` having happened when the rollback began. */
  ghost function CommitFrom(w: World, before: seq<Event>, owner: Option<LoopId>, b: Boundaries<Event>): seq<Event> {
    if owner == None then before
    else
      var checked := before + b.rollbackCheck;
      if Live(RunEvents(w, checked), owner.value) then checked + b.commitCheck else checked
  }

  /** The events up to the commit point of a registration that fails. */
  ghost function CommitEvents(w: World, sig: Sig, attachOk: bool, b: Boundaries<Event>): seq<Event> {
    CommitFrom(w, AttachEvents(w, attachOk, b) + (if attachOk then b.installReturns else []),
               if sig in w.owners then Some(w.owners[sig]) else None, b)
  }

  // A process with two loops: the first owns a signal that cannot be reset, the second wants it.

  const OWNER := LoopId(0)
  const NEWCOMER := LoopId(1)
  const STUCK := Sig(10)
  const OWNED := World(map[STUCK := OWNER], map[STUCK := LoopHandler], Some(OWNER), Some(OWNER),
                       map[OWNER := LoopRec(map[STUCK := 0], true, false), NEWCOMER := LoopRec(map[], false, false)],
                       map[], {})
  const OWNER_CLOSES := Close(OWNER, false, [STUCK])
  const CLOSED_MEANWHILE: Boundaries<Deed> :=
    Boundaries([], [], [], [], [Deed(OWNER_CLOSES, [])], [], [], [], [], [], [], [], [], [])
  const CLOSE_EVENTS: Boundaries<Event> :=
    Boundaries([], [], [], [], [OWNER_CLOSES], [], [], [], [], [], [], [], [], [])

  lemma OwnerClosed()
    ensures !Live(RunEvents(OWNED, [OWNER_CLOSES]), OWNER) && RunEvents(OWNED, [OWNER_CLOSES]).resettable == {}
  {
    assert Elements([STUCK], OWNED.loops[OWNER].handlers.Keys) by {
      assert AsSet([STUCK]) == {STUCK} && OWNED.loops[OWNER].handlers.Keys == {STUCK};
    }
    hide FromFirstOwned;
    assert [OWNER_CLOSES][..0] == [];
    assert RunEvents(OWNED, []) == OWNED;
  }

  /** The exception does occur: a signal that cannot be reset, whose owner is closed when the rollback looks at it. */
  lemma ResetCanRaise()
    ensures Invariant(OWNED) && Live(OWNED, NEWCOMER) && AllSpare(CLOSED_MEANWHILE, Some(NEWCOMER))
    ensures AllPlain(CLOSED_MEANWHILE) && AllEvents(CLOSED_MEANWHILE) == CLOSE_EVENTS
    ensures PriorStuck(RunEvents(OWNED, CommitEvents(OWNED, STUCK, true, CLOSE_EVENTS)), Begin(OWNED, NEWCOMER, STUCK))
  {
    OwnerClosed();
    hide RunEvents, Apply;
    assert [] + [] + [OWNER_CLOSES] == [OWNER_CLOSES];
    assert CommitEvents(OWNED, STUCK, true, CLOSE_EVENTS) == [OWNER_CLOSES];
    assert Events([Deed(OWNER_CLOSES, [])]) == [OWNER_CLOSES] && Events([]) == [];
    assert Sparing([], Some(NEWCOMER)) && SpareDeed(Deed(OWNER_CLOSES, []), Some(NEWCOMER));
  }

  lemma RegisteringCalm(here: World, shadow: World, t: Start, signal: SignalPhase, wake: WakePhase)
    requires Registering(here, shadow, t, signal, wake)
    ensures Calm(here, Some(t.self))
  {
  }

  /** The deed, and whatever happens inside it, does not close `self`. */
  ghost predicate SpareDeed(deed: Deed, self: Option<LoopId>)
    decreases deed
  {
    self.Some? ==> SparesLoop(deed.ev, self.value) && Sparing(deed.intervals, self)
  }

  ghost predicate SpareDeeds(deeds: seq<Deed>, self: Option<LoopId>)
    decreases deeds
  {
    forall i :: 0 <= i < |deeds| ==> SpareDeed(deeds[i], self)
  }

  ghost predicate Sparing(intervals: seq<Interval>, self: Option<LoopId>)
    decreases intervals
  {
    forall k :: 0 <= k < |intervals| ==> SpareDeeds(intervals[k].deeds, self)
  }

  lemma SparingNobody(intervals: seq<Interval>)
    ensures Sparing(intervals, None)
  {
    forall k | 0 <= k < |intervals| ensures SpareDeeds(intervals[k].deeds, None) {
    }
  }

  lemma SparingInside(deed: Deed, self: Option<LoopId>)
    requires SpareDeed(deed, self)
    ensures Sparing(deed.intervals, self)
  {
    if self == None { SparingNobody(deed.intervals); }
  }

  /** What there is to restore of the wakeup descriptor: nothing, or what it was when it was taken. */
  ghost predicate Restorable(state: Option<WakeupState>, wake: WakePhase, t: Start, here: World, origin: World) {
    && t.self in here.loops && t.self in origin.loops
    && (state == None ==>
          (wake == Together || wake == Abandoned) && here.loops[t.self].attached == origin.loops[t.self].attached)
    && (state.Some? ==>
          && state.value == WakeupState(t.wake, t.wake, origin.loops[t.self].attached)
          && wake == Taken && here.wakeFd == Some(t.self) && here.loops[t.self].attached)
  }

  lemma AttachEventsSame(w: World, ok: bool, a: Boundaries<Event>, b: Boundaries<Event>)
    requires a.attachReturns == b.attachReturns && a.attachCheck == b.attachCheck && a.attachCleared == b.attachCleared
    ensures AttachEvents(w, ok, a) == AttachEvents(w, ok, b)
  {
  }

  class Process {
    var owners: map<Sig, LoopId>
    var dispositions: map<Sig, Disposition>
    var wakeOwner: Option<LoopId>
    var wakeFd: Option<LoopId>
    var loops: map<LoopId, LoopRec>
    var pending: map<LoopId, seq<Sig>>
    const resettable: set<Sig>
    /** What other loops have done since the last registration began. */
    ghost var trace: seq<Event>
    /** The same, boundary by boundary; a boundary that was not met keeps its plain events. */
    ghost var flat: Boundaries<Event>

    function Snap(): World
      reads this`owners, this`dispositions, this`wakeOwner, this`wakeFd, this`loops, this`pending
    {
      World(owners, dispositions, wakeOwner, wakeFd, loops, pending, resettable)
    }

    constructor (resettable: set<Sig>, dispositions: map<Sig, Disposition>)
      ensures Invariant(Snap()) && Snap() == World(map[], dispositions, None, None, map[], map[], resettable)
    {
      this.resettable := resettable;
      this.dispositions := dispositions;
      owners, wakeOwner, wakeFd, loops, pending := map[], None, None, map[], map[];
    }

    /** `signal.signal` with the handler a signal has by default. */
    method RestoreDefault(sig: Sig)
      modifies this`dispositions
      ensures dispositions == old(dispositions)[sig := DefaultFor(sig)] && ByDefault(dispositions, sig)
    {
      var handler := if sig == SIGINT then DefaultInt else SystemDefault;
      dispositions := dispositions[sig := handler];
    }

    // ----- cleanup and close; other loops may act whenever a system call returns

    /** What other loops do at the next call boundary, as far as `intervals` goes. */
    method Elsewhere(intervals: seq<Interval>, k: nat, ghost self: Option<LoopId>)
      returns (k': nat, ghost events: seq<Event>)
      requires intervals != [] ==> Calm(Snap(), self) && Sparing(intervals, self)
      modifies this`owners, this`dispositions, this`wakeOwner, this`wakeFd, this`loops, this`pending
      ensures Snap() == RunEvents(old(Snap()), events) && Spared(old(Snap()), events, self)
      ensures k' == k + 1 && (intervals == [] ==> events == []) && Boundaried(old(Snap()), events, intervals, k)
      decreases intervals, 0
    {
      events := [];
      if k < |intervals| {
        events := PerformAll(intervals[k].deeds, self);
      }
      return k + 1, events;
    }

    method PerformAll(deeds: seq<Deed>, ghost self: Option<LoopId>) returns (ghost events: seq<Event>)
      requires Calm(Snap(), self) && SpareDeeds(deeds, self)
      modifies this`owners, this`dispositions, this`wakeOwner, this`wakeFd, this`loops, this`pending
      ensures Snap() == RunEvents(old(Snap()), events) && Spared(old(Snap()), events, self)
      ensures Plain(deeds) ==> events == Effect(old(Snap()), deeds)
      decreases deeds
    {
      hide Calm, RunEvents, Spared;
      ghost var start := Snap();
      events := [];
      NothingYet(start, self);
      var i := 0;
      while i < |deeds|
        invariant i <= |deeds| && Calm(Snap(), self)
        invariant Snap() == RunEvents(start, events) && Spared(start, events, self)
        invariant Plain(deeds) ==> events == Effect(start, deeds[..i])
      {
        ghost var mid := Snap();
        ghost var more := Perform(deeds[i], self);
        assert deeds[..i + 1][..i] == deeds[..i];
        EventsBury(start, events);
        SparedTogether(start, events, mid, more, self);
        RunConcat(start, events, more);
        EventsKeepCalm(mid, more, self);
        events := events + more;
        i := i + 1;
      }
      assert deeds[..i] == deeds;
    }

    /** Another loop closes or cleans up; yet others may act inside that. The effect is that of a sequence of events. */
    method Perform(deed: Deed, ghost self: Option<LoopId>) returns (ghost events: seq<Event>)
      requires Calm(Snap(), self) && SpareDeed(deed, self)
      modifies this`owners, this`dispositions, this`wakeOwner, this`wakeFd, this`loops, this`pending
      ensures Snap() == RunEvents(old(Snap()), events) && Spared(old(Snap()), events, self)
      ensures deed.intervals == [] ==> events == if Applies(old(Snap()), deed.ev) then [deed.ev] else []
      decreases deed
    {
      ghost var start := Snap();
      SparingInside(deed, self);
      events := [];
      match deed.ev {
        case Close(id, onMain, order) =>
          if id in loops && !loops[id].finalized && Elements(order, loops[id].handlers.Keys) {
            events := CloseLoop(id, onMain, order, deed.intervals, self);
            RunOneMore(start, events, deed.ev, self);
            events := events + [deed.ev];
          }
        case RunCleanup(id) =>
          if id in pending {
            events := CleanUp(id, deed.intervals, self);
            RunOneMore(start, events, deed.ev, self);
            events := events + [deed.ev];
          }
      }
    }

    /** Uninstalls the descriptor if `id` owns it; the token is given up once the system call has returned. */
    method DropWake(id: LoopId, intervals: seq<Interval>, k: nat, ghost self: Option<LoopId>)
      returns (k': nat, ghost events: seq<Event>)
      requires intervals != [] ==> Calm(Snap(), self) && Sparing(intervals, self)
      modifies this`owners, this`dispositions, this`wakeOwner, this`wakeFd, this`loops, this`pending
      ensures Spared(old(Snap()), events, self) && (intervals == [] ==> events == [])
      ensures Snap() ==
        if old(wakeOwner) == Some(id) then RunEvents(CutWake(old(Snap())), events).(wakeOwner := None, wakeFd := None)
                        else old(Snap())
      ensures Others(events, id) ==> Snap() == ReleaseWakeup(RunEvents(old(Snap()), events), id)
      ensures old(wakeOwner) != Some(id) ==> events == []
      ensures old(wakeOwner) == Some(id) ==> Boundaried(CutWake(old(Snap())), events, intervals, k)
      ensures k' == if old(wakeOwner) == Some(id) then k + 1 else k
      ensures DefaultsStay(old(dispositions), dispositions)
      decreases intervals, 1
    {
      hide RunEvents, Spared, ByDefault, Boundaried;
      ghost var start := Snap();
      k', events := k, [];
      NothingYet(start, self);
      if wakeOwner == Some(id) {
        wakeFd := None;
        CutWakeCalm(start, self);
        k', events := Elsewhere(intervals, k, self);
        EventsKeepGone(CutWake(start), events);
        SparedSame(start, CutWake(start), events, self);
        if Others(events, id) { CutWakeCommutes(start, id, events); }
        EventsKeepDefaults(CutWake(start), events);
        wakeOwner := None;
      }
    }

    /** `_finish_deferred_signal_cleanup`; reports whether some reset failed. */
    method FinishCleanup(signals: seq<Sig>, id: LoopId, intervals: seq<Interval>, k: nat, ghost self: Option<LoopId>)
      returns (failed: bool, ghost events: seq<Event>)
      requires intervals != [] ==> Calm(Snap(), self) && Sparing(intervals, self) && Dead(Snap(), id)
      modifies this`owners, this`dispositions, this`wakeOwner, this`wakeFd, this`loops, this`pending
      ensures Spared(old(Snap()), events, self) && Others(events, id) && (intervals == [] ==> events == [])
      ensures Snap() == ReleaseWakeup(Release(RunEvents(old(Snap()), events), id, AsSet(signals)), id)
      ensures AllReset(old(Snap()), id, AsSet(signals), Snap())
      ensures failed <==> SomeStuck(old(Snap()), id, signals)
      decreases intervals, 3
    {
      hide RunEvents, Spared, Release, ReleaseWakeup, Calm, Dead, SomeStuck, AllReset;
      ghost var start := Snap();
      var k1;
      ghost var more;
      k1, events := DropWake(id, intervals, k, self);
      SparedOthers(start, events, id, self);
      ghost var mid := Snap();
      ReleasedWakeCalm(start, events, id, self);
      failed, more := ResetOwned(signals, id, intervals, k1, self);
      ghost var u := RunEvents(start, events);
      ReleaseWakeupCommutes(u, id, more);
      ReleaseWakeupKeepsSlots(RunEvents(u, more), id, AsSet(signals));
      RunConcat(start, events, more);
      SparedTogether(start, events, mid, more, self);
      OthersTogether(events, more, id);
      StuckAlike(start, events, id, signals);
      events := events + more;
      ReleaseResetsAll(start, events, id, AsSet(signals));
    }

    /** Resets the signals still owned by `id`; a signal that cannot be reset keeps its owner. */
    method ResetOwned(signals: seq<Sig>, id: LoopId, intervals: seq<Interval>, k: nat, ghost self: Option<LoopId>)
      returns (failed: bool, ghost events: seq<Event>)
      requires intervals != [] ==> Calm(Snap(), self) && Sparing(intervals, self) && Dead(Snap(), id)
      modifies this`owners, this`dispositions, this`wakeOwner, this`wakeFd, this`loops, this`pending
      ensures Spared(old(Snap()), events, self) && Others(events, id) && (intervals == [] ==> events == [])
      ensures Snap() == Release(RunEvents(old(Snap()), events), id, AsSet(signals))
      ensures failed <==> SomeStuck(old(Snap()), id, signals)
      decreases intervals, 2, 1
    {
      hide RunEvents, Spared, Release, Calm, Dead, SomeStuck;
      ghost var start := Snap();
      failed, events := false, [];
      NothingYet(start, self);
      ReleaseNothing(start, id);
      NobodyStuck(start, id);
      var i, k' := 0, k;
      assert signals[..0] == [];
      while i < |signals|
        invariant i <= |signals| && (intervals != [] ==> Calm(Snap(), self) && Dead(Snap(), id))
        invariant Spared(start, events, self) && Others(events, id) && (intervals == [] ==> events == [])
        invariant Snap() == Release(RunEvents(start, events), id, AsSet(signals[..i]))
        invariant Buried(start, Snap()) && failed == SomeStuck(start, id, signals[..i])
      {
        var reset;
        ghost var more;
        ghost var mid := Snap();
        reset, k', more := ResetOne(signals[i], id, intervals, k', self);
        ResetStep(start, events, id, signals, i, more, mid);
        ReleasedCalm(mid, more, id, {signals[i]}, self);
        SparedTogether(start, events, mid, more, self);
        OthersTogether(events, more, id);
        events := events + more;
        failed := failed || !reset;
        i := i + 1;
      }
      assert signals[..i] == signals;
    }

    /** Resets one signal, unless it has changed hands; if it changes hands during the reset, its new owner keeps it. */
    method ResetOne(sig: Sig, id: LoopId, intervals: seq<Interval>, k: nat, ghost self: Option<LoopId>)
      returns (reset: bool, k': nat, ghost events: seq<Event>)
      requires intervals != [] ==> Calm(Snap(), self) && Sparing(intervals, self) && Dead(Snap(), id)
      modifies this`owners, this`dispositions, this`wakeOwner, this`wakeFd, this`loops, this`pending
      ensures Spared(old(Snap()), events, self) && Others(events, id) && (intervals == [] ==> events == [])
      ensures Snap() == Release(RunEvents(old(Snap()), events), id, {sig})
      ensures AllReset(old(Snap()), id, {sig}, Snap())
      ensures !reset <==> Owns(old(Snap()), sig, id) && sig !in resettable
      ensures Owns(old(Snap()), sig, id) ==> Boundaried(AfterReset(old(Snap()), sig), events, intervals, k)
      ensures k' == if Owns(old(Snap()), sig, id) then k + 1 else k
      decreases intervals, 2, 0
    {
      hide RunEvents, Spared, Release, Calm, Dead, AllReset, ByDefault, Boundaried;
      ghost var start := Snap();
      reset, k', events := true, k, [];
      NothingYet(start, self);
      ReleaseUnowned(start, id, sig);
      if sig in owners && owners[sig] == id {
        if sig in resettable {
          RestoreDefault(sig);
          DefaultedCalm(start, sig, id, self);
        } else {
          reset := false;
        }
        ghost var mid := Snap();
        k', events := Elsewhere(intervals, k, self);
        SparedOthers(mid, events, id, self);
        SparedSame(start, mid, events, self);
        if reset {
          DefaultedCommutes(start, id, sig, events);
          DefaultedRelease(RunEvents(start, events), id, sig);
          if sig in owners && owners[sig] == id {
            owners := owners - {sig};
          }
        } else {
          ReleaseUnowned(RunEvents(start, events), id, sig);
        }
        EventsKeepKeys(start, events);
      }
      ReleaseResetsAll(start, events, id, {sig});
    }

    /** A deferred cleanup runs; it has been taken off the queue. */
    method CleanUp(id: LoopId, intervals: seq<Interval>, ghost self: Option<LoopId>) returns (ghost events: seq<Event>)
      requires id in pending && !Live(Snap(), id)
      requires (intervals != [] ==> Calm(Snap(), self) && Sparing(intervals, self))
      modifies this`owners, this`dispositions, this`wakeOwner, this`wakeFd, this`loops, this`pending
      ensures Spared(old(Snap()), events, self) && Others(events, id) && (intervals == [] ==> events == [])
      ensures Snap() == Cleaned(RunEvents(old(Snap()), events), id)
      ensures AllReset(old(Snap()), id, AsSet(old(pending)[id]), Snap())
      decreases intervals, 4
    {
      hide RunEvents, Spared, Release, ReleaseWakeup, Calm, AllReset;
      ghost var start := Snap();
      var signals := pending[id];
      pending := pending - {id};
      UndeferredCalm(start, id, self);
      var failed;
      failed, events := FinishCleanup(signals, id, intervals, 0, self);
      UndeferredCommutes(start, id, events);
      CleanedAlike(start, events, id);
      CleanedResetsAll(start, events, id);
      SparedEarlier(start, Undeferred(start, id), events, self);
    }
    /** Resets a signal on behalf of `remove_signal_handler`, then deletes the handler if it is still the same one. */
    method TakeDown(id: LoopId, sig: Sig, onMain: bool, intervals: seq<Interval>, k: nat, ghost self: Option<LoopId>)
      returns (raised: bool, k': nat, ghost events: seq<Event>)
      requires id in loops && sig in loops[id].handlers
      requires (intervals != [] ==> Calm(Snap(), self) && Sparing(intervals, self))
      modifies this`owners, this`dispositions, this`wakeOwner, this`wakeFd, this`loops, this`pending
      ensures Spared(old(Snap()), events, self) && (intervals == [] ==> events == []) && id in loops
      ensures raised <==> Owns(old(Snap()), sig, id) && (!onMain || sig !in resettable)
      ensures raised ==> Snap() == RunEvents(old(Snap()), events)
      ensures raised ==> Boundaried(old(Snap()), events, intervals, k)
      ensures !raised && Owns(old(Snap()), sig, id) ==>
        Boundaried(Defaulted(old(Snap()), sig), events, intervals, k)
      ensures k' == if Owns(old(Snap()), sig, id) then k + 1 else k
      ensures id in RunEvents(old(Snap()), events).loops
      ensures !raised && Others(events, id) ==> Snap() == WithoutHandler(RunEvents(old(Snap()), events), id, sig)
      ensures !raised && Owns(old(Snap()), sig, id) ==> ByDefault(dispositions, sig)
      ensures old(Invariant(Snap())) ==> Invariant(Snap())
      ensures (old(Calm(Snap(), self)) ==> Calm(Snap(), self)) && Buried(old(Snap()), Snap())
      decreases intervals, 1
    {
      hide RunEvents, Spared, Calm, Invariant, ByDefault, Boundaried;
      ghost var start := Snap();
      var entry := loops[id].handlers[sig];
      raised, k', events := false, k, [];
      NothingYet(start, self);
      if sig in owners && owners[sig] == id {
        if !onMain || sig !in resettable {
          k', events := Elsewhere(intervals, k, self);
          EventsKeepKeys(start, events);
          if Invariant(start) { InvariantKept(start, events); }
          EventsStayCalm(start, events, self);
          return true, k', events;
        }
        k', events := ResetOwn(id, sig, intervals, k, self);
      }
      if Invariant(Snap()) { WithoutEntryKeeps(Snap(), id, sig); }
      TakenDownCalm(start, events, Snap(), id, sig, self);
      DeleteEntry(id, sig, entry);
    }

    /** Resets a signal that the loop owns. */
    method ResetOwn(id: LoopId, sig: Sig, intervals: seq<Interval>, k: nat, ghost self: Option<LoopId>)
      returns (k': nat, ghost events: seq<Event>)
      requires id in loops && Owns(Snap(), sig, id)
      requires (intervals != [] ==> Calm(Snap(), self) && Sparing(intervals, self))
      modifies this`owners, this`dispositions, this`wakeOwner, this`wakeFd, this`loops, this`pending
      ensures Spared(old(Snap()), events, self) && (intervals == [] ==> events == []) && id in loops
      ensures id in RunEvents(old(Snap()), events).loops
      ensures Snap() == RunEvents(Defaulted(old(Snap()), sig), events) && ByDefault(dispositions, sig)
      ensures Boundaried(Defaulted(old(Snap()), sig), events, intervals, k) && k' == k + 1
      ensures Others(events, id) ==>
        && Snap() == Defaulted(RunEvents(old(Snap()), events), sig) && Owns(RunEvents(old(Snap()), events), sig, id)
        && loops[id] == old(loops)[id]
      ensures old(Invariant(Snap())) ==> Invariant(Snap())
      decreases intervals, 1, 0
    {
      hide RunEvents, Spared, Calm, Invariant, ByDefault, Boundaried;
      ghost var start := Snap();
      RestoreDefault(sig);
      DefaultedCalm(start, sig, id, self);
      k', events := Elsewhere(intervals, k, self);
      SparedSame(start, Defaulted(start, sig), events, self);
      EventsKeepKeys(start, events);
      EventsKeepKeys(Defaulted(start, sig), events);
      EventsKeepDefaults(Defaulted(start, sig), events);
      if Invariant(start) {
        DefaultedInvariant(start, sig);
        InvariantKept(Defaulted(start, sig), events);
      }
      if Others(events, id) {
        DefaultedCommutes(start, id, sig, events);
        EventsHold(start, id, events);
      }
    }

    method DeleteEntry(id: LoopId, sig: Sig, entry: Entry)
      requires id in loops
      modifies this`loops, this`owners
      ensures Snap() ==
        if Lookup(old(loops)[id].handlers, sig) == Some(entry) then WithoutEntry(old(Snap()), id, sig) else old(Snap())
    {
      if sig in loops[id].handlers && loops[id].handlers[sig] == entry {
        loops := loops[id := loops[id].(handlers := loops[id].handlers - {sig})];
        if sig in owners && owners[sig] == id {
          owners := owners - {sig};
        }
      }
    }

    /** `_detach_wakeup_fd`. */
    method DetachWakeup(id: LoopId, onMain: bool, intervals: seq<Interval>, k: nat, ghost self: Option<LoopId>)
      returns (k': nat, ghost events: seq<Event>)
      requires id in loops && (intervals != [] ==> Calm(Snap(), self) && Sparing(intervals, self))
      modifies this`owners, this`dispositions, this`wakeOwner, this`wakeFd, this`loops, this`pending
      ensures Spared(old(Snap()), events, self) && (intervals == [] ==> events == []) && id in loops
      ensures id in RunEvents(old(Snap()), events).loops
      ensures Others(events, id) ==> Snap() == Detached(RunEvents(old(Snap()), events), id, onMain)
      ensures old(Invariant(Snap())) ==> Invariant(Snap())
      ensures onMain && old(loops)[id].attached && old(loops)[id].handlers == map[] && old(wakeOwner) == Some(id) ==>
        Boundaried(CutWake(old(Snap())), events, intervals, k)
      ensures DefaultsStay(old(dispositions), dispositions)
      decreases intervals, 2
    {
      hide RunEvents, Spared, Calm, Invariant, ByDefault, Boundaried;
      ghost var start := Snap();
      k', events := k, [];
      NothingYet(start, self);
      if onMain && loops[id].attached && loops[id].handlers == map[] {
        k', events := DropWake(id, intervals, k, self);
        EventsKeepKeys(start, events);
        EventsKeepKeys(CutWake(start), events);
        if Others(events, id) { EventsHold(start, id, events); }
        if Invariant(start) {
          if start.wakeOwner == Some(id) { DroppedKeeps(start, id, events); } else { UnattachedKeeps(start, id); }
        }
        loops := loops[id := loops[id].(attached := false)];
      }
    }

    /** The part of `remove_signal_handler` after its argument checks. */
    method RemoveHandler(id: LoopId, sig: Sig, onMain: bool, intervals: seq<Interval>, k: nat,
                         ghost self: Option<LoopId>)
      returns (raised: bool, k': nat, ghost events: seq<Event>)
      requires id in loops && sig in loops[id].handlers
      requires (intervals != [] ==> Calm(Snap(), self) && Sparing(intervals, self))
      modifies this`owners, this`dispositions, this`wakeOwner, this`wakeFd, this`loops, this`pending
      ensures Spared(old(Snap()), events, self) && (intervals == [] ==> events == []) && id in loops
      ensures raised <==> Owns(old(Snap()), sig, id) && (!onMain || sig !in resettable)
      ensures raised ==> Snap() == RunEvents(old(Snap()), events)
      ensures id in RunEvents(old(Snap()), events).loops
      ensures !raised && Others(events, id) ==> Snap() == Removed(RunEvents(old(Snap()), events), id, sig, onMain)
      ensures !raised && Owns(old(Snap()), sig, id) ==> ByDefault(dispositions, sig)
      ensures old(Invariant(Snap())) ==> Invariant(Snap())
      decreases intervals, 3
    {
      hide RunEvents, Spared, Calm, Invariant, WithoutHandler, Detached, Removed, ByDefault;
      ghost var start := Snap();
      raised, k', events := TakeDown(id, sig, onMain, intervals, k, self);
      if raised { return; }
      ghost var mid := Snap();
      ghost var more;
      k', more := DetachWakeup(id, onMain, intervals, k', self);
      SparedTogether(start, events, mid, more, self);
      OthersTogether(events, more, id);
      RunConcat(start, events, more);
      EventsKeepKeys(start, events + more);
      if Others(events + more, id) { RemovedTogether(RunEvents(start, events), id, sig, onMain, more); }
      events := events + more;
    }
    /**
     `close()`, as far as signals are concerned: its effect is that of one event, after those that happened
     meanwhile.
     */
    method CloseLoop(id: LoopId, onMain: bool, order: seq<Sig>, intervals: seq<Interval>, ghost self: Option<LoopId>)
      returns (ghost events: seq<Event>)
      requires Live(Snap(), id) && Elements(order, loops[id].handlers.Keys) && id !in pending
      requires wakeOwner == Some(id) ==> loops[id].attached
      requires intervals != [] ==> Calm(Snap(), self) && Sparing(intervals, self)
      modifies this`owners, this`dispositions, this`wakeOwner, this`wakeFd, this`loops, this`pending
      ensures Spared(old(Snap()), events, self) && Others(events, id) && (intervals == [] ==> events == [])
      ensures Snap() == Closed(RunEvents(old(Snap()), events), id, onMain, order)
      ensures onMain ==> AllReset(old(Snap()), id, old(loops)[id].handlers.Keys, Snap())
      decreases intervals, 5
    {
      hide RunEvents, Spared, Stripped, Closed, Elements, Calm, Buried, AllReset;
      ghost var start := Snap();
      loops := loops[id := loops[id].(finalized := true)];
      BeginClose(start, id, onMain, order, self);
      var left, k;
      left, k, events := RemoveAll(id, onMain, order, intervals, start, self);
      ghost var u, c := RunEvents(start, events), Snap();
      StillOpen(start, id, events);
      CloseStripped(u, id, onMain, order, left, c);
      if loops[id].handlers != map[] || loops[id].attached {
        ClearedCalm(c, id, self);
        loops := loops[id := LoopRec(map[], false, true)];
        if onMain {
          var failed;
          ghost var more;
          failed, more := FinishCleanup(left, id, intervals, k, self);
          CloseCleaned(u, id, order, left, c, more);
          RunConcat(start, events, more);
          SparedEarlier(c, Finalize(c, id), more, self);
          SparedTogether(start, events, c, more, self);
          OthersTogether(events, more, id);
          events := events + more;
        } else {
          pending := pending[id := left];
        }
      }
      if onMain { ClosedResetsAll(start, events, id, order); }
    }

    /** Removes handlers until one of them raises; returns those still registered. */
    method RemoveAll(id: LoopId, onMain: bool, order: seq<Sig>, intervals: seq<Interval>, ghost start: World,
                     ghost self: Option<LoopId>)
      returns (left: seq<Sig>, k: nat, ghost events: seq<Event>)
      requires Stripped(start, id, onMain, order, 0, Snap()) && Elements(order, AsSet(order)) && Dead(Snap(), id)
      requires (intervals != [] ==> Calm(Snap(), self) && Sparing(intervals, self)) && Buried(start, Snap())
      modifies this`owners, this`dispositions, this`wakeOwner, this`wakeFd, this`loops, this`pending
      ensures Spared(start, events, self) && Others(events, id) && (intervals == [] ==> events == [])
      ensures |left| <= |order| && left == order[|order| - |left|..]
      ensures Stripped(RunEvents(start, events), id, onMain, order, |order| - |left|, Snap())
      ensures left != [] ==> Owns(RunEvents(start, events), left[0], id) && (!onMain || left[0] !in resettable)
      ensures Dead(Snap(), id) && (intervals != [] ==> Calm(Snap(), self) && Sparing(intervals, self))
      ensures Buried(start, Snap())
      decreases intervals, 4
    {
      hide RunEvents, Spared, Stripped, Elements, Calm, Dead, Removed, Buried;
      events, k := [], 0;
      NothingYet(start, self);
      var i := 0;
      while i < |order|
        invariant 0 <= i <= |order|
        invariant Stripped(RunEvents(start, events), id, onMain, order, i, Snap())
        invariant Spared(start, events, self) && Others(events, id) && (intervals == [] ==> events == [])
        invariant Dead(Snap(), id) && (intervals != [] ==> Calm(Snap(), self) && Sparing(intervals, self))
        invariant Buried(start, Snap())
      {
        ghost var u, c := RunEvents(start, events), Snap();
        StrippedNext(u, id, onMain, order, i, c);
        var raised;
        ghost var more;
        raised, k, more := RemoveHandler(id, order[i], onMain, intervals, k, self);
        SparedOthers(c, more, id, self);
        StrippedCarried(u, id, onMain, order, i, c, more);
        StrippedNext(RunEvents(u, more), id, onMain, order, i, RunEvents(c, more));
        RemovalCalm(c, more, id, order[i], onMain, self);
        RunConcat(start, events, more);
        SparedTogether(start, events, c, more, self);
        OthersTogether(events, more, id);
        BuriedTwice(start, c, Snap());
        events := events + more;
        if raised {
          StillOwned(c, id, order[i], more);
          return order[i..], k, events;
        }
        RemovalAllowed(c, id, order[i], more, onMain);
        StripOne(RunEvents(u, more), id, onMain, order, i, RunEvents(c, more));
        i := i + 1;
      }
      return [], k, events;
    }

    // ----- interference

    /** Other loops act at a call boundary of a registration. */
    method Interfere(deeds: seq<Deed>, ghost self: Option<LoopId>) returns (ghost events: seq<Event>)
      requires Calm(Snap(), self) && SpareDeeds(deeds, self)
      modifies this
      ensures trace == old(trace) + events && flat == old(flat)
      ensures Snap() == RunEvents(old(Snap()), events) && Calm(Snap(), self)
      ensures (self.Some? ==> Spare(events, self.value)) && (Plain(deeds) ==> events == Events(deeds))
    {
      hide Calm, RunEvents, Spared;
      ghost var before := Snap();
      events := [];
      NothingYet(before, self);
      var i := 0;
      while i < |deeds|
        invariant 0 <= i <= |deeds| && trace == old(trace) && flat == old(flat)
        invariant Snap() == RunEvents(before, events) && Calm(Snap(), self)
        invariant (self.Some? ==> Spare(events, self.value))
        invariant Plain(deeds) ==> events == Events(deeds)[..i]
      {
        ghost var mid := Snap();
        ghost var more := InterfereOnce(deeds[i], self);
        RunConcat(before, events, more);
        EventsKeepCalm(mid, more, self);
        events := events + more;
        i := i + 1;
      }
      trace := trace + events;
    }

    method InterfereOnce(deed: Deed, ghost self: Option<LoopId>) returns (ghost events: seq<Event>)
      requires Calm(Snap(), self) && SpareDeed(deed, self)
      modifies this`owners, this`dispositions, this`wakeOwner, this`wakeFd, this`loops, this`pending
      ensures Snap() == RunEvents(old(Snap()), events)
      ensures (self.Some? ==> Spare(events, self.value)) && (deed.intervals == [] ==> events == [deed.ev])
    {
      ghost var start := Snap();
      if deed.intervals == [] {
        ApplyOne(deed.ev);
        events := [deed.ev];
        NothingYet(start, self);
        assert events[..0] == [];
      } else {
        events := Perform(deed, self);
      }
    }

    method ApplyOne(ev: Event)
      requires PendingFinal(Snap())
      requires ev.Close? && wakeOwner == Some(ev.id) && Live(Snap(), ev.id) ==> loops[ev.id].attached
      modifies this`owners, this`dispositions, this`wakeOwner, this`wakeFd, this`loops, this`pending
      ensures Snap() == Apply(old(Snap()), ev)
    {
      hide Spared;
      ghost var start := Snap();
      NothingYet(start, None);
      match ev {
        case Close(id, onMain, order) =>
          if id in loops && !loops[id].finalized && Elements(order, loops[id].handlers.Keys) {
            ghost var events := CloseLoop(id, onMain, order, [], None);
          }
        case RunCleanup(id) =>
          if id in pending {
            ghost var events := CleanUp(id, [], None);
          }
      }
    }

    /** `SignalOwner.is_finalized`. */
    predicate Finalized(id: LoopId)
      reads this`owners, this`dispositions, this`wakeOwner, this`wakeFd, this`loops, this`pending
    {
      !Live(Snap(), id)
    }

    // ----- registration

    /** Other loops act at a call boundary of a registration. */
    method Boundary(deeds: seq<Deed>, ghost t: Start, ghost signal: SignalPhase, ghost wake: WakePhase,
                    ghost origin: World)
      returns (ghost events: seq<Event>)
      requires Within(Snap(), origin, trace, t, signal, wake) && SpareDeeds(deeds, Some(t.self))
      modifies this
      ensures trace == old(trace) + events && flat == old(flat) && (Plain(deeds) ==> events == Events(deeds))
      ensures Within(Snap(), origin, trace, t, signal, wake) && Snap() == RunEvents(old(Snap()), events)
      ensures t.self in old(loops) && t.self in loops && loops[t.self] == old(loops[t.self])
      ensures forall id :: old(Finalized(id)) ==> Finalized(id)
      ensures wake == Taken || old(wakeFd) == None ==> wakeFd == old(wakeFd)
    {
      hide Registering, RunEvents, Calm;
      ghost var before, shadow, past := Snap(), RunEvents(origin, trace), trace;
      RegisteringCalm(before, shadow, t, signal, wake);
      SelfKnown(before, shadow, t, signal, wake);
      events := Interfere(deeds, Some(t.self));
      EventsKeepRegistering(before, shadow, t, signal, wake, events);
      EventsKeepGone(before, events);
      RunConcat(origin, past, events);
      SelfKnown(Snap(), RunEvents(origin, trace), t, signal, wake);
    }

    /** `_attach_wakeup_fd` on the main thread; `ok` says whether installing the descriptor succeeds. */
    method AttachWakeup(self: LoopId, ok: bool, b: Boundaries<Deed>, ghost t: Start, ghost signal: SignalPhase,
                        ghost origin: World)
      returns (state: Option<WakeupState>, ghost wake: WakePhase)
      requires t.self == self && AllSpare(b, Some(self)) && wakeOwner == t.wake && wakeFd == t.wake
      requires Within(Snap(), origin, trace, t, signal, Together) && trace == [] && origin.wakeOwner == t.wake
      requires Told(b, flat)
      modifies this
      ensures Within(Snap(), origin, trace, t, signal, wake) && trace == AttachEvents(origin, ok, flat) && Told(b, flat)
      ensures state == if ok then Some(WakeupState(t.wake, t.wake, old(loops)[self].attached)) else None
      ensures self in loops && loops[self] == old(loops)[self].(attached := ok || old(loops)[self].attached)
      ensures if ok then wake == Taken && wakeFd == Some(self) else wake == Together || wake == Abandoned
    {
      hide Registering, RunEvents;
      SelfKnown(Snap(), RunEvents(origin, trace), t, signal, Together);
      var previous := wakeOwner;
      var was := loops[self].attached;
      TakeDescriptor(self, ok, b, t, signal, origin);
      if ok {
        MarkAttached(self, true, t, signal, Taken, origin);
        return Some(WakeupState(previous, previous, was)), Taken;
      }
      wake := UndoAttach(self, previous, b, t, signal, origin);
      return None, wake;
    }

    /** Publishes the token, then tries to install the descriptor. */
    method TakeDescriptor(self: LoopId, ok: bool, b: Boundaries<Deed>, ghost t: Start, ghost signal: SignalPhase,
                          ghost origin: World)
      requires t.self == self && AllSpare(b, Some(self)) && wakeFd == t.wake
      requires Within(Snap(), origin, trace, t, signal, Together) && trace == [] && Told(b, flat)
      modifies this
      ensures Within(Snap(), origin, trace, t, signal, Taken) && trace == flat.attachReturns && Told(b, flat)
      ensures self in old(loops) && self in loops && loops[self] == old(loops)[self]
      ensures wakeFd == if ok then Some(self) else t.wake
    {
      hide Registering, RunEvents;
      TakeWake(Snap(), RunEvents(origin, trace), t, signal, Together, if ok then Some(self) else wakeFd);
      wakeOwner := Some(self);
      if ok { wakeFd := Some(self); }
      ghost var attachReturns := Boundary(b.attachReturns, t, signal, Taken, origin);
      flat := flat.(attachReturns := attachReturns);
    }

    method MarkAttached(self: LoopId, attached: bool, ghost t: Start, ghost signal: SignalPhase,
                        ghost wake: WakePhase, ghost origin: World)
      requires t.self == self && Within(Snap(), origin, trace, t, signal, wake)
      modifies this`loops
      ensures Within(Snap(), origin, trace, t, signal, wake)
      ensures self in old(loops) && loops == old(loops)[self := old(loops)[self].(attached := attached)]
    {
      hide Registering, RunEvents;
      SetAttached(Snap(), RunEvents(origin, trace), t, signal, wake, attached);
      loops := loops[self := loops[self].(attached := attached)];
    }

    /** Installing the descriptor failed. */
    method UndoAttach(self: LoopId, previous: Option<LoopId>, b: Boundaries<Deed>, ghost t: Start,
                      ghost signal: SignalPhase, ghost origin: World)
      returns (ghost wake: WakePhase)
      requires t.self == self && AllSpare(b, Some(self)) && previous == t.wake && wakeFd == t.wake
      requires Within(Snap(), origin, trace, t, signal, Taken) && trace == flat.attachReturns
      requires origin.wakeOwner == t.wake
      requires Told(b, flat)
      modifies this
      ensures Within(Snap(), origin, trace, t, signal, wake) && (wake == Together || wake == Abandoned)
      ensures self in old(loops) && self in loops && loops[self] == old(loops)[self]
      ensures trace == AttachEvents(origin, false, flat) && Told(b, flat)
    {
      hide Registering, RunEvents;
      SelfKnown(Snap(), RunEvents(origin, trace), t, signal, Taken);
      if previous != None {
        ghost var attachCheck := Boundary(b.attachCheck, t, signal, Taken, origin);
        flat := flat.(attachCheck := attachCheck);
        Gone(Snap(), RunEvents(origin, trace), t, signal, Taken, previous.value);
      }
      if previous == None || !Finalized(previous.value) {
        GiveBack(Snap(), RunEvents(origin, trace), t, signal);
        wakeOwner := previous;
        return Together;
      }
      AbandonWake(self, b, t, signal, origin);
      return Abandoned;
    }

    method AbandonWake(self: LoopId, b: Boundaries<Deed>, ghost t: Start, ghost signal: SignalPhase,
                       ghost origin: World)
      requires t.self == self && AllSpare(b, Some(self)) && t.wake.Some? && Finalized(t.wake.value)
      requires Within(Snap(), origin, trace, t, signal, Taken) && Told(b, flat)
      modifies this
      ensures Within(Snap(), origin, trace, t, signal, Abandoned) && trace == old(trace) + flat.attachCleared
      ensures flat == old(flat).(attachCleared := flat.attachCleared) && Told(b, flat)
      ensures self in old(loops) && self in loops && loops[self] == old(loops)[self]
    {
      hide Registering, RunEvents;
      TakeWake(Snap(), RunEvents(origin, trace), t, signal, Taken, None);
      TakenIsOurs(Snap(), RunEvents(origin, trace), t, signal);
      wakeFd := None;
      assert Finalized(t.wake.value);
      ghost var attachCleared := Boundary(b.attachCleared, t, signal, Taken, origin);
      flat := flat.(attachCleared := attachCleared);
      GiveUp(Snap(), RunEvents(origin, trace), t, signal, Taken);
      wakeOwner := None;
    }

    /** `_restore_wakeup_fd`. */
    method RestoreWakeup(self: LoopId, previous: WakeupState, b: Boundaries<Deed>,
                         ghost t: Start, ghost signal: SignalPhase, ghost origin: World)
      returns (ghost wake: WakePhase)
      requires t.self == self && AllSpare(b, Some(self))
      requires Within(Snap(), origin, trace, t, signal, Taken)
      requires previous == WakeupState(t.wake, t.wake, origin.loops[self].attached)
      requires Told(b, flat)
      modifies this
      ensures Told(b, flat) && SameCommit(old(flat), flat)
      ensures Within(Snap(), origin, trace, t, signal, wake) && (wake == Together || wake == Abandoned)
      ensures self in old(loops) && self in loops && loops[self].handlers == old(loops)[self].handlers
      ensures wake == Together ==> loops[self].attached == origin.loops[self].attached
      ensures old(trace) <= trace
    {
      hide Registering, RunEvents, AllSpare, Told;
      TakenIsOurs(Snap(), RunEvents(origin, trace), t, signal);
      assert wakeOwner == Some(self);
      var abandon;
      abandon := ReinstallWakeup(self, previous, b, t, signal, origin);
      if abandon {
        AbandonRestored(self, b, t, signal, origin);
        return Abandoned;
      }
      wake := PublishWakeup(self, previous, b, t, signal, origin);
    }

    /** The previous owner is gone: nobody has the descriptor. */
    method AbandonRestored(self: LoopId, b: Boundaries<Deed>,
                           ghost t: Start, ghost signal: SignalPhase, ghost origin: World)
      requires t.self == self && AllSpare(b, Some(self)) && Told(b, flat)
      requires t.wake.Some? && Finalized(t.wake.value) && wakeFd == None
      requires Within(Snap(), origin, trace, t, signal, Taken)
      modifies this
      ensures Told(b, flat) && SameCommit(old(flat), flat) && old(trace) <= trace
      ensures Within(Snap(), origin, trace, t, signal, Abandoned)
      ensures self in old(loops) && self in loops && loops[self] == old(loops)[self].(attached := false)
      ensures trace == old(trace) + flat.restoreCommit
    {
      hide Registering, RunEvents;
      GiveUp(Snap(), RunEvents(origin, trace), t, signal, Taken);
      wakeOwner := None;
      MarkAttached(self, false, t, signal, Abandoned, origin);
      ghost var restoreCommit := Boundary(b.restoreCommit, t, signal, Abandoned, origin);
      flat := flat.(restoreCommit := restoreCommit);
    }

    /** Reinstalls the previous descriptor, or none if its owner is finalized or the descriptor has been closed. */
    method ReinstallWakeup(self: LoopId, previous: WakeupState, b: Boundaries<Deed>,
                           ghost t: Start, ghost signal: SignalPhase, ghost origin: World)
      returns (abandon: bool)
      requires t.self == self && AllSpare(b, Some(self)) && previous.owner == t.wake && previous.fd == t.wake
      requires Within(Snap(), origin, trace, t, signal, Taken)
      requires Told(b, flat)
      modifies this
      ensures Told(b, flat) && SameCommit(old(flat), flat)
      ensures Within(Snap(), origin, trace, t, signal, Taken)
      ensures abandon ==> t.wake.Some? && Finalized(t.wake.value)
      ensures wakeFd == if abandon then None else t.wake
      ensures old(trace) <= trace
      ensures self in old(loops) && self in loops && loops[self] == old(loops)[self]
    {
      hide Registering, RunEvents, AllSpare, Told;
      abandon := CheckPrevious(self, previous.owner, b, t, signal, origin);
      abandon := SetPrevious(self, abandon, previous.fd, b, t, signal, origin);
    }

    /** Whether the previous owner has been finalized. */
    method CheckPrevious(self: LoopId, owner: Option<LoopId>, b: Boundaries<Deed>,
                         ghost t: Start, ghost signal: SignalPhase, ghost origin: World)
      returns (abandon: bool)
      requires t.self == self && AllSpare(b, Some(self)) && owner == t.wake && Told(b, flat)
      requires Within(Snap(), origin, trace, t, signal, Taken)
      modifies this
      ensures Told(b, flat) && SameCommit(old(flat), flat) && old(trace) <= trace
      ensures Within(Snap(), origin, trace, t, signal, Taken)
      ensures abandon ==> t.wake.Some? && Finalized(t.wake.value)
      ensures abandon <==> owner.Some? && !Live(RunEvents(old(Snap()), flat.restoreCheck), owner.value)
      ensures trace == old(trace) + (if owner.Some? then flat.restoreCheck else []) + flat.restoreSet
      ensures self in old(loops) && self in loops && loops[self] == old(loops)[self]
    {
      hide Registering, RunEvents;
      SelfKnown(Snap(), RunEvents(origin, trace), t, signal, Taken);
      abandon := false;
      if owner != None {
        ghost var restoreCheck := Boundary(b.restoreCheck, t, signal, Taken, origin);
        flat := flat.(restoreCheck := restoreCheck);
        abandon := Finalized(owner.value);
      }
      ghost var restoreSet := Boundary(b.restoreSet, t, signal, Taken, origin);
      flat := flat.(restoreSet := restoreSet);
    }

    /** The system call that reinstalls the descriptor, and the one that follows if it fails. */
    method SetPrevious(self: LoopId, given: bool, previous: Option<LoopId>, b: Boundaries<Deed>,
                       ghost t: Start, ghost signal: SignalPhase, ghost origin: World)
      returns (abandon: bool)
      requires t.self == self && AllSpare(b, Some(self)) && previous == t.wake && Told(b, flat)
      requires given ==> t.wake.Some? && Finalized(t.wake.value)
      requires Within(Snap(), origin, trace, t, signal, Taken)
      modifies this
      ensures Told(b, flat) && SameCommit(old(flat), flat) && old(trace) <= trace
      ensures Within(Snap(), origin, trace, t, signal, Taken)
      ensures abandon ==> t.wake.Some? && Finalized(t.wake.value)
      ensures abandon <==> given || (previous.Some? && !Usable(old(Snap()), previous.value))
      ensures trace == old(trace) + if abandon && !given then flat.restoreFailed else flat.restoreReturns
      ensures wakeFd == if abandon then None else t.wake
      ensures self in old(loops) && self in loops && loops[self] == old(loops)[self]
    {
      hide Registering, RunEvents;
      abandon := given;
      var fd := if abandon then None else previous;
      var closed := fd != None && Finalized(fd.value) && fd.value !in pending;
      TakenIsOurs(Snap(), RunEvents(origin, trace), t, signal);
      TakeWake(Snap(), RunEvents(origin, trace), t, signal, Taken, if closed then None else fd);
      if closed {
        wakeFd := None;
        abandon := true;
        assert Finalized(t.wake.value);
        ghost var restoreFailed := Boundary(b.restoreFailed, t, signal, Taken, origin);
        flat := flat.(restoreFailed := restoreFailed);
      } else {
        wakeFd := fd;
        assert abandon ==> Finalized(t.wake.value);
        ghost var restoreReturns := Boundary(b.restoreReturns, t, signal, Taken, origin);
        flat := flat.(restoreReturns := restoreReturns);
      }
    }

    /** Gives the wakeup token back, and takes it away again if its owner was finalized meanwhile. */
    method PublishWakeup(self: LoopId, previous: WakeupState, b: Boundaries<Deed>,
                         ghost t: Start, ghost signal: SignalPhase, ghost origin: World)
      returns (ghost wake: WakePhase)
      requires t.self == self && AllSpare(b, Some(self)) && wakeFd == t.wake
      requires Within(Snap(), origin, trace, t, signal, Taken)
      requires previous == WakeupState(t.wake, t.wake, origin.loops[self].attached)
      requires Told(b, flat)
      modifies this
      ensures Told(b, flat) && SameCommit(old(flat), flat)
      ensures Within(Snap(), origin, trace, t, signal, wake) && (wake == Together || wake == Abandoned)
      ensures self in old(loops) && self in loops && loops[self].handlers == old(loops)[self].handlers
      ensures wake == Together ==> loops[self].attached == origin.loops[self].attached
      ensures loops[self].attached <==>
        previous.wasAttached && !LostAgain(old(Snap()), self, previous, flat.restoreCommit)
      ensures old(trace) <= trace
    {
      hide Registering, RunEvents, Live;
      wake := GiveWakeBack(self, previous, t, signal, origin);
      if previous.owner != None {
        ghost var restoreCommit := Boundary(b.restoreCommit, t, signal, wake, origin);
        flat := flat.(restoreCommit := restoreCommit);
        if Finalized(previous.owner.value) && wakeOwner == previous.owner {
          ClearWakeup(self, b, t, signal, wake, origin);
          wake := Abandoned;
        } else if wake == Stale {
          StaleIsGone(Snap(), RunEvents(origin, trace), t, signal);
          wake := Abandoned;
        }
      }
    }

    method GiveWakeBack(self: LoopId, previous: WakeupState, ghost t: Start, ghost signal: SignalPhase,
                        ghost origin: World)
      returns (ghost wake: WakePhase)
      requires t.self == self && wakeFd == t.wake
      requires Within(Snap(), origin, trace, t, signal, Taken)
      requires previous == WakeupState(t.wake, t.wake, origin.loops[self].attached)
      modifies this`wakeOwner, this`loops
      ensures Within(Snap(), origin, trace, t, signal, wake)
      ensures wake == Together || (wake == Stale && t.wake.Some? && Finalized(t.wake.value))
      ensures self in old(loops) && self in loops && Snap() == WakeReturned(old(Snap()), self, previous)
    {
      hide Registering, RunEvents;
      ghost var shadow := RunEvents(origin, trace);
      SelfKnown(Snap(), shadow, t, signal, Taken);
      if t.wake == None || Live(Snap(), t.wake.value) {
        GiveBack(Snap(), shadow, t, signal);
        wake := Together;
      } else {
        BecomeStale(Snap(), shadow, t, signal, Taken, t.wake);
        wake := Stale;
      }
      wakeOwner := previous.owner;
      MarkAttached(self, previous.wasAttached, t, signal, wake, origin);
    }

    method ClearWakeup(self: LoopId, b: Boundaries<Deed>, ghost t: Start, ghost signal: SignalPhase,
                       ghost wake: WakePhase,
                       ghost origin: World)
      requires t.self == self && AllSpare(b, Some(self)) && wakeOwner == t.wake && t.wake.Some?
      requires Finalized(t.wake.value)
      requires Within(Snap(), origin, trace, t, signal, wake)
      requires Told(b, flat)
      modifies this
      ensures Told(b, flat) && SameCommit(old(flat), flat)
      ensures Within(Snap(), origin, trace, t, signal, Abandoned) && old(trace) <= trace
      ensures self in old(loops) && self in loops && loops[self] == old(loops)[self].(attached := false)
      ensures flat == old(flat).(restoreCleared := flat.restoreCleared) && trace == old(trace) + flat.restoreCleared
    {
      hide Registering, RunEvents;
      BecomeStale(Snap(), RunEvents(origin, trace), t, signal, wake, None);
      wakeFd := None;
      assert Finalized(t.wake.value);
      ghost var restoreCleared := Boundary(b.restoreCleared, t, signal, Stale, origin);
      flat := flat.(restoreCleared := restoreCleared);
      GiveUp(Snap(), RunEvents(origin, trace), t, signal, Stale);
      wakeOwner := None;
      MarkAttached(self, false, t, signal, Abandoned, origin);
    }

    /** The signal part of the rollback; `raised` says that resetting the signal failed. */
    method UndoSignal(self: LoopId, sig: Sig, previousEntry: Option<Entry>, previousOwner: Option<LoopId>,
                      b: Boundaries<Deed>,
                      ghost t: Start, ghost wake: WakePhase, ghost origin: World)
      returns (raised: bool, ghost signal: SignalPhase)
      requires t.self == self && t.sig == sig && t.slot.owner == previousOwner && AllSpare(b, Some(self))
      requires Within(Snap(), origin, trace, t, Published, wake)
      requires HandlersAside(Snap(), origin, t, previousEntry)
      requires Told(b, flat)
      modifies this
      ensures Told(b, flat) && SameAttach(old(flat), flat)
      ensures Within(Snap(), origin, trace, t, signal, wake)
      ensures self in old(loops) && self in loops && loops[self].attached == old(loops)[self].attached
      ensures wake == Taken ==> wakeFd == old(wakeFd)
      ensures raised <==> PriorStuck(RunEvents(origin, CommitFrom(origin, old(trace), previousOwner, flat)), t)
      ensures !raised ==> Finished(RunEvents(origin, CommitFrom(origin, old(trace), previousOwner, flat)), t, signal)
      ensures raised ==> signal == Published || signal == Lost
      ensures CommitFrom(origin, old(trace), previousOwner, flat) <= trace
      ensures raised ==> trace == CommitFrom(origin, old(trace), previousOwner, flat)
      ensures !raised ==> signal == Restored || signal == Reset
      ensures !raised ==> loops[self].handlers == origin.loops[self].handlers
    {
      hide Registering, RunEvents;
      SelfKnown(Snap(), RunEvents(origin, trace), t, Published, wake);
      var finalized := false;
      if previousOwner != None {
        ghost var rollbackCheck := Boundary(b.rollbackCheck, t, Published, wake, origin);
        flat := flat.(rollbackCheck := rollbackCheck);
        finalized := Finalized(previousOwner.value);
      }
      SelfKnown(Snap(), RunEvents(origin, trace), t, Published, wake);
      if finalized {
        Gone(Snap(), RunEvents(origin, trace), t, Published, wake, previousOwner.value);
        if sig !in resettable { return true, Published; }
        ghost var commit := trace;
        CompleteReset(self, sig, previousEntry, b, t, wake, origin);
        ResettableThroughout(origin, commit);
        return false, Reset;
      }
      if previousOwner != None {
        Gone(Snap(), RunEvents(origin, trace), t, Published, wake, previousOwner.value);
        raised, signal := ReturnSignal(self, sig, previousEntry, previousOwner.value, b, t, wake, origin);
      } else {
        DropSignal(Snap(), RunEvents(origin, trace), t, wake);
        RestoredHandlers(loops[self].handlers, origin.loops[self].handlers, sig, previousEntry);
        loops := loops[self := loops[self].(handlers := Previous(loops[self].handlers, sig, previousEntry))];
        owners := owners - {sig};
        return false, Restored;
      }
    }

    /** The previous owner is finalized, so its reset is completed. */
    method CompleteReset(self: LoopId, sig: Sig, previousEntry: Option<Entry>, b: Boundaries<Deed>,
                         ghost t: Start, ghost wake: WakePhase, ghost origin: World)
      requires t.self == self && t.sig == sig && AllSpare(b, Some(self))
      requires t.slot.owner.Some? && Finalized(t.slot.owner.value) && sig in resettable
      requires Within(Snap(), origin, trace, t, Published, wake)
      requires HandlersAside(Snap(), origin, t, previousEntry)
      requires Told(b, flat)
      modifies this
      ensures Told(b, flat) && SameCommit(old(flat), flat)
      ensures Within(Snap(), origin, trace, t, Reset, wake)
      ensures self in old(loops) && self in loops
      ensures loops[self] == old(loops)[self].(handlers := origin.loops[self].handlers)
      ensures wake == Taken ==> wakeFd == old(wakeFd)
      ensures trace == old(trace) + flat.resetReturns
      ensures ByDefault(dispositions, sig)
    {
      hide Registering, RunEvents;
      ResetForPrior(Snap(), RunEvents(origin, trace), t, wake);
      RestoreDefault(sig);
      ghost var resetReturns := Boundary(b.resetReturns, t, Resetting, wake, origin);
      flat := flat.(resetReturns := resetReturns);
      DropResetSignal(Snap(), RunEvents(origin, trace), t, wake);
      RestoredHandlers(loops[self].handlers, origin.loops[self].handlers, sig, previousEntry);
      loops := loops[self := loops[self].(handlers := Previous(loops[self].handlers, sig, previousEntry))];
      owners := owners - {sig};
      ResetForGone(RunEvents(origin, trace), Snap(), t, Reset, wake);
    }

    /** The previous owner was live when last checked: it gets the signal back, and is checked again. */
    method ReturnSignal(self: LoopId, sig: Sig, previousEntry: Option<Entry>, previousOwner: LoopId,
                        b: Boundaries<Deed>,
                        ghost t: Start, ghost wake: WakePhase, ghost origin: World)
      returns (raised: bool, ghost signal: SignalPhase)
      requires t.self == self && t.sig == sig && t.slot.owner == Some(previousOwner) && AllSpare(b, Some(self))
      requires !Finalized(previousOwner)
      requires Within(Snap(), origin, trace, t, Published, wake)
      requires HandlersAside(Snap(), origin, t, previousEntry)
      requires Told(b, flat)
      modifies this
      ensures Told(b, flat) && SameAttach(old(flat), flat) && flat.rollbackCheck == old(flat).rollbackCheck
      ensures Within(Snap(), origin, trace, t, signal, wake)
      ensures self in old(loops) && self in loops
      ensures loops[self] == old(loops)[self].(handlers := origin.loops[self].handlers)
      ensures wake == Taken ==> wakeFd == old(wakeFd)
      ensures raised <==> PriorStuck(RunEvents(origin, old(trace) + flat.commitCheck), t)
      ensures !raised ==> Finished(RunEvents(origin, old(trace) + flat.commitCheck), t, signal)
      ensures raised ==> signal == Lost && trace == old(trace) + flat.commitCheck
      ensures old(trace) + flat.commitCheck <= trace
      ensures !raised ==> signal == Restored || signal == Reset
    {
      hide Registering, RunEvents;
      GiveSignalBack(Snap(), RunEvents(origin, trace), t, wake);
      RestoredHandlers(loops[self].handlers, origin.loops[self].handlers, sig, previousEntry);
      loops := loops[self := loops[self].(handlers := Previous(loops[self].handlers, sig, previousEntry))];
      owners := owners[sig := previousOwner];
      ghost var commitCheck := Boundary(b.commitCheck, t, Restored, wake, origin);
      flat := flat.(commitCheck := commitCheck);
      hide AllSpare, Told;
      raised, signal := Recheck(self, sig, previousOwner, b, t, wake, origin);
    }

    /** The last look at the owner that got its signal back. */
    method Recheck(self: LoopId, sig: Sig, previousOwner: LoopId, b: Boundaries<Deed>,
                   ghost t: Start, ghost wake: WakePhase, ghost origin: World)
      returns (raised: bool, ghost signal: SignalPhase)
      requires t.self == self && t.sig == sig && t.slot.owner == Some(previousOwner) && AllSpare(b, Some(self))
      requires Within(Snap(), origin, trace, t, Restored, wake) && Told(b, flat)
      modifies this
      ensures Told(b, flat) && SameCommit(old(flat), flat)
      ensures Within(Snap(), origin, trace, t, signal, wake)
      ensures self in old(loops) && self in loops && loops[self] == old(loops)[self]
      ensures wake == Taken ==> wakeFd == old(wakeFd)
      ensures raised <==> PriorStuck(RunEvents(origin, old(trace)), t)
      ensures !raised ==> Finished(RunEvents(origin, old(trace)), t, signal)
      ensures raised ==> signal == Lost && trace == old(trace)
      ensures trace == old(trace) + if signal == Reset then flat.commitReset else []
      ensures !raised ==> signal == Restored || signal == Reset
    {
      hide Registering, RunEvents;
      ghost var shadow := RunEvents(origin, trace);
      SelfKnown(Snap(), shadow, t, Restored, wake);
      Gone(Snap(), shadow, t, Restored, wake, previousOwner);
      if sig !in resettable { StuckKeepsOwner(Snap(), shadow, t, wake); }
      if Finalized(previousOwner) && sig in owners && owners[sig] == previousOwner {
        if sig !in resettable {
          LoseSignal(Snap(), shadow, t, wake);
          owners := owners - {sig};
          return true, Lost;
        }
        ResetRestored(Snap(), shadow, t, wake);
        owners := owners - {sig};
        RestoreDefault(sig);
        ghost var commitReset := Boundary(b.commitReset, t, Reset, wake, origin);
        flat := flat.(commitReset := commitReset);
        return false, Reset;
      }
      RecheckedFinished(Snap(), shadow, t, wake);
      return false, Restored;
    }

    /** `add_signal_handler`; `attachOk` and `installOk` say whether the two system calls succeed. */
    method AddSignalHandler(self: LoopId, sig: Sig, entry: Entry, onMain: bool, attachOk: bool, installOk: bool,
                            b: Boundaries<Deed>)
      returns (outcome: Outcome)
      requires Invariant(Snap()) && AllSpare(b, Some(self))
      modifies this
      ensures Invariant(Snap())
      ensures outcome == Refused <==> !onMain || old(Finalized(self))
      ensures outcome == Refused ==> Snap() == old(Snap())
      ensures outcome != Refused && AllPlain(b) ==> flat == AllEvents(b)
      ensures outcome == Registered <==> onMain && !old(Finalized(self)) && attachOk && installOk
      ensures outcome == Registered ==>
        && Registering(Snap(), RunEvents(old(Snap()), trace), Begin(old(Snap()), self, sig), Installed, Taken)
        && self in old(loops) && self in loops
        && loops[self] == LoopRec(old(loops)[self].handlers[sig := entry], true, false)
      ensures outcome == ResetRaised <==>
        && onMain && !old(Finalized(self)) && !(attachOk && installOk)
        && PriorStuck(RunEvents(old(Snap()), CommitEvents(old(Snap()), sig, attachOk, flat)),
                      Begin(old(Snap()), self, sig))
      ensures outcome == Registered ==> trace == AttachEvents(old(Snap()), true, flat) + flat.installReturns
      ensures outcome == RolledBack ==> CommitEvents(old(Snap()), sig, attachOk, flat) <= trace
      ensures outcome == ResetRaised ==> trace == CommitEvents(old(Snap()), sig, attachOk, flat)
      ensures outcome == Registered ==>
        && Owns(Snap(), sig, self) && sig in dispositions && dispositions[sig] == LoopHandler
        && wakeOwner == Some(self) && wakeFd == Some(self)
      ensures outcome == RolledBack ==>
        OwnerFinalized(RunEvents(old(Snap()), CommitEvents(old(Snap()), sig, attachOk, flat)), old(Snap()), sig) ==>
        ByDefault(dispositions, sig)
      ensures outcome == RolledBack && !OwnerFinalized(RunEvents(old(Snap()), trace), old(Snap()), sig) ==>
        && owners == RunEvents(old(Snap()), trace).owners
        && dispositions == RunEvents(old(Snap()), trace).dispositions
      ensures outcome == RolledBack ==>
        && SameSignals(Settled(Snap()), Settled(RunEvents(old(Snap()), trace)))
        && self in old(loops) && self in loops && loops[self].handlers == old(loops)[self].handlers
      ensures outcome == ResetRaised ==> !SameSignals(Settled(Snap()), Settled(RunEvents(old(Snap()), trace)))
    {
      hide Registering, RunEvents, Invariant, PriorStuck, SameSignals, Settled, AttachEvents, CommitFrom, ByDefault;
      hide OwnerFinalized;
      if !onMain || Finalized(self) { return Refused; }
      ghost var origin, t := Snap(), Begin(Snap(), self, sig);
      var previousEntry := Lookup(loops[self].handlers, sig);
      var previousOwner := if sig in owners then Some(owners[sig]) else None;
      PublishSignal(self, sig, entry);
      flat := AllEvents(b);
      var state;
      ghost var wake;
      state, wake := AttachWakeup(self, attachOk, b, t, Published, origin);
      ghost var met := flat;
      if attachOk && installOk {
        InstallSignal(self, sig, b, t, origin);
        AttachEventsSame(origin, attachOk, met, flat);
        return Registered;
      }
      outcome := Abort(self, sig, attachOk, previousEntry, previousOwner, state, b, t, wake, origin);
    }

    /** Attaching or installing failed. */
    method Abort(self: LoopId, sig: Sig, attachOk: bool, previousEntry: Option<Entry>, previousOwner: Option<LoopId>,
                 state: Option<WakeupState>, b: Boundaries<Deed>,
                 ghost t: Start, ghost wake: WakePhase, ghost origin: World)
      returns (outcome: Outcome)
      requires t.self == self && t.sig == sig && t.slot.owner == previousOwner && AllSpare(b, Some(self))
      requires Told(b, flat)
      requires previousOwner == if sig in origin.owners then Some(origin.owners[sig]) else None
      requires Within(Snap(), origin, trace, t, Published, wake) && trace == AttachEvents(origin, attachOk, flat)
      requires HandlersAside(Snap(), origin, t, previousEntry)
      requires Restorable(state, wake, t, Snap(), origin) && (attachOk <==> wake == Taken)
      modifies this
      ensures Invariant(Snap()) && Told(b, flat)
      ensures outcome == RolledBack || outcome == ResetRaised
      ensures outcome == ResetRaised <==> PriorStuck(RunEvents(origin, CommitEvents(origin, sig, attachOk, flat)), t)
      ensures CommitEvents(origin, sig, attachOk, flat) <= trace
      ensures outcome == ResetRaised ==> trace == CommitEvents(origin, sig, attachOk, flat)
      ensures outcome == RolledBack ==>
        OwnerFinalized(RunEvents(origin, CommitEvents(origin, sig, attachOk, flat)), origin, sig) ==>
        ByDefault(dispositions, sig)
      ensures outcome == RolledBack && !OwnerFinalized(RunEvents(origin, trace), origin, sig) ==>
        && owners == RunEvents(origin, trace).owners && dispositions == RunEvents(origin, trace).dispositions
      ensures outcome == RolledBack ==>
        && SameSignals(Settled(Snap()), Settled(RunEvents(origin, trace)))
        && self in loops && loops[self].handlers == origin.loops[self].handlers
      ensures outcome == ResetRaised ==> !SameSignals(Settled(Snap()), Settled(RunEvents(origin, trace)))
    {
      hide Registering, RunEvents, Invariant, PriorStuck, SameSignals, Settled, AttachEvents, CommitFrom, ByDefault;
      ghost var met := flat;
      if attachOk {
        ghost var installReturns := Boundary(b.installReturns, t, Published, wake, origin);
        flat := flat.(installReturns := installReturns);
      }
      hide Told;
      ghost var before := trace;
      assert before == AttachEvents(origin, attachOk, met) + (if attachOk then flat.installReturns else []);
      outcome := Rollback(self, sig, previousEntry, previousOwner, state, b, t, wake, origin);
      AttachEventsSame(origin, attachOk, met, flat);
    }

    method PublishSignal(self: LoopId, sig: Sig, entry: Entry)
      requires Invariant(Snap()) && Live(Snap(), self)
      modifies this`owners, this`loops, this`trace
      ensures trace == [] && self in loops && wakeOwner == Begin(old(Snap()), self, sig).wake && wakeFd == wakeOwner
      ensures Within(Snap(), old(Snap()), trace, Begin(old(Snap()), self, sig), Published, Together)
      ensures HandlersAside(Snap(), old(Snap()), Begin(old(Snap()), self, sig), Lookup(old(loops)[self].handlers, sig))
      ensures loops[self] == old(loops)[self].(handlers := old(loops)[self].handlers[sig := entry])
    {
      PublishStarts(Snap(), self, sig, entry);
      hide Registering, LoopsOk, OwnersOk;
      loops := loops[self := loops[self].(handlers := loops[self].handlers[sig := entry])];
      owners := owners[sig := self];
      trace := [];
    }

    method InstallSignal(self: LoopId, sig: Sig, b: Boundaries<Deed>, ghost t: Start, ghost origin: World)
      requires t.self == self && t.sig == sig && AllSpare(b, Some(self))
      requires Within(Snap(), origin, trace, t, Published, Taken)
      requires self in loops && loops[self].attached && wakeFd == Some(self)
      requires Told(b, flat)
      modifies this
      ensures Told(b, flat) && flat == old(flat).(installReturns := flat.installReturns)
      ensures Invariant(Snap()) && Within(Snap(), origin, trace, t, Installed, Taken)
      ensures trace == old(trace) + flat.installReturns
      ensures self in loops && loops[self] == old(loops)[self]
      ensures Owns(Snap(), sig, self) && sig in dispositions && dispositions[sig] == LoopHandler
      ensures wakeOwner == Some(self) && wakeFd == Some(self)
    {
      hide Registering, RunEvents, Invariant;
      Install(Snap(), RunEvents(origin, trace), t, Taken);
      dispositions := dispositions[sig := LoopHandler];
      ghost var installReturns := Boundary(b.installReturns, t, Installed, Taken, origin);
      flat := flat.(installReturns := installReturns);
      InstalledIsOurs(Snap(), RunEvents(origin, trace), t);
      TakenIsOk(Snap(), RunEvents(origin, trace), t, Installed);
    }

    /** What follows a failed system call; `state` is what there is to restore of the wakeup descriptor. */
    method Rollback(self: LoopId, sig: Sig, previousEntry: Option<Entry>, previousOwner: Option<LoopId>,
                    state: Option<WakeupState>,
                    b: Boundaries<Deed>, ghost t: Start, ghost wake: WakePhase, ghost origin: World)
      returns (outcome: Outcome)
      requires t.self == self && t.sig == sig && t.slot.owner == previousOwner && AllSpare(b, Some(self))
      requires Within(Snap(), origin, trace, t, Published, wake)
      requires HandlersAside(Snap(), origin, t, previousEntry)
      requires Restorable(state, wake, t, Snap(), origin)
      requires Told(b, flat) && At(origin, sig).owner == previousOwner
      modifies this
      ensures Told(b, flat) && SameAttach(old(flat), flat)
      ensures Invariant(Snap())
      ensures outcome == RolledBack || outcome == ResetRaised
      ensures outcome == ResetRaised <==>
        PriorStuck(RunEvents(origin, CommitFrom(origin, old(trace), previousOwner, flat)), t)
      ensures CommitFrom(origin, old(trace), previousOwner, flat) <= trace
      ensures outcome == ResetRaised ==> trace == CommitFrom(origin, old(trace), previousOwner, flat)
      ensures outcome == RolledBack ==>
        OwnerFinalized(RunEvents(origin, CommitFrom(origin, old(trace), previousOwner, flat)), origin, sig) ==>
        ByDefault(dispositions, sig)
      ensures outcome == RolledBack && !OwnerFinalized(RunEvents(origin, trace), origin, sig) ==>
        && owners == RunEvents(origin, trace).owners && dispositions == RunEvents(origin, trace).dispositions
      ensures outcome == RolledBack ==>
        && SameSignals(Settled(Snap()), Settled(RunEvents(origin, trace)))
        && self in loops && loops[self].handlers == origin.loops[self].handlers
      ensures outcome == ResetRaised ==> !SameSignals(Settled(Snap()), Settled(RunEvents(origin, trace)))
    {
      hide Registering, RunEvents, Invariant, PriorStuck, SameSignals, Settled, ByDefault;
      var raised;
      ghost var signal, wake' := Published, wake;
      raised, signal := UndoSignal(self, sig, previousEntry, previousOwner, b, t, wake, origin);
      if raised {
        StuckIsVisible(Snap(), RunEvents(origin, trace), t, signal, wake);
        if wake == Taken {
          TakenIsOk(Snap(), RunEvents(origin, trace), t, signal);
        } else {
          RestoredIsOk(Snap(), RunEvents(origin, trace), t, signal, wake);
        }
        return ResetRaised;
      }
      if state != None {
        wake' := RestoreWakeup(self, state.value, b, t, signal, origin);
      }
      RestoredIsOk(Snap(), RunEvents(origin, trace), t, signal, wake');
      UndoneLeavesNoTrace(Snap(), RunEvents(origin, trace), t, signal, wake');
      ghost var commit := CommitFrom(origin, old(trace), previousOwner, flat);
      if OwnerFinalized(RunEvents(origin, commit), origin, sig) {
        FinishedByDefault(origin, commit, trace, Snap(), t, signal, wake');
      }
      if !OwnerFinalized(RunEvents(origin, trace), origin, sig) {
        RestoredExactly(Snap(), RunEvents(origin, trace), t, signal, wake');
      }
      return RolledBack;
    }

    // ----- the other operations

    /**
     `remove_signal_handler`. Whatever happens meanwhile, this loop's own close included, the process stays
     consistent; if others only act, the effect is that of removing the handler after they have.
     */
    method RemoveSignalHandler(id: LoopId, sig: Sig, onMain: bool, intervals: seq<Interval>)
      returns (removed: bool, raised: bool, ghost events: seq<Event>)
      requires Invariant(Snap()) && id in loops
      modifies this
      ensures Invariant(Snap())
      ensures removed <==> sig in old(loops)[id].handlers && !raised
      ensures raised <==>
        sig in old(loops)[id].handlers && Owns(old(Snap()), sig, id) && (!onMain || sig !in resettable)
      ensures !removed ==> Snap() == RunEvents(old(Snap()), events)
      ensures sig !in old(loops)[id].handlers ==> events == []
      ensures id in RunEvents(old(Snap()), events).loops
      ensures removed && Others(events, id) ==> Snap() == Removed(RunEvents(old(Snap()), events), id, sig, onMain)
      ensures removed && Owns(old(Snap()), sig, id) ==> ByDefault(dispositions, sig)
    {
      hide Removed, Invariant, RunEvents, ByDefault;
      removed, raised, events := false, false, [];
      NothingYet(Snap(), None);
      if sig !in loops[id].handlers { return; }
      var k;
      InvariantCalm(Snap());
      SparingNobody(intervals);
      raised, k, events := RemoveHandler(id, sig, onMain, intervals, 0, None);
      removed := !raised;
    }

    /** What `run_forever` does first: a loop with handlers takes the wakeup descriptor. */
    method BeginRun(self: LoopId, onMain: bool, ok: bool, b: Boundaries<Deed>)
      requires Invariant(Snap()) && Live(Snap(), self) && AllSpare(b, Some(self))
      modifies this
      ensures Invariant(Snap())
      ensures onMain && old(loops)[self].handlers != map[] && ok ==> wakeOwner == Some(self) && wakeFd == Some(self)
      ensures self in loops && loops[self].handlers == old(loops)[self].handlers
      ensures !onMain || old(loops)[self].handlers == map[] ==> Snap() == old(Snap())
    {
      if onMain && loops[self].handlers != map[] {
        ghost var origin, t := Snap(), Begin(Snap(), self, SIGINT);
        ReattachStarts(origin, self, SIGINT);
        hide Registering, Invariant, OwnersOk, LoopsOk;
        trace, flat := [], AllEvents(b);
        var state;
        ghost var wake;
        state, wake := AttachWakeup(self, ok, b, t, Restored, origin);
        if ok {
          TakenIsOurs(Snap(), RunEvents(origin, trace), t, Restored);
          TakenIsOk(Snap(), RunEvents(origin, trace), t, Restored);
        } else {
          RestoredIsOk(Snap(), RunEvents(origin, trace), t, Restored, wake);
        }
      }
    }

    /** What `run_forever` does last. */
    method EndRun(id: LoopId, onMain: bool, intervals: seq<Interval>) returns (ghost events: seq<Event>)
      requires Invariant(Snap()) && id in loops
      modifies this
      ensures Invariant(Snap())
      ensures id in RunEvents(old(Snap()), events).loops
      ensures Others(events, id) ==> Snap() == Detached(RunEvents(old(Snap()), events), id, onMain)
    {
      hide Invariant, RunEvents, Detached;
      InvariantCalm(Snap());
      SparingNobody(intervals);
      var k;
      k, events := DetachWakeup(id, onMain, intervals, 0, None);
    }

    method NewLoop(id: LoopId)
      requires Invariant(Snap()) && id !in loops
      modifies this`loops
      ensures Invariant(Snap()) && loops == old(loops)[id := LoopRec(map[], false, false)]
    {
      loops := loops[id := LoopRec(map[], false, false)];
    }

    /** One operation of some loop. */
    method Do(op: Operation)
      requires Invariant(Snap()) && Sensible(op)
      modifies this
      ensures Invariant(Snap())
    {
      hide Invariant;
      match op
      case Create(id) =>
        if id !in loops { NewLoop(id); }
      case Add(id, sig, entry, onMain, attachOk, installOk, b) =>
        var outcome := AddSignalHandler(id, sig, entry, onMain, attachOk, installOk, b);
      case Remove(id, sig, onMain, intervals) =>
        if id in loops {
          var removed, raised;
          ghost var events;
          removed, raised, events := RemoveSignalHandler(id, sig, onMain, intervals);
        }
      case Run(id, onMain, ok, b) =>
        if !Finalized(id) { BeginRun(id, onMain, ok, b); }
      case Stop(id, onMain, intervals) =>
        if id in loops { ghost var events := EndRun(id, onMain, intervals); }
      case Other(deed) =>
        ghost var w := Snap();
        InvariantCalm(w);
        assert SpareDeed(deed, None);
        ghost var events := Perform(deed, None);
        InvariantKept(w, events);
    }

    /** Whatever the loops of a process do, in whatever order, its signal state is consistent after each operation. */
    method DoAll(ops: seq<Operation>)
      requires Invariant(Snap()) && forall op :: op in ops ==> Sensible(op)
      modifies this
      ensures Invariant(Snap())
    {
      hide Invariant;
      for i := 0 to |ops|
        invariant Invariant(Snap())
      {
        Do(ops[i]);
      }
    }
  }

  /** Operations of the loops of a process. */
  datatype Operation =
    | Create(id: LoopId)
    | Add(id: LoopId, sig: Sig, entry: Entry, onMain: bool, attachOk: bool, installOk: bool, b: Boundaries<Deed>)
    | Remove(id: LoopId, sig: Sig, onMain: bool, intervals: seq<Interval>)
    | Run(id: LoopId, onMain: bool, ok: bool, b: Boundaries<Deed>)
    | Stop(id: LoopId, onMain: bool, intervals: seq<Interval>)
    | Other(deed: Deed)

  /** A loop is not closed while it is attaching or registering. */
  ghost predicate Sensible(op: Operation) {
    match op
    case Add(id, _, _, _, _, _, b) => AllSpare(b, Some(id))
    case Run(id, _, _, b) => AllSpare(b, Some(id))
    case _ => true
  }

  lemma InvariantCalm(w: World)
    requires Invariant(w)
    ensures Calm(w, None)
  {
  }

  /** Taking the descriptor without registering a signal is a registration whose signal is as in the shadow. */
  lemma ReattachStarts(w: World, self: LoopId, sig: Sig)
    requires Invariant(w) && Live(w, self)
    ensures Within(w, w, [], Begin(w, self, sig), Restored, Together) && w.wakeFd == w.wakeOwner
  {
  }

  /** Since `origin`, nothing but the registration and the events of `trace` has happened. */
  ghost predicate Within(here: World, origin: World, trace: seq<Event>, t: Start, signal: SignalPhase,
                         wake: WakePhase) {
    var shadow := RunEvents(origin, trace);
    && Registering(here, shadow, t, signal, wake)
    && t.self in origin.loops && t.self in shadow.loops && shadow.loops[t.self] == origin.loops[t.self]
  }

  /** Apart from `t.sig`, this loop's handlers are those it began with. */
  ghost predicate HandlersAside(here: World, origin: World, t: Start, previousEntry: Option<Entry>) {
    && t.self in here.loops && t.self in origin.loops
    && here.loops[t.self].handlers - {t.sig} == origin.loops[t.self].handlers - {t.sig}
    && previousEntry == Lookup(origin.loops[t.self].handlers, t.sig)
  }

  /** Whoever owned the signal in `before` is finalized in `w`. */
  ghost predicate OwnerFinalized(w: World, before: World, sig: Sig) {
    sig in before.owners && !Live(w, before.owners[sig])
  }

  lemma RecheckedFinished(here: World, shadow: World, t: Start, wake: WakePhase)
    requires Registering(here, shadow, t, Restored, wake) && t.slot.owner.Some?
    requires Live(here, t.slot.owner.value) || !Owns(here, t.sig, t.slot.owner.value)
    ensures Finished(shadow, t, Restored)
  {
    assert At(here, t.sig) == At(shadow, t.sig);
  }

  lemma InstalledIsOurs(here: World, shadow: World, t: Start)
    requires Registering(here, shadow, t, Installed, Taken)
    ensures Owns(here, t.sig, t.self) && t.sig in here.dispositions && here.dispositions[t.sig] == LoopHandler
    ensures here.wakeOwner == Some(t.self)
  {
  }

  /** If the previous owner was finalized by the commit point, its signal was reset then, or had been before. */
  ghost predicate Finished(commit: World, t: Start, signal: SignalPhase) {
    t.slot.owner.Some? && !Live(commit, t.slot.owner.value) ==>
      signal == Reset || (signal == Restored && At(commit, t.sig).owner != t.slot.owner)
  }

  /** So it has its default disposition at the end. */
  lemma FinishedByDefault(origin: World, commit: seq<Event>, trace: seq<Event>, here: World, t: Start,
                          signal: SignalPhase, wake: WakePhase)
    requires commit <= trace && Registering(here, RunEvents(origin, trace), t, signal, wake)
    requires Finished(RunEvents(origin, commit), t, signal) && At(origin, t.sig).owner == t.slot.owner
    requires OwnerFinalized(RunEvents(origin, commit), origin, t.sig)
    ensures ByDefault(here.dispositions, t.sig)
  {
    EventsKeepDefaults(origin, commit);
    var rest := trace[|commit|..];
    assert trace == commit + rest;
    RunConcat(origin, commit, rest);
    EventsKeepDefaults(RunEvents(origin, commit), rest);
    hide RunEvents, Registering, ByDefault;
    ResetForGone(RunEvents(origin, trace), here, t, signal, wake);
  }

  /** Unless the signal was reset on behalf of a finalized owner, every signal is as if nothing had been registered. */
  lemma RestoredExactly(here: World, shadow: World, t: Start, signal: SignalPhase, wake: WakePhase)
    requires Registering(here, shadow, t, signal, wake) && (signal == Restored || signal == Reset)
    requires t.slot.owner.Some? ==> Live(shadow, t.slot.owner.value)
    ensures here.owners == shadow.owners && here.dispositions == shadow.dispositions
  {
    SlotsDetermine(here, shadow);
  }

  /** The descriptor of a loop can be installed until its cleanup has run. */
  ghost predicate Usable(w: World, id: LoopId) {
    Live(w, id) || id in w.pending
  }

  /** The wakeup token is back where it was. */
  ghost function WakeReturned(w: World, self: LoopId, previous: WakeupState): World
    requires self in w.loops
  {
    w.(wakeOwner := previous.owner, loops := w.loops[self := w.loops[self].(attached := previous.wasAttached)])
  }

  /** The token was returned, but its owner was finalized by the time that was checked, and still had it. */
  ghost predicate LostAgain(w: World, self: LoopId, previous: WakeupState, events: seq<Event>)
    requires self in w.loops
  {
    var w' := RunEvents(WakeReturned(w, self, previous), events);
    previous.owner.Some? && !Live(w', previous.owner.value) && w'.wakeOwner == previous.owner
  }

  /** A signal has its default again, if it can. */
  ghost function AfterReset(w: World, sig: Sig): World {
    if sig in w.resettable then Defaulted(w, sig) else w
  }

  function Lookup(handlers: map<Sig, Entry>, sig: Sig): Option<Entry> {
    if sig in handlers then Some(handlers[sig]) else None
  }

  function Previous(handlers: map<Sig, Entry>, sig: Sig, entry: Option<Entry>): map<Sig, Entry> {
    if entry == None then handlers - {sig} else handlers[sig := entry.value]
  }

  lemma RestoredHandlers(handlers: map<Sig, Entry>, began: map<Sig, Entry>, sig: Sig, entry: Option<Entry>)
    requires handlers - {sig} == began - {sig} && entry == Lookup(began, sig)
    ensures Previous(handlers, sig, entry) == began
  {
    forall s | s != sig ensures (s in handlers <==> s in began) && (s in began ==> handlers[s] == began[s]) {
      assert s in handlers <==> s in handlers - {sig};
      assert s in began <==> s in began - {sig};
      if s in began {
        assert (handlers - {sig})[s] == (began - {sig})[s];
      }
    }
    assert Previous(handlers, sig, entry).Keys == began.Keys;
  }

  lemma {:induction false} ResettableThroughout(w: World, events: seq<Event>)
    ensures RunEvents(w, events).resettable == w.resettable
  {
    if events != [] {
      var n := |events| - 1;
      ResettableThroughout(w, events[..n]);
      ApplyLoops(RunEvents(w, events[..n]), events[n]);
    }
  }

  /** A signal that cannot be reset stays with its previous owner. */
  lemma StuckKeepsOwner(here: World, shadow: World, t: Start, wake: WakePhase)
    requires Registering(here, shadow, t, Restored, wake) && t.slot.owner.Some? && t.sig !in here.resettable
    ensures t.sig in here.owners && here.owners[t.sig] == t.slot.owner.value
  {
    assert At(here, t.sig) == At(shadow, t.sig);
  }

  lemma TakenIsOurs(here: World, shadow: World, t: Start, signal: SignalPhase)
    requires Registering(here, shadow, t, signal, Taken)
    ensures here.wakeOwner == Some(t.self)
  {
  }
}
