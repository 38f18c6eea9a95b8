/** The phases a registration goes through, and why an undone one leaves no trace. */
module SignalTransaction {
  import opened Options
  import opened SignalWorld
  import opened SignalShadow

  /** What has become of the signal: taken, given back, reset on behalf of a finalized owner,
      handled by the loop, or lost to an owner whose reset failed. */
  datatype SignalPhase = Published | Resetting | Restored | Reset | Installed | Lost
  /**
   What has become of the wakeup descriptor: as in the shadow, taken, given up for a finalized owner, or about
   to be.
   */
  datatype WakePhase = Together | Taken | Stale | Abandoned

  /** The state at the start of a registration that later steps refer back to. */
  datatype Start = Start(self: LoopId, sig: Sig, slot: Slot, wake: Option<LoopId>)

  function Hidden(t: Start, phase: SignalPhase): set<Sig> {
    if phase == Restored then {} else {t.sig}
  }

  ghost predicate SignalIn(here: World, shadow: World, t: Start, phase: SignalPhase) {
    && Agree(here, shadow, t.self, Hidden(t, phase))
    && match phase
       case Published => At(here, t.sig) == Slot(Some(t.self), t.slot.disposition)
       case Resetting => At(here, t.sig) == Slot(Some(t.self), Some(DefaultFor(t.sig))) && PriorGone(shadow, t)
       case Restored => true
       case Lost => At(here, t.sig).owner == None && PriorStuck(shadow, t)
       case Installed => At(here, t.sig) == Slot(Some(t.self), Some(LoopHandler))
       case Reset => At(here, t.sig) == ResetSlot(t.sig) && PriorGone(shadow, t)
  }

  /** The previous owner has been finalized, and its signal can be reset. */
  ghost predicate PriorGone(shadow: World, t: Start) {
    t.slot.owner.Some? && !Live(shadow, t.slot.owner.value) && t.sig in shadow.resettable
  }

  /** The previous owner has been finalized, but its signal cannot be reset. */
  ghost predicate PriorStuck(shadow: World, t: Start) {
    t.slot.owner.Some? && !Live(shadow, t.slot.owner.value) && t.sig !in shadow.resettable
  }

  ghost predicate WakeIn(here: World, shadow: World, t: Start, phase: WakePhase) {
    match phase
    case Together => here.wakeOwner == shadow.wakeOwner && here.wakeFd == shadow.wakeFd && WakeCovered(here, shadow)
    case Taken => here.wakeOwner == Some(t.self)
    case Stale => t.wake.Some? && !Live(shadow, t.wake.value) &&
      (here.wakeOwner == t.wake || (here.wakeOwner == None && here.wakeFd == None))
    case Abandoned => t.wake.Some? && !Live(shadow, t.wake.value) && here.wakeOwner == None && here.wakeFd == None
  }

  ghost predicate ShadowOk(shadow: World, t: Start) {
    && Invariant(shadow)
    && ShadowSignal(shadow, t.sig, t.slot) && ShadowWake(shadow, t.wake)
  }

  ghost predicate Registering(here: World, shadow: World, t: Start, signal: SignalPhase, wake: WakePhase) {
    && ShadowOk(shadow, t)
    && OwnersOk(here) && LoopsOk(here)
    && SignalIn(here, shadow, t, signal) && WakeIn(here, shadow, t, wake)
  }

  // ----- interference

  lemma ApplyKeepsShadowOk(shadow: World, t: Start, ev: Event)
    requires ShadowOk(shadow, t)
    ensures ShadowOk(Apply(shadow, ev), t)
  {
    hide Apply, OwnersOk, LoopsOk, WakeOk, ShadowSignal, ShadowWake;
    ApplyKeeps(shadow, ev);
    ApplyKeepsShadowSignal(shadow, t.sig, t.slot, ev);
    ApplyKeepsShadowWake(shadow, t.wake, ev);
  }

  lemma ApplyKeepsSignal(here: World, shadow: World, t: Start, phase: SignalPhase, ev: Event)
    requires OwnersOk(here) && LoopsOk(here) && OwnersOk(shadow) && LoopsOk(shadow)
    requires SignalIn(here, shadow, t, phase) && SparesLoop(ev, t.self)
    ensures SignalIn(Apply(here, ev), Apply(shadow, ev), t, phase)
    ensures Apply(here, ev).loops[t.self] == here.loops[t.self]
    ensures Apply(shadow, ev).loops[t.self] == shadow.loops[t.self]
  {
    hide Apply, OwnersOk, LoopsOk, AgreeOnSignals, AgreeOnCleanups;
    ApplyKeepsAgree(here, shadow, t.self, Hidden(t, phase), ev);
    ApplySparesSelf(here, t.self, ev);
    ApplySparesSelf(shadow, t.self, ev);
    ApplyAt(here, ev, t.sig);
    ApplyAt(shadow, ev, t.sig);
  }

  lemma ApplyKeepsWakeIn(here: World, shadow: World, t: Start, signal: SignalPhase, phase: WakePhase, ev: Event)
    requires Registering(here, shadow, t, signal, phase) && SparesLoop(ev, t.self)
    ensures WakeIn(Apply(here, ev), Apply(shadow, ev), t, phase)
    ensures phase == Taken ==> Apply(here, ev).wakeFd == here.wakeFd
  {
    hide Apply, OwnersOk, AgreeOnSignals, AgreeOnCleanups, ShadowSignal, ShadowWake;
    if phase == Together {
      ApplyKeepsWake(here, shadow, t.self, Hidden(t, signal), ev);
    } else {
      ApplyWake(here, ev);
      ApplySparesSelf(here, t.self, ev);
      ApplyAt(shadow, ev, t.sig);
    }
  }

  lemma ApplyKeepsRegistering(here: World, shadow: World, t: Start, signal: SignalPhase, wake: WakePhase, ev: Event)
    requires Registering(here, shadow, t, signal, wake) && SparesLoop(ev, t.self)
    ensures Registering(Apply(here, ev), Apply(shadow, ev), t, signal, wake)
    ensures Apply(here, ev).loops[t.self] == here.loops[t.self]
    ensures Apply(shadow, ev).loops[t.self] == shadow.loops[t.self]
    ensures wake == Taken ==> Apply(here, ev).wakeFd == here.wakeFd
  {
    ApplyKeepsWakeIn(here, shadow, t, signal, wake, ev);
    ApplyKeepsSignal(here, shadow, t, signal, ev);
    hide Apply, OwnersOk, LoopsOk, WakeOk, SignalIn, WakeIn, ShadowSignal, ShadowWake;
    ApplyKeepsShadowOk(shadow, t, ev);
    ApplyKeeps(here, ev);
  }

  /** Other loops' cleanups and closes, at a call boundary of a registration. */
  lemma {:induction false} EventsKeepRegistering(
    here: World, shadow: World, t: Start, signal: SignalPhase, wake: WakePhase, events: seq<Event>)
    requires Registering(here, shadow, t, signal, wake) && Spare(events, t.self)
    ensures Registering(RunEvents(here, events), RunEvents(shadow, events), t, signal, wake)
    ensures RunEvents(here, events).loops[t.self] == here.loops[t.self]
    ensures RunEvents(shadow, events).loops[t.self] == shadow.loops[t.self]
    ensures wake == Taken ==> RunEvents(here, events).wakeFd == here.wakeFd
  {
    hide Registering, Apply;
    if events == [] {
      assert Registering(here, shadow, t, signal, wake);
      SelfKnown(here, shadow, t, signal, wake);
    } else {
      var n := |events| - 1;
      EventsKeepRegistering(here, shadow, t, signal, wake, events[..n]);
      ApplyKeepsRegistering(RunEvents(here, events[..n]), RunEvents(shadow, events[..n]), t, signal, wake, events[n]);
    }
  }

  lemma SelfKnown(here: World, shadow: World, t: Start, signal: SignalPhase, wake: WakePhase)
    requires Registering(here, shadow, t, signal, wake)
    ensures Live(here, t.self) && Live(shadow, t.self) && here.resettable == shadow.resettable
  {
  }

  // ----- the end of an undone registration

  lemma SettledAt(w: World, s: Sig)
    ensures At(Settled(w), s) == if s in Due(w) then ResetSlot(s) else At(w, s)
  {
  }

  ghost predicate SameSignals(a: World, b: World) {
    && a.owners == b.owners && a.dispositions == b.dispositions
    && a.wakeOwner == b.wakeOwner && a.wakeFd == b.wakeFd
  }

  lemma SettledSlotsAgree(here: World, shadow: World, t: Start, phase: SignalPhase, s: Sig)
    requires SignalIn(here, shadow, t, phase) && (phase == Restored || phase == Reset)
    requires OwnersOk(shadow) && ShadowSignal(shadow, t.sig, t.slot)
    ensures At(Settled(here), s) == At(Settled(shadow), s)
  {
    hide Settled;
    SettledAt(here, s);
    SettledAt(shadow, s);
    if s !in Hidden(t, phase) {
      assert At(here, s) == At(shadow, s);
      if s in shadow.owners {
        assert Owns(shadow, s, shadow.owners[s]);
      }
    }
  }

  lemma SettledWakeAgrees(here: World, shadow: World, t: Start, phase: WakePhase)
    requires WakeIn(here, shadow, t, phase) && (phase == Together || phase == Abandoned)
    requires WakeOk(shadow) && ShadowWake(shadow, t.wake)
    requires forall id :: id in here.pending ==> id in shadow.pending
    ensures Settled(here).wakeOwner == Settled(shadow).wakeOwner && Settled(here).wakeFd == Settled(shadow).wakeFd
  {
  }

  lemma SlotsDetermine(a: World, b: World)
    requires forall s :: At(a, s) == At(b, s)
    ensures a.owners == b.owners && a.dispositions == b.dispositions
  {
    forall s
      ensures s in a.owners <==> s in b.owners
      ensures s in a.owners ==> a.owners[s] == b.owners[s]
      ensures s in a.dispositions <==> s in b.dispositions
      ensures s in a.dispositions ==> a.dispositions[s] == b.dispositions[s]
    {
      assert At(a, s) == At(b, s);
    }
    assert a.owners.Keys == b.owners.Keys && a.dispositions.Keys == b.dispositions.Keys;
  }

  /** Once every pending cleanup has run, an undone registration has left no trace. */
  lemma UndoneLeavesNoTrace(here: World, shadow: World, t: Start, signal: SignalPhase, wake: WakePhase)
    requires Registering(here, shadow, t, signal, wake)
    requires (signal == Restored || signal == Reset) && (wake == Together || wake == Abandoned)
    ensures SameSignals(Settled(here), Settled(shadow))
  {
    hide Settled;
    var a, b := Settled(here), Settled(shadow);
    forall s ensures At(a, s) == At(b, s) {
      SettledSlotsAgree(here, shadow, t, signal, s);
    }
    SlotsDetermine(a, b);
    SettledWakeAgrees(here, shadow, t, wake);
  }

  // ----- the registration's own steps

  function WithHandlers(w: World, id: LoopId, handlers: map<Sig, Entry>): World
    requires id in w.loops
  {
    w.(loops := w.loops[id := w.loops[id].(handlers := handlers)])
  }

  function WithAttached(w: World, id: LoopId, attached: bool): World
    requires id in w.loops
  {
    w.(loops := w.loops[id := w.loops[id].(attached := attached)])
  }

  function Begin(w: World, self: LoopId, sig: Sig): Start {
    Start(self, sig, Slot(if sig in w.owners then Some(w.owners[sig]) else None,
                          if sig in w.dispositions then Some(w.dispositions[sig]) else None), w.wakeOwner)
  }

  function Publish(w: World, self: LoopId, sig: Sig, entry: Entry): World
    requires self in w.loops
  {
    WithHandlers(w, self, w.loops[self].handlers[sig := entry]).(owners := w.owners[sig := self])
  }

  lemma PublishStarts(w: World, self: LoopId, sig: Sig, entry: Entry)
    requires Invariant(w) && Live(w, self)
    ensures Registering(Publish(w, self, sig, entry), w, Begin(w, self, sig), Published, Together)
  {
    var here, t := Publish(w, self, sig, entry), Begin(w, self, sig);
    assert ShadowOk(w, t);
    PublishKeepsOwners(w, self, sig, entry);
    hide ShadowOk, OwnersOk, AgreeOnSignals, AgreeOnCleanups;
    OtherSlotsKept(w, here, sig);
    assert AgreeOnLoops(w, w, self);
    LoopsAgree(w, here, w, self, w.loops[self].(handlers := w.loops[self].handlers[sig := entry]));
    assert WakeIn(here, w, t, Together);
    hide AgreeOnLoops, LoopsOk, WakeIn;
    AgreesWithItself(w, self);
    SignalsAgree(w, here, w, self, {}, sig);
  }

  lemma AgreesWithItself(w: World, self: LoopId)
    ensures AgreeOnSignals(w, w, self, {}) && AgreeOnCleanups(w, w, {})
  {
  }

  lemma PublishKeepsOwners(w: World, self: LoopId, sig: Sig, entry: Entry)
    requires OwnersOk(w) && Live(w, self)
    ensures OwnersOk(Publish(w, self, sig, entry))
  {
  }

  // What follows says, component by component, what a step of the registration leaves alone.

  lemma WakeFieldsOnly(here: World, here': World, shadow: World, t: Start, signal: SignalPhase, wake: WakePhase,
                       wake': WakePhase)
    requires Registering(here, shadow, t, signal, wake)
    requires here' == here.(wakeOwner := here'.wakeOwner, wakeFd := here'.wakeFd)
    requires WakeIn(here', shadow, t, wake')
    ensures Registering(here', shadow, t, signal, wake')
  {
    hide WakeIn, ShadowOk;
    assert forall s :: At(here', s) == At(here, s);
  }

  lemma SignalsOnly(here: World, here': World, shadow: World, t: Start, signal: SignalPhase, signal': SignalPhase,
                    wake: WakePhase)
    requires Registering(here, shadow, t, signal, wake)
    requires here'.wakeOwner == here.wakeOwner && here'.wakeFd == here.wakeFd && here'.pending == here.pending
    requires LoopsOk(here') && OwnersOk(here') && SignalIn(here', shadow, t, signal')
    ensures Registering(here', shadow, t, signal', wake)
  {
    hide SignalIn, ShadowOk, OwnersOk, LoopsOk;
  }

  lemma LoopsAgree(here: World, here': World, shadow: World, self: LoopId, rec: LoopRec)
    requires AgreeOnLoops(here, shadow, self) && LoopsOk(here) && !rec.finalized
    requires here'.loops == here.loops[self := rec] && here'.resettable == here.resettable
    requires here'.pending == here.pending
    ensures AgreeOnLoops(here', shadow, self) && LoopsOk(here')
  {
  }

  /** Only the slot of `sig` changed, so hiding that signal keeps the agreement. */
  lemma SignalsAgree(here: World, here': World, shadow: World, self: LoopId, hidden: set<Sig>, sig: Sig)
    requires AgreeOnSignals(here, shadow, self, hidden) && AgreeOnCleanups(here, shadow, hidden) && hidden <= {sig}
    requires forall s :: s != sig ==> At(here', s) == At(here, s)
    requires At(here', sig).owner == None || At(here', sig).owner == Some(self)
    requires here'.pending == here.pending
    ensures AgreeOnSignals(here', shadow, self, {sig}) && AgreeOnCleanups(here', shadow, {sig})
  {
    forall s ensures s !in {sig} ==> At(here', s) == At(shadow, s) {
      assert s !in {sig} ==> At(here, s) == At(shadow, s);
    }
  }

  /** The slot of `sig` is as in the shadow again, and its previous owner is not awaiting cleanup. */
  lemma SignalsRestored(here: World, here': World, shadow: World, self: LoopId, sig: Sig)
    requires AgreeOnSignals(here, shadow, self, {sig}) && AgreeOnCleanups(here, shadow, {sig}) && LoopsOk(shadow)
    requires forall s :: s != sig ==> At(here', s) == At(here, s)
    requires At(here', sig) == At(shadow, sig)
    requires sig in shadow.owners ==> Live(shadow, shadow.owners[sig])
    requires here'.pending == here.pending
    ensures AgreeOnSignals(here', shadow, self, {}) && AgreeOnCleanups(here', shadow, {})
  {
    forall s ensures At(here', s) == At(shadow, s) {
      assert s !in {sig} ==> At(here, s) == At(shadow, s);
    }
    forall id, s | Owns(shadow, s, id) ensures Covered(shadow, id, s) <==> Covered(here', id, s) {
      if s == sig {
        assert id !in shadow.pending;
      } else {
        assert Covered(shadow, id, s) <==> Covered(here, id, s);
      }
    }
  }

  /** With our own handlers as in the shadow, ownership is as sound as it is there. */
  lemma OwnersFromShadow(here: World, shadow: World, self: LoopId, hidden: set<Sig>)
    requires Agree(here, shadow, self, hidden) && OwnersOk(shadow)
    requires here.loops[self].handlers == shadow.loops[self].handlers
    requires forall s :: s in hidden ==> At(here, s).owner == None
    ensures OwnersOk(here)
  {
    forall s | s in here.owners
      ensures var id := here.owners[s];
        id in here.loops &&
        if here.loops[id].finalized then Covered(here, id, s) || s !in here.resettable else s in here.loops[id].handlers
    {
      assert At(here, s).owner == Some(here.owners[s]);
      assert At(here, s) == At(shadow, s);
      assert Owns(shadow, s, here.owners[s]);
    }
  }

  // ----- the wakeup descriptor

  /** The wakeup token is ours, whatever descriptor is installed. */
  lemma TakeWake(here: World, shadow: World, t: Start, signal: SignalPhase, wake: WakePhase, fd: Option<LoopId>)
    requires Registering(here, shadow, t, signal, wake)
    ensures Registering(here.(wakeOwner := Some(t.self), wakeFd := fd), shadow, t, signal, Taken)
  {
    hide Registering;
    WakeFieldsOnly(here, here.(wakeOwner := Some(t.self), wakeFd := fd), shadow, t, signal, wake, Taken);
  }

  lemma SetAttached(here: World, shadow: World, t: Start, signal: SignalPhase, wake: WakePhase, attached: bool)
    requires Registering(here, shadow, t, signal, wake)
    ensures Live(here, t.self) && Registering(WithAttached(here, t.self, attached), shadow, t, signal, wake)
  {
    hide ShadowOk, WakeIn, AgreeOnSignals, AgreeOnCleanups;
    var here' := WithAttached(here, t.self, attached);
    LoopsAgree(here, here', shadow, t.self, here.loops[t.self].(attached := attached));
    assert OwnersOk(here');
    AttachedIrrelevant(here, here', shadow, t, signal);
    SignalsOnly(here, here', shadow, t, signal, signal, wake);
  }

  lemma AttachedIrrelevant(here: World, here': World, shadow: World, t: Start, signal: SignalPhase)
    requires SignalIn(here, shadow, t, signal) && AgreeOnLoops(here', shadow, t.self)
    requires here' == here.(loops := here'.loops)
    ensures SignalIn(here', shadow, t, signal)
  {
    assert forall s :: At(here', s) == At(here, s);
  }

  /** Giving the descriptor back to a previous owner that is still live, or to nobody. */
  lemma GiveBack(here: World, shadow: World, t: Start, signal: SignalPhase)
    requires Registering(here, shadow, t, signal, Taken)
    requires t.wake == None || Live(here, t.wake.value)
    ensures Registering(here.(wakeOwner := t.wake, wakeFd := t.wake), shadow, t, signal, Together)
  {
    var here' := here.(wakeOwner := t.wake, wakeFd := t.wake);
    assert WakeIn(here', shadow, t, Together) by { hide OwnersOk, AgreeOnSignals, AgreeOnCleanups, ShadowSignal; }
    hide Registering;
    WakeFieldsOnly(here, here', shadow, t, signal, Taken, Together);
  }

  lemma Gone(here: World, shadow: World, t: Start, signal: SignalPhase, wake: WakePhase, id: LoopId)
    requires Registering(here, shadow, t, signal, wake)
    ensures Live(here, id) <==> Live(shadow, id)
  {
  }

  lemma GiveUp(here: World, shadow: World, t: Start, signal: SignalPhase, wake: WakePhase)
    requires Registering(here, shadow, t, signal, wake)
    requires t.wake.Some? && !Live(here, t.wake.value)
    ensures Registering(here.(wakeOwner := None, wakeFd := None), shadow, t, signal, Abandoned)
  {
    hide Registering;
    Gone(here, shadow, t, signal, wake, t.wake.value);
    WakeFieldsOnly(here, here.(wakeOwner := None, wakeFd := None), shadow, t, signal, wake, Abandoned);
  }

  lemma BecomeStale(here: World, shadow: World, t: Start, signal: SignalPhase, wake: WakePhase, fd: Option<LoopId>)
    requires Registering(here, shadow, t, signal, wake)
    requires t.wake.Some? && !Live(here, t.wake.value)
    ensures Registering(here.(wakeOwner := t.wake, wakeFd := fd), shadow, t, signal, Stale)
  {
    hide Registering;
    Gone(here, shadow, t, signal, wake, t.wake.value);
    WakeFieldsOnly(here, here.(wakeOwner := t.wake, wakeFd := fd), shadow, t, signal, wake, Stale);
  }

  lemma StaleIsGone(here: World, shadow: World, t: Start, signal: SignalPhase)
    requires Registering(here, shadow, t, signal, Stale) && here.wakeOwner != t.wake
    ensures Registering(here, shadow, t, signal, Abandoned)
  {
    hide SignalIn, ShadowOk, OwnersOk, LoopsOk;
  }

  // ----- the signal

  lemma OtherSlotsKept(w: World, w': World, sig: Sig)
    requires forall s :: s != sig ==>
      (s in w'.owners <==> s in w.owners) && (s in w.owners ==> w'.owners[s] == w.owners[s])
    requires forall s :: s != sig ==>
      && (s in w'.dispositions <==> s in w.dispositions)
      && (s in w.dispositions ==> w'.dispositions[s] == w.dispositions[s])
    ensures forall s :: s != sig ==> At(w', s) == At(w, s)
  {
  }

  lemma Install(here: World, shadow: World, t: Start, wake: WakePhase)
    requires Registering(here, shadow, t, Published, wake)
    ensures Registering(here.(dispositions := here.dispositions[t.sig := LoopHandler]), shadow, t, Installed, wake)
  {
    hide WakeIn, ShadowOk, AgreeOnSignals, AgreeOnCleanups;
    var here' := here.(dispositions := here.dispositions[t.sig := LoopHandler]);
    OtherSlotsKept(here, here', t.sig);
    SignalsAgree(here, here', shadow, t.self, {t.sig}, t.sig);
    assert OwnersOk(here') && LoopsOk(here');
    SignalsOnly(here, here', shadow, t, Published, Installed, wake);
  }

  /** The reset of a signal already taken from its finalized owner fails. */
  lemma LoseSignal(here: World, shadow: World, t: Start, wake: WakePhase)
    requires Registering(here, shadow, t, Restored, wake)
    requires t.slot.owner.Some? && !Live(here, t.slot.owner.value) && t.sig !in here.resettable
    ensures Registering(here.(owners := here.owners - {t.sig}), shadow, t, Lost, wake)
  {
    Gone(here, shadow, t, Restored, wake, t.slot.owner.value);
    hide WakeIn, ShadowOk, AgreeOnSignals, AgreeOnCleanups, OwnersOk, LoopsOk;
    var here' := here.(owners := here.owners - {t.sig});
    OtherSlotsKept(here, here', t.sig);
    SignalsAgree(here, here', shadow, t.self, {}, t.sig);
    SignalRemoved(here, here', t.sig);
    SignalsOnly(here, here', shadow, t, Restored, Lost, wake);
  }

  /** A failed reset shows: the previous owner keeps the signal in the shadow, but not here. */
  lemma StuckIsVisible(here: World, shadow: World, t: Start, signal: SignalPhase, wake: WakePhase)
    requires Registering(here, shadow, t, signal, wake) && PriorStuck(shadow, t)
    requires signal == Published || signal == Lost
    ensures !SameSignals(Settled(here), Settled(shadow))
  {
    assert t.sig !in Due(here) && t.sig !in Due(shadow);
    assert At(shadow, t.sig) == t.slot;
    hide Settled, OwnersOk, AgreeOnSignals, AgreeOnCleanups, WakeIn, ShadowWake;
    SettledAt(here, t.sig);
    SettledAt(shadow, t.sig);
    assert Live(here, t.self) && Live(shadow, t.self);
  }

  // ----- consistency at the end of a registration

  lemma TakenIsOk(here: World, shadow: World, t: Start, signal: SignalPhase)
    requires Registering(here, shadow, t, signal, Taken)
    requires here.wakeFd == Some(t.self) && here.loops[t.self].attached
    ensures Invariant(here)
  {
  }

  lemma RestoredIsOk(here: World, shadow: World, t: Start, signal: SignalPhase, wake: WakePhase)
    requires Registering(here, shadow, t, signal, wake) && (wake == Together || wake == Abandoned)
    requires wake == Together ==> here.loops[t.self].attached == shadow.loops[t.self].attached
    ensures Invariant(here)
  {
    hide OwnersOk, AgreeOnSignals, AgreeOnCleanups, ShadowSignal;
  }

  /** A finalized previous owner's reset is completed on its behalf. */
  lemma ResetForPrior(here: World, shadow: World, t: Start, wake: WakePhase)
    requires Registering(here, shadow, t, Published, wake)
    requires t.slot.owner.Some? && !Live(here, t.slot.owner.value) && t.sig in here.resettable
    ensures Registering(here.(dispositions := here.dispositions[t.sig := DefaultFor(t.sig)]),
                        shadow, t, Resetting, wake)
  {
    hide WakeIn, ShadowOk, AgreeOnSignals, AgreeOnCleanups;
    var here' := here.(dispositions := here.dispositions[t.sig := DefaultFor(t.sig)]);
    OtherSlotsKept(here, here', t.sig);
    SignalsAgree(here, here', shadow, t.self, {t.sig}, t.sig);
    assert OwnersOk(here') && LoopsOk(here');
    SignalsOnly(here, here', shadow, t, Published, Resetting, wake);
  }

  /** Giving the signal back to a previous owner that is still live. */
  lemma GiveSignalBack(here: World, shadow: World, t: Start, wake: WakePhase)
    requires Registering(here, shadow, t, Published, wake)
    requires t.slot.owner.Some? && Live(here, t.slot.owner.value)
    ensures Live(here, t.self) && Live(shadow, t.self)
    ensures var kept := WithHandlers(here, t.self, shadow.loops[t.self].handlers);
      Registering(kept.(owners := here.owners[t.sig := t.slot.owner.value]), shadow, t, Restored, wake)
  {
    Gone(here, shadow, t, Published, wake, t.slot.owner.value);
    assert At(shadow, t.sig) == t.slot && LoopsOk(shadow) && OwnersOk(shadow);
    hide WakeIn, ShadowOk, AgreeOnSignals, AgreeOnCleanups, OwnersOk;
    var owners' := here.owners[t.sig := t.slot.owner.value];
    RestoreOwners(here, shadow, t, wake, owners');
  }

  lemma RestoreOwners(here: World, shadow: World, t: Start, wake: WakePhase, owners': map<Sig, LoopId>)
    requires Registering(here, shadow, t, Published, wake) && OwnersOk(shadow) && LoopsOk(shadow)
    requires owners' - {t.sig} == here.owners - {t.sig}
    requires At(here.(owners := owners'), t.sig) == At(shadow, t.sig)
    requires t.sig in shadow.owners ==> Live(shadow, shadow.owners[t.sig])
    ensures Live(here, t.self) && Live(shadow, t.self)
    ensures Registering(WithHandlers(here, t.self, shadow.loops[t.self].handlers).(owners := owners'),
                        shadow, t, Restored, wake)
  {
    hide WakeIn, ShadowOk, AgreeOnSignals, AgreeOnCleanups, OwnersOk;
    var rec := here.loops[t.self].(handlers := shadow.loops[t.self].handlers);
    var here' := WithHandlers(here, t.self, shadow.loops[t.self].handlers).(owners := owners');
    SameElsewhere(here.owners, owners', t.sig);
    OtherSlotsKept(here, here', t.sig);
    LoopsAgree(here, here', shadow, t.self, rec);
    SignalsRestored(here, here', shadow, t.self, t.sig);
    OwnersFromShadow(here', shadow, t.self, {});
    SignalsOnly(here, here', shadow, t, Published, Restored, wake);
  }

  lemma SameElsewhere(m: map<Sig, LoopId>, m': map<Sig, LoopId>, sig: Sig)
    requires m' - {sig} == m - {sig}
    ensures forall s :: s != sig ==> (s in m' <==> s in m) && (s in m ==> m'[s] == m[s])
  {
    forall s | s != sig ensures (s in m' <==> s in m) && (s in m ==> m'[s] == m[s]) {
      assert s in m' <==> s in m' - {sig};
      assert s in m <==> s in m - {sig};
      if s in m {
        assert (m' - {sig})[s] == (m - {sig})[s];
      }
    }
  }

  /** Nobody owned the signal before. */
  lemma DropSignal(here: World, shadow: World, t: Start, wake: WakePhase)
    requires Registering(here, shadow, t, Published, wake) && t.slot.owner == None
    ensures Live(here, t.self) && Live(shadow, t.self)
    ensures Registering(WithHandlers(here, t.self, shadow.loops[t.self].handlers).(owners := here.owners - {t.sig}),
                        shadow, t, Restored, wake)
  {
    assert At(shadow, t.sig) == t.slot && LoopsOk(shadow) && OwnersOk(shadow);
    hide WakeIn, ShadowOk, AgreeOnSignals, AgreeOnCleanups, OwnersOk;
    var owners' := here.owners - {t.sig};
    assert owners' - {t.sig} == here.owners - {t.sig};
    RestoreOwners(here, shadow, t, wake, owners');
  }

  lemma DropResetSignal(here: World, shadow: World, t: Start, wake: WakePhase)
    requires Registering(here, shadow, t, Resetting, wake)
    ensures Live(here, t.self) && Live(shadow, t.self)
    ensures Registering(WithHandlers(here, t.self, shadow.loops[t.self].handlers).(owners := here.owners - {t.sig}),
                        shadow, t, Reset, wake)
  {
    assert OwnersOk(shadow);
    hide WakeIn, ShadowOk, AgreeOnSignals, AgreeOnCleanups, OwnersOk;
    var rec := here.loops[t.self].(handlers := shadow.loops[t.self].handlers);
    var here' := WithHandlers(here, t.self, shadow.loops[t.self].handlers).(owners := here.owners - {t.sig});
    OtherSlotsKept(here, here', t.sig);
    LoopsAgree(here, here', shadow, t.self, rec);
    SignalsAgree(here, here', shadow, t.self, {t.sig}, t.sig);
    OwnersFromShadow(here', shadow, t.self, {t.sig});
    SignalsOnly(here, here', shadow, t, Resetting, Reset, wake);
  }

  lemma SignalRemoved(w: World, w': World, sig: Sig)
    requires OwnersOk(w) && LoopsOk(w)
    requires w' == w.(owners := w.owners - {sig}, dispositions := w'.dispositions)
    ensures OwnersOk(w') && LoopsOk(w')
  {
  }

  /** The owner given the signal back was finalized meanwhile, and its cleanup has yet to run. */
  lemma ResetRestored(here: World, shadow: World, t: Start, wake: WakePhase)
    requires Registering(here, shadow, t, Restored, wake)
    requires t.slot.owner.Some? && !Live(here, t.slot.owner.value) && t.sig in here.resettable
    ensures Registering(here.(owners := here.owners - {t.sig},
                              dispositions := here.dispositions[t.sig := DefaultFor(t.sig)]),
                        shadow, t, Reset, wake)
  {
    Gone(here, shadow, t, Restored, wake, t.slot.owner.value);
    var here' := here.(owners := here.owners - {t.sig}, dispositions := here.dispositions[t.sig := DefaultFor(t.sig)]);
    OtherSlotsKept(here, here', t.sig);
    hide WakeIn, ShadowOk, AgreeOnSignals, AgreeOnCleanups, OwnersOk, LoopsOk;
    SignalsAgree(here, here', shadow, t.self, {}, t.sig);
    SignalRemoved(here, here', t.sig);
    assert AgreeOnLoops(here', shadow, t.self) && At(here', t.sig) == ResetSlot(t.sig);
    hide AgreeOnLoops, Registering, At;
    assert SignalIn(here', shadow, t, Reset);
    SignalsOnly(here, here', shadow, t, Restored, Reset, wake);
  }
}
