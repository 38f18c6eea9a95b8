/** The steps of one loop's close, cleanup or removal commute with whatever other loops do meanwhile. */
module SignalInterleaving {
  import opened Options
  import opened SignalWorld
  import opened SignalShadow
  import opened SignalTransaction
  import opened SignalApart
  import opened SignalStripping

  // ----- the wakeup descriptor

  /** The descriptor is uninstalled, while the token still names its owner. */
  ghost function CutWake(w: World): World {
    w.(wakeFd := None)
  }

  lemma CutWakeCommutes(u: World, id: LoopId, events: seq<Event>)
    requires u.wakeOwner == Some(id) && Others(events, id)
    ensures RunEvents(u, events).wakeOwner == Some(id)
    ensures RunEvents(CutWake(u), events) == CutWake(RunEvents(u, events))
  {
    EventsHold(u, id, events);
    var u' := RunEvents(u, events);
    CutWakeIsApart(u, id);
    CutWakeIsApart(u', id);
    assert SamePart(u, CutWake(u), CutWake(u'), id) by {
      forall s ensures At(CutWake(u), s) == At(u, s) && At(CutWake(u'), s) == At(u', s) {
      }
    }
    hide Apart, SamePart;
    Commutes(u, CutWake(u), CutWake(u'), id, events);
  }

  lemma CutWakeIsApart(u: World, id: LoopId)
    requires u.wakeOwner == Some(id)
    ensures Apart(u, CutWake(u), id)
  {
    assert forall s :: At(CutWake(u), s) == At(u, s);
  }

  lemma ReleaseWakeupCommutes(u: World, id: LoopId, events: seq<Event>)
    requires Others(events, id)
    ensures RunEvents(ReleaseWakeup(u, id), events) == ReleaseWakeup(RunEvents(u, events), id)
  {
    EventsHold(u, id, events);
    var u' := RunEvents(u, events);
    var c, d := ReleaseWakeup(u, id), ReleaseWakeup(u', id);
    ReleaseWakeupIsApart(u, id);
    ReleaseWakeupIsApart(u', id);
    hide Apart;
    assert SamePart(u, c, d, id);
    hide SamePart, Holds;
    Commutes(u, c, d, id, events);
  }

  lemma ReleaseWakeupIsApart(u: World, id: LoopId)
    ensures Apart(u, ReleaseWakeup(u, id), id) && forall s :: At(ReleaseWakeup(u, id), s) == At(u, s)
  {
  }

  // ----- one signal

  /** The signal has its default disposition back, while the token still names its owner. */
  ghost function Defaulted(w: World, sig: Sig): World {
    w.(dispositions := w.dispositions[sig := DefaultFor(sig)])
  }

  lemma DefaultedAt(w: World, sig: Sig)
    ensures forall s ::
      At(Defaulted(w, sig), s) == if s == sig then At(w, s).(disposition := Some(DefaultFor(sig))) else At(w, s)
  {
  }

  lemma DefaultedIsApart(u: World, id: LoopId, sig: Sig)
    requires Owns(u, sig, id)
    ensures Apart(u, Defaulted(u, sig), id)
  {
    hide Defaulted;
    DefaultedRest(u, sig);
    DefaultedAt(u, sig);
  }

  lemma DefaultedRest(u: World, sig: Sig)
    ensures Defaulted(u, sig) == u.(dispositions := Defaulted(u, sig).dispositions)
  {
  }

  lemma DefaultedCommutes(u: World, id: LoopId, sig: Sig, events: seq<Event>)
    requires Owns(u, sig, id) && Others(events, id)
    ensures Owns(RunEvents(u, events), sig, id)
    ensures RunEvents(Defaulted(u, sig), events) == Defaulted(RunEvents(u, events), sig)
  {
    hide Defaulted;
    EventsHold(u, id, events);
    var u' := RunEvents(u, events);
    assert At(u, sig).owner == Some(id) && At(u', sig) == At(u, sig);
    DefaultedIsApart(u, id, sig);
    DefaultedIsApart(u', id, sig);
    DefaultedRest(u, sig);
    DefaultedRest(u', sig);
    DefaultedAt(u, sig);
    DefaultedAt(u', sig);
    assert SamePart(u, Defaulted(u, sig), Defaulted(u', sig), id);
    hide Apart, SamePart, Holds;
    Commutes(u, Defaulted(u, sig), Defaulted(u', sig), id, events);
  }

  lemma ReleaseIsApart(u: World, id: LoopId, signals: set<Sig>)
    ensures Apart(u, Release(u, id, signals), id)
  {
    hide Release;
    ReleaseRest(u, id, signals);
    forall s ensures ApartSlot(At(u, s), At(Release(u, id, signals), s), id) {
      ReleaseAt(u, id, signals, s);
    }
  }

  lemma ReleaseCommutes(u: World, id: LoopId, signals: set<Sig>, events: seq<Event>)
    requires Others(events, id)
    ensures RunEvents(Release(u, id, signals), events) == Release(RunEvents(u, events), id, signals)
  {
    hide Release;
    EventsHold(u, id, events);
    var u' := RunEvents(u, events);
    var c, d := Release(u, id, signals), Release(u', id, signals);
    ReleaseIsApart(u, id, signals);
    ReleaseIsApart(u', id, signals);
    ReleaseRest(u, id, signals);
    ReleaseRest(u', id, signals);
    forall s | At(u, s).owner == Some(id) ensures At(c, s) == At(d, s) {
      ReleaseAt(u, id, signals, s);
      ReleaseAt(u', id, signals, s);
      assert At(u', s) == At(u, s);
    }
    hide Apart, Holds;
    Commutes(u, c, d, id, events);
  }

  lemma ReleaseMore(w: World, id: LoopId, signals: set<Sig>, sig: Sig)
    ensures Release(Release(w, id, signals), id, {sig}) == Release(w, id, signals + {sig})
  {
    hide Release;
    var c, d := Release(Release(w, id, signals), id, {sig}), Release(w, id, signals + {sig});
    ReleaseRest(w, id, signals);
    ReleaseRest(Release(w, id, signals), id, {sig});
    ReleaseRest(w, id, signals + {sig});
    forall s ensures At(c, s) == At(d, s) {
      ReleaseAt(w, id, signals, s);
      ReleaseAt(Release(w, id, signals), id, {sig}, s);
      ReleaseAt(w, id, signals + {sig}, s);
    }
    SlotsDetermine(c, d);
  }

  // ----- the loop's own record

  lemma FinalizeCommutes(u: World, id: LoopId, events: seq<Event>)
    requires id in u.loops && Others(events, id)
    ensures id in RunEvents(u, events).loops
    ensures RunEvents(Finalize(u, id), events) == Finalize(RunEvents(u, events), id)
  {
    EventsHold(u, id, events);
    var u' := RunEvents(u, events);
    RecordIsApart(u, Finalize(u, id), id);
    RecordIsApart(u', Finalize(u', id), id);
    RecordsSame(u, u', Finalize(u, id), Finalize(u', id), id);
    hide Apart, SamePart, Holds;
    Commutes(u, Finalize(u, id), Finalize(u', id), id, events);
  }

  lemma UndeferredCommutes(u: World, id: LoopId, events: seq<Event>)
    requires Others(events, id)
    ensures RunEvents(Undeferred(u, id), events) == Undeferred(RunEvents(u, events), id)
  {
    EventsHold(u, id, events);
    var u' := RunEvents(u, events);
    RecordIsApart(u, Undeferred(u, id), id);
    RecordIsApart(u', Undeferred(u', id), id);
    RecordsSame(u, u', Undeferred(u, id), Undeferred(u', id), id);
    hide Apart, SamePart, Holds;
    Commutes(u, Undeferred(u, id), Undeferred(u', id), id, events);
  }

  /** The deferred cleanup has been taken off the queue. */
  ghost function Undeferred(w: World, id: LoopId): World {
    w.(pending := w.pending - {id})
  }

  lemma RecordIsApart(u: World, c: World, id: LoopId)
    requires c == u.(loops := c.loops, pending := c.pending)
    requires ApartLoops(u, c, id) && ApartPending(u, c, id)
    ensures Apart(u, c, id)
  {
    assert forall s :: At(c, s) == At(u, s);
  }

  lemma RecordsSame(u: World, u': World, c: World, d: World, id: LoopId)
    requires Holds(u, u', id) && SameRecord(c, d, id)
    requires c == u.(loops := c.loops, pending := c.pending) && d == u'.(loops := d.loops, pending := d.pending)
    ensures SamePart(u, c, d, id)
  {
    assert forall s :: At(c, s) == At(u, s);
    assert forall s :: At(d, s) == At(u', s);
  }

  lemma WithoutHandlerIsApart(u: World, id: LoopId, sig: Sig)
    requires id in u.loops
    ensures Apart(u, WithoutHandler(u, id, sig), id)
  {
    hide WithoutHandler;
    WithoutHandlerRest(u, id, sig);
    WithoutHandlerAt(u, id, sig);
  }

  lemma WithoutHandlerAt(w: World, id: LoopId, sig: Sig)
    requires id in w.loops
    ensures forall s ::
      At(WithoutHandler(w, id, sig), s) == if s == sig && Owns(w, sig, id) then ResetSlot(sig) else At(w, s)
  {
    OtherSlotsKept(w, WithoutHandler(w, id, sig), sig);
  }

  lemma WithoutHandlerCommutes(u: World, id: LoopId, sig: Sig, events: seq<Event>)
    requires id in u.loops && Others(events, id)
    ensures id in RunEvents(u, events).loops
    ensures RunEvents(WithoutHandler(u, id, sig), events) == WithoutHandler(RunEvents(u, events), id, sig)
  {
    hide WithoutHandler;
    EventsHold(u, id, events);
    var u' := RunEvents(u, events);
    var c, d := WithoutHandler(u, id, sig), WithoutHandler(u', id, sig);
    WithoutHandlerIsApart(u, id, sig);
    WithoutHandlerIsApart(u', id, sig);
    WithoutHandlerRest(u, id, sig);
    WithoutHandlerRest(u', id, sig);
    WithoutHandlerAt(u, id, sig);
    WithoutHandlerAt(u', id, sig);
    forall s | At(u, s).owner == Some(id) ensures At(c, s) == At(d, s) {
      assert At(u', s) == At(u, s);
    }
    assert SamePart(u, c, d, id);
    hide Apart, SamePart, Holds;
    Commutes(u, c, d, id, events);
  }

  // ----- a close that has got as far as the i-th handler

  lemma StrippedIsApart(u: World, id: LoopId, onMain: bool, order: seq<Sig>, i: nat, c: World)
    requires i <= |order| && Stripped(u, id, onMain, order, i, c)
    ensures Apart(u, c, id)
  {
    forall s ensures ApartSlot(At(u, s), At(c, s), id) {
      assert At(c, s) == ReleasedSlot(u, id, order[..i], s);
    }
  }

  lemma StrippedCarried(u: World, id: LoopId, onMain: bool, order: seq<Sig>, i: nat, c: World, events: seq<Event>)
    requires i <= |order| && Stripped(u, id, onMain, order, i, c) && Others(events, id)
    ensures Stripped(RunEvents(u, events), id, onMain, order, i, RunEvents(c, events))
  {
    StrippedIsApart(u, id, onMain, order, i, c);
    var u', c' := RunEvents(u, events), RunEvents(c, events);
    EventsAgree(u, c, id, events);
    EventsKeepPart(u, c, id, events);
    EventsHold(u, id, events);
    SlotsCarried(u, u', id, order[..i], c, c');
    WakeCarried(u, u', id, onMain && i == |order| && i > 0, c, c');
    OnlyPartDiffers(u, u', c, c', id);
    hide StrippedSlots, StrippedWake, Apart;
    forall s | s in order[..i] && !onMain ensures !Owns(u', s, id) {
      assert At(u', s).owner == Some(id) ==> At(u, s).owner == Some(id);
    }
  }

  lemma OnlyPartDiffers(u: World, u': World, c: World, c': World, id: LoopId)
    requires Apart(u', c', id) && SamePart(u, c, c', id) && Holds(u, u', id)
    requires id in c.loops && c.pending == u.pending
    ensures id in u'.loops && id in c'.loops
    ensures c' == u'.(owners := c'.owners, dispositions := c'.dispositions, loops := u'.loops[id := c'.loops[id]],
                      wakeOwner := c'.wakeOwner, wakeFd := c'.wakeFd)
  {
    assert c'.loops == u'.loops[id := c'.loops[id]];
    assert c'.pending.Keys == u'.pending.Keys;
    assert c'.pending == u'.pending;
  }

  lemma SlotsCarried(u: World, u': World, id: LoopId, signals: seq<Sig>, c: World, c': World)
    requires StrippedSlots(u, id, signals, c) && ApartSlots(u', c', id) && SamePart(u, c, c', id) && Holds(u, u', id)
    ensures StrippedSlots(u', id, signals, c')
  {
    forall s ensures At(c', s) == ReleasedSlot(u', id, signals, s) {
      assert At(c, s) == ReleasedSlot(u, id, signals, s);
      assert ApartSlot(At(u', s), At(c', s), id);
    }
  }

  lemma WakeCarried(u: World, u': World, id: LoopId, last: bool, c: World, c': World)
    requires id in u.loops && id in c.loops && id in u'.loops && id in c'.loops
    requires StrippedWake(u, id, c.loops[id], last, c) && ApartWake(u', c', id) && SamePart(u, c, c', id)
    requires Holds(u, u', id)
    ensures StrippedWake(u', id, c'.loops[id], last, c')
  {
  }

  // ----- what other loops can still do

  /** A loop that is finalized and has no cleanup pending: nothing more can happen to it. */
  ghost predicate Dead(w: World, id: LoopId) {
    !Live(w, id) && id !in w.pending
  }

  ghost predicate Buried(a: World, b: World) {
    forall k :: Dead(a, k) ==> Dead(b, k)
  }

  /** None of the events concerns a loop that was dead to begin with, or closes `self`. */
  ghost predicate Spared(w: World, events: seq<Event>, self: Option<LoopId>) {
    forall ev :: ev in events ==> !Dead(w, ev.id) && (self.Some? ==> SparesLoop(ev, self.value))
  }

  lemma ApplyBuries(w: World, ev: Event)
    ensures Buried(w, Apply(w, ev))
  {
    ApplyIsLocal(w, ev);
    hide Cleaned, ClosedOnMain, ClosedOnWorker, ApartSlots, ApartWake;
    forall k | Dead(w, k) ensures Dead(Apply(w, ev), k) {
      if k == ev.id {
        assert Apply(w, ev) == w by { DeadIsLeftAlone(w, ev); }
      }
    }
  }

  lemma DeadIsLeftAlone(w: World, ev: Event)
    requires Dead(w, ev.id)
    ensures Apply(w, ev) == w
  {
  }

  lemma {:induction false} EventsBury(w: World, events: seq<Event>)
    ensures Buried(w, RunEvents(w, events))
  {
    hide Apply;
    if events != [] {
      var n := |events| - 1;
      EventsBury(w, events[..n]);
      ApplyBuries(RunEvents(w, events[..n]), events[n]);
    }
  }

  lemma SparedTogether(w: World, a: seq<Event>, mid: World, b: seq<Event>, self: Option<LoopId>)
    requires Spared(w, a, self) && Spared(mid, b, self) && Buried(w, mid)
    ensures Spared(w, a + b, self)
  {
    forall ev | ev in a + b ensures !Dead(w, ev.id) && (self.Some? ==> SparesLoop(ev, self.value)) {
      assert ev in a || ev in b;
    }
  }

  lemma OthersTogether(a: seq<Event>, b: seq<Event>, id: LoopId)
    ensures Others(a + b, id) <==> Others(a, id) && Others(b, id)
  {
    if Others(a + b, id) {
      forall ev | ev in a || ev in b ensures ev.id != id {
        assert ev in a + b;
      }
    }
  }

  /** Pending cleanups belong to finalized loops. */
  ghost predicate PendingFinal(w: World) {
    forall k :: k in w.pending ==> k in w.loops && w.loops[k].finalized
  }

  ghost predicate Calm(w: World, self: Option<LoopId>) {
    PendingFinal(w) && OwnerAttached(w, self)
  }

  lemma ApplyKeepsFinal(w: World, ev: Event)
    requires PendingFinal(w)
    ensures PendingFinal(Apply(w, ev))
  {
    hide Cleaned, ClosedOnMain, ClosedOnWorker;
    match ev
    case RunCleanup(id) => CleanedRest(w, id);
    case Close(id, onMain, order) =>
      if Live(w, id) {
        ClosedOnMainRest(w, id);
        ClosedOnWorkerRest(w, id, order);
      }
  }

  lemma {:induction false} EventsKeepCalm(w: World, events: seq<Event>, self: Option<LoopId>)
    requires Calm(w, self)
    ensures Calm(RunEvents(w, events), self)
  {
    hide Apply, OwnerAttached, PendingFinal;
    if events != [] {
      var n := |events| - 1;
      EventsKeepCalm(w, events[..n], self);
      ApplyKeepsFinal(RunEvents(w, events[..n]), events[n]);
      ApplyKeepsOwnerAttached(RunEvents(w, events[..n]), self, events[n]);
    }
  }

  lemma {:induction false} EventsKeepKeys(w: World, events: seq<Event>)
    ensures RunEvents(w, events).loops.Keys == w.loops.Keys && RunEvents(w, events).resettable == w.resettable
  {
    hide Apply, ApartSlots, ApartWake, ApartPending;
    if events != [] {
      var n := |events| - 1;
      EventsKeepKeys(w, events[..n]);
      ApplyIsLocal(RunEvents(w, events[..n]), events[n]);
    }
  }

  // ----- bookkeeping

  lemma NothingYet(w: World, self: Option<LoopId>)
    ensures RunEvents(w, []) == w && Spared(w, [], self)
  {
  }

  lemma RunOneMore(w: World, events: seq<Event>, ev: Event, self: Option<LoopId>)
    requires Spared(w, events, self) && !Dead(w, ev.id) && (self.Some? ==> SparesLoop(ev, self.value))
    ensures RunEvents(w, events + [ev]) == Apply(RunEvents(w, events), ev) && Spared(w, events + [ev], self)
  {
    assert (events + [ev])[..|events|] == events;
  }

  /** Nothing can happen to a dead loop, so what happens concerns others. */
  lemma SparedOthers(w: World, events: seq<Event>, id: LoopId, self: Option<LoopId>)
    requires Spared(w, events, self) && (events != [] ==> Dead(w, id))
    ensures Others(events, id)
  {
  }

  lemma SparedSame(w: World, w': World, events: seq<Event>, self: Option<LoopId>)
    requires Spared(w', events, self) && w'.loops == w.loops && w'.pending == w.pending
    ensures Spared(w, events, self)
  {
  }

  /** Changing a world without reviving a loop, deferring a cleanup or taking the descriptor. */
  lemma StillCalm(w: World, w': World, self: Option<LoopId>)
    requires forall k :: Live(w', k) ==> Live(w, k) && w'.loops[k].attached == w.loops[k].attached
    requires w'.loops.Keys == w.loops.Keys && forall k :: k in w'.pending ==> k in w.pending
    requires w'.wakeOwner == w.wakeOwner || w'.wakeOwner == None
    requires forall k :: k in w.loops && w.loops[k].finalized ==> w'.loops[k].finalized
    ensures Calm(w, self) ==> Calm(w', self)
    ensures Buried(w, w')
  {
  }

  lemma ReleasedWakeCalm(w: World, events: seq<Event>, id: LoopId, self: Option<LoopId>)
    ensures var mid := ReleaseWakeup(RunEvents(w, events), id);
      (Calm(w, self) ==> Calm(mid, self)) && (Dead(w, id) ==> Dead(mid, id)) && Buried(w, mid)
  {
    hide RunEvents;
    var u := RunEvents(w, events);
    if Calm(w, self) { EventsKeepCalm(w, events, self); }
    EventsBury(w, events);
    StillCalm(u, ReleaseWakeup(u, id), self);
  }

  lemma ReleasedCalm(w: World, events: seq<Event>, id: LoopId, signals: set<Sig>, self: Option<LoopId>)
    ensures var mid := Release(RunEvents(w, events), id, signals);
      (Calm(w, self) ==> Calm(mid, self)) && (Dead(w, id) ==> Dead(mid, id)) && Buried(w, mid)
  {
    hide RunEvents;
    var u := RunEvents(w, events);
    if Calm(w, self) { EventsKeepCalm(w, events, self); }
    EventsBury(w, events);
    StillCalm(u, Release(u, id, signals), self);
  }

  lemma DefaultedCalm(w: World, sig: Sig, id: LoopId, self: Option<LoopId>)
    ensures (Calm(w, self) ==> Calm(Defaulted(w, sig), self)) && (Dead(w, id) ==> Dead(Defaulted(w, sig), id))
  {
    StillCalm(w, Defaulted(w, sig), self);
  }

  lemma CutWakeCalm(w: World, self: Option<LoopId>)
    ensures Calm(w, self) ==> Calm(CutWake(w), self)
  {
    StillCalm(w, CutWake(w), self);
  }

  lemma UndeferredCalm(w: World, id: LoopId, self: Option<LoopId>)
    ensures Calm(w, self) ==> Calm(Undeferred(w, id), self)
    ensures !Live(w, id) ==> Dead(Undeferred(w, id), id)
    ensures Buried(w, Undeferred(w, id))
  {
    StillCalm(w, Undeferred(w, id), self);
  }

  lemma SparedEarlier(w: World, w': World, events: seq<Event>, self: Option<LoopId>)
    requires Spared(w', events, self) && Buried(w, w')
    ensures Spared(w, events, self)
  {
  }

  // ----- resets

  lemma ReleaseUnowned(w: World, id: LoopId, sig: Sig)
    ensures !(Owns(w, sig, id) && sig in w.resettable) ==> Release(w, id, {sig}) == w
  {
    hide Release;
    if !(Owns(w, sig, id) && sig in w.resettable) {
      var c := Release(w, id, {sig});
      ReleaseRest(w, id, {sig});
      forall s ensures At(c, s) == At(w, s) {
        ReleaseAt(w, id, {sig}, s);
      }
      SlotsDetermine(c, w);
    }
  }

  lemma DefaultedRelease(u: World, id: LoopId, sig: Sig)
    requires Owns(u, sig, id) && sig in u.resettable
    ensures Release(u, id, {sig}) == Defaulted(u, sig).(owners := u.owners - {sig})
  {
    hide Release;
    var c, d := Release(u, id, {sig}), Defaulted(u, sig).(owners := u.owners - {sig});
    ReleaseRest(u, id, {sig});
    OtherSlotsKept(u, d, sig);
    forall s ensures At(c, s) == At(d, s) {
      ReleaseAt(u, id, {sig}, s);
    }
    SlotsDetermine(c, d);
  }

  lemma StuckAlike(w: World, events: seq<Event>, id: LoopId, signals: seq<Sig>)
    requires Others(events, id)
    ensures SomeStuck(ReleaseWakeup(RunEvents(w, events), id), id, signals) <==> SomeStuck(w, id, signals)
  {
    hide RunEvents;
    var u := RunEvents(w, events);
    EventsHold(w, id, events);
    forall s ensures Owns(ReleaseWakeup(u, id), s, id) <==> Owns(w, s, id) {
      assert At(w, s).owner == Some(id) ==> At(w, s) == At(u, s);
      assert At(u, s).owner == Some(id) ==> At(w, s).owner == Some(id);
    }
  }

  lemma NobodyStuck(w: World, id: LoopId)
    ensures !SomeStuck(w, id, [])
  {
  }

  /** One more signal reset, with events before and during it. */
  lemma ResetStep(w: World, events: seq<Event>, id: LoopId, signals: seq<Sig>, i: nat, more: seq<Event>, mid: World)
    requires i < |signals| && Others(events, id) && Others(more, id)
    requires mid == Release(RunEvents(w, events), id, AsSet(signals[..i]))
    ensures Release(RunEvents(mid, more), id, {signals[i]}) ==
      Release(RunEvents(w, events + more), id, AsSet(signals[..i + 1]))
    ensures SomeStuck(w, id, signals[..i + 1]) <==>
      SomeStuck(w, id, signals[..i]) || (Owns(mid, signals[i], id) && signals[i] !in mid.resettable)
  {
    hide RunEvents, Release;
    var sig := signals[i];
    var u := RunEvents(w, events);
    assert signals[..i + 1] == signals[..i] + [sig];
    assert AsSet(signals[..i + 1]) == AsSet(signals[..i]) + {sig};
    ReleaseCommutes(u, id, AsSet(signals[..i]), more);
    RunConcat(w, events, more);
    ReleaseMore(RunEvents(u, more), id, AsSet(signals[..i]), sig);
    EventsHold(w, id, events);
    ReleaseRest(u, id, AsSet(signals[..i]));
    ReleaseAt(u, id, AsSet(signals[..i]), sig);
    assert At(w, sig).owner == Some(id) ==> At(w, sig) == At(u, sig);
    assert At(u, sig).owner == Some(id) ==> At(w, sig).owner == Some(id);
  }

  /** A cleanup taken off the queue first is a cleanup. */
  lemma CleanedAlike(w: World, events: seq<Event>, id: LoopId)
    requires id in w.pending && Others(events, id)
    ensures ReleaseWakeup(Release(Undeferred(RunEvents(w, events), id), id, AsSet(w.pending[id])), id) ==
      Cleaned(RunEvents(w, events), id)
  {
    hide RunEvents;
    var u := RunEvents(w, events);
    EventsHold(w, id, events);
    assert id in u.pending && u.pending[id] == w.pending[id];
    assert Mine(Undeferred(u, id), id, AsSet(w.pending[id])) == Mine(u, id, AsSet(w.pending[id]));
  }

  // ----- removing one handler

  /** The handler is deleted, and the token if it still names the loop. */
  ghost function WithoutEntry(w: World, id: LoopId, sig: Sig): World
    requires id in w.loops
  {
    var kept := WithHandlers(w, id, w.loops[id].handlers - {sig});
    if Owns(w, sig, id) then kept.(owners := w.owners - {sig}) else kept
  }

  lemma DefaultedInvariant(w: World, sig: Sig)
    requires Invariant(w)
    ensures Invariant(Defaulted(w, sig))
  {
  }

  lemma WithoutEntryKeeps(w: World, id: LoopId, sig: Sig)
    requires Invariant(w) && id in w.loops
    ensures Invariant(WithoutEntry(w, id, sig))
  {
    WithoutHandlerKeeps(w, id, sig);
    hide Invariant;
    if Owns(w, sig, id) {
      var c, d := WithoutHandler(w, id, sig), WithoutEntry(w, id, sig);
      assert d == c.(dispositions := d.dispositions);
      OtherDispositions(c, d);
    }
  }

  lemma OtherDispositions(c: World, d: World)
    requires Invariant(c) && d == c.(dispositions := d.dispositions)
    ensures Invariant(d)
  {
  }

  lemma RemovedTogether(u: World, id: LoopId, sig: Sig, onMain: bool, more: seq<Event>)
    requires id in u.loops && Others(more, id)
    ensures id in RunEvents(u, more).loops && id in RunEvents(WithoutHandler(u, id, sig), more).loops
    ensures Detached(RunEvents(WithoutHandler(u, id, sig), more), id, onMain) ==
      Removed(RunEvents(u, more), id, sig, onMain)
  {
    hide WithoutHandler, Detached, RunEvents;
    WithoutHandlerCommutes(u, id, sig, more);
    WithoutHandlerRest(RunEvents(u, more), id, sig);
  }

  // ----- giving the descriptor up

  /** The token has been given up, whatever has happened since the descriptor was uninstalled. */
  lemma DroppedKeeps(w: World, id: LoopId, events: seq<Event>)
    requires Invariant(w)
    ensures var c := RunEvents(CutWake(w), events).(wakeOwner := None, wakeFd := None);
      id in c.loops ==> Invariant(WithAttached(c, id, false))
  {
    hide RunEvents;
    assert OwnersOk(CutWake(w)) && LoopsOk(CutWake(w));
    EventsKeep(CutWake(w), events);
    var c := RunEvents(CutWake(w), events);
    var d := c.(wakeOwner := None, wakeFd := None);
    assert OwnersOk(d) && LoopsOk(d) && WakeOk(d);
    if id in d.loops {
      UnattachedKeeps(d, id);
    }
  }

  lemma UnattachedKeeps(w: World, id: LoopId)
    requires Invariant(w) && id in w.loops && w.wakeOwner != Some(id)
    ensures Invariant(WithAttached(w, id, false))
  {
  }

  lemma EventsStayCalm(w: World, events: seq<Event>, self: Option<LoopId>)
    ensures (Calm(w, self) ==> Calm(RunEvents(w, events), self)) && Buried(w, RunEvents(w, events))
  {
    hide RunEvents;
    if Calm(w, self) { EventsKeepCalm(w, events, self); }
    EventsBury(w, events);
  }

  /** A handler taken down, after events before its deletion. */
  lemma TakenDownCalm(w: World, events: seq<Event>, c: World, id: LoopId, sig: Sig, self: Option<LoopId>)
    requires c == RunEvents(w, events) || c == RunEvents(Defaulted(w, sig), events)
    requires id in c.loops
    ensures (Calm(w, self) ==> Calm(c, self) && Calm(WithoutEntry(c, id, sig), self)) && Buried(w, c)
    ensures Buried(w, WithoutEntry(c, id, sig))
  {
    var d := Defaulted(w, sig);
    StillCalm(w, d, self);
    WithoutEntryCalm(c, id, sig, self);
    hide RunEvents, Calm, Buried, WithoutEntry, Defaulted;
    EventsStayCalm(w, events, self);
    EventsStayCalm(d, events, self);
    if c != RunEvents(w, events) { BuriedTwice(w, d, c); }
    BuriedTwice(w, c, WithoutEntry(c, id, sig));
  }

  lemma WithoutEntryCalm(w: World, id: LoopId, sig: Sig, self: Option<LoopId>)
    requires id in w.loops
    ensures (Calm(w, self) ==> Calm(WithoutEntry(w, id, sig), self)) && Buried(w, WithoutEntry(w, id, sig))
  {
    StillCalm(w, WithoutEntry(w, id, sig), self);
  }

  lemma InvariantKept(w: World, events: seq<Event>)
    requires Invariant(w)
    ensures Invariant(RunEvents(w, events))
  {
    EventsKeep(w, events);
  }

  lemma {:induction false} EventsKeepGone(w: World, events: seq<Event>)
    ensures forall id :: !Live(w, id) ==> !Live(RunEvents(w, events), id)
    ensures w.wakeFd == None ==> RunEvents(w, events).wakeFd == None
  {
    if events != [] {
      var n := |events| - 1;
      EventsKeepGone(w, events[..n]);
      ApplyLoops(RunEvents(w, events[..n]), events[n]);
      ApplyInstallsNothing(RunEvents(w, events[..n]), events[n]);
    }
  }

  lemma ApplyInstallsNothing(w: World, ev: Event)
    ensures w.wakeFd == None ==> Apply(w, ev).wakeFd == None
  {
  }

  lemma BuriedTwice(a: World, b: World, c: World)
    requires Buried(a, b) && Buried(b, c)
    ensures Buried(a, c)
  {
  }

  // ----- a whole close

  lemma BeginClose(w: World, id: LoopId, onMain: bool, order: seq<Sig>, self: Option<LoopId>)
    requires Live(w, id) && Elements(order, w.loops[id].handlers.Keys) && id !in w.pending
    ensures var c := w.(loops := w.loops[id := w.loops[id].(finalized := true)]);
      && Stripped(w, id, onMain, order, 0, c) && Elements(order, AsSet(order))
      && Dead(c, id) && (Calm(w, self) ==> Calm(c, self)) && Buried(w, c)
  {
    var c := w.(loops := w.loops[id := w.loops[id].(finalized := true)]);
    assert order[0..] == order && order[..0] == [];
    assert forall s :: At(c, s) == At(w, s);
    StillCalm(w, c, self);
  }

  lemma StillOpen(w: World, id: LoopId, events: seq<Event>)
    requires Live(w, id) && Others(events, id)
    ensures Live(RunEvents(w, events), id) && RunEvents(w, events).loops[id] == w.loops[id]
    ensures (w.wakeOwner == Some(id) ==> w.loops[id].attached) ==>
      (RunEvents(w, events).wakeOwner == Some(id) ==> RunEvents(w, events).loops[id].attached)
  {
    EventsHold(w, id, events);
  }

  lemma CloseStripped(u: World, id: LoopId, onMain: bool, order: seq<Sig>, left: seq<Sig>, c: World)
    requires Live(u, id) && Elements(order, u.loops[id].handlers.Keys)
    requires u.wakeOwner == Some(id) ==> u.loops[id].attached
    requires |left| <= |order| && left == order[|order| - |left|..]
    requires Stripped(u, id, onMain, order, |order| - |left|, c)
    requires left != [] ==> Owns(u, left[0], id)
    ensures id in c.loops
    ensures !(c.loops[id].handlers != map[] || c.loops[id].attached) ==> c == Closed(u, id, onMain, order)
    ensures (c.loops[id].handlers != map[] || c.loops[id].attached) && !onMain ==>
      Finalize(c, id).(pending := c.pending[id := left]) == Closed(u, id, onMain, order)
  {
    hide Closed;
    if onMain {
      StrippedOnMain(u, id, order, left, c);
    } else {
      StrippedOnWorker(u, id, order, left, c);
    }
  }

  lemma CloseCleaned(u: World, id: LoopId, order: seq<Sig>, left: seq<Sig>, c: World, more: seq<Event>)
    requires Live(u, id) && Elements(order, u.loops[id].handlers.Keys) && Others(more, id)
    requires u.wakeOwner == Some(id) ==> u.loops[id].attached
    requires |left| <= |order| && left == order[|order| - |left|..]
    requires Stripped(u, id, true, order, |order| - |left|, c)
    requires c.loops[id].handlers != map[] || c.loops[id].attached
    ensures ReleaseWakeup(Release(RunEvents(Finalize(c, id), more), id, AsSet(left)), id) ==
      Closed(RunEvents(u, more), id, true, order)
  {
    hide Closed, Release, ReleaseWakeup, RunEvents;
    var u', c' := RunEvents(u, more), RunEvents(c, more);
    StillOpen(u, id, more);
    StrippedCarried(u, id, true, order, |order| - |left|, c, more);
    FinalizeCommutes(c, id, more);
    EventsHold(c, id, more);
    StrippedOnMain(u', id, order, left, c');
  }

  lemma ClearedCalm(c: World, id: LoopId, self: Option<LoopId>)
    requires id in c.loops && c.loops[id].finalized
    ensures (Calm(c, self) ==> Calm(Finalize(c, id), self)) && (Dead(c, id) ==> Dead(Finalize(c, id), id))
    ensures Buried(c, Finalize(c, id))
  {
    StillCalm(c, Finalize(c, id), self);
  }

  lemma StrippedNext(u: World, id: LoopId, onMain: bool, order: seq<Sig>, i: nat, c: World)
    requires i < |order| && Stripped(u, id, onMain, order, i, c) && Elements(order, AsSet(order))
    ensures id in c.loops && order[i] in c.loops[id].handlers && c.resettable == u.resettable
    ensures Owns(u, order[i], id) <==> Owns(c, order[i], id)
    ensures c.loops[id].finalized
  {
    NextHandler(u, id, onMain, order, i, c);
  }

  lemma StillOwned(c: World, id: LoopId, sig: Sig, more: seq<Event>)
    requires Others(more, id) && Owns(c, sig, id)
    ensures Owns(RunEvents(c, more), sig, id)
  {
    EventsHold(c, id, more);
    assert At(c, sig).owner == Some(id);
  }

  lemma RemovalAllowed(c: World, id: LoopId, sig: Sig, more: seq<Event>, onMain: bool)
    requires Others(more, id) && !(Owns(c, sig, id) && (!onMain || sig !in c.resettable))
    ensures !(Owns(RunEvents(c, more), sig, id) && (!onMain || sig !in RunEvents(c, more).resettable))
  {
    EventsHold(c, id, more);
    assert At(RunEvents(c, more), sig).owner == Some(id) ==> At(c, sig).owner == Some(id);
  }

  lemma RemovalCalm(c: World, more: seq<Event>, id: LoopId, sig: Sig, onMain: bool, self: Option<LoopId>)
    requires id in c.loops && Dead(c, id)
    ensures id in RunEvents(c, more).loops
    ensures var w := RunEvents(c, more); (Calm(c, self) ==> Calm(w, self)) && Dead(w, id) && Buried(c, w)
    ensures var d := Removed(RunEvents(c, more), id, sig, onMain);
      (Calm(c, self) ==> Calm(d, self)) && Dead(d, id) && Buried(c, d)
  {
    hide RunEvents;
    EventsKeepKeys(c, more);
    EventsStayCalm(c, more, self);
    hide Removed, Calm, Buried;
    var w := RunEvents(c, more);
    assert Dead(w, id) by { DeadAfter(c, w, id); }
    RemovedCalm(w, id, sig, onMain, self);
    BuriedTwice(c, w, Removed(w, id, sig, onMain));
  }

  lemma DeadAfter(a: World, b: World, id: LoopId)
    requires Buried(a, b) && Dead(a, id)
    ensures Dead(b, id)
  {
  }

  lemma RemovedCalm(w: World, id: LoopId, sig: Sig, onMain: bool, self: Option<LoopId>)
    requires id in w.loops && Dead(w, id)
    ensures var d := Removed(w, id, sig, onMain); (Calm(w, self) ==> Calm(d, self)) && Dead(d, id) && Buried(w, d)
  {
    RemovedWake(w, id, sig, onMain);
    hide Removed, Calm, Buried;
    RemovedRest(w, id, sig, onMain);
    StillCalm(w, Removed(w, id, sig, onMain), self);
  }

  lemma RemovedWake(w: World, id: LoopId, sig: Sig, onMain: bool)
    requires id in w.loops
    ensures var d := Removed(w, id, sig, onMain); d.wakeOwner == w.wakeOwner || d.wakeOwner == None
  {
  }

  // ----- what a registration in the middle of giving the descriptor up would do

  /**
   Clearing the token keeps the process consistent if and only if no descriptor has been installed since it was
   uninstalled. Closes and cleanups install none; a registration does.
   */
  lemma ClearingTheToken(w: World)
    requires OwnersOk(w) && LoopsOk(w)
    ensures Invariant(w.(wakeOwner := None)) <==> w.wakeFd == None
  {
    assert OwnersOk(w.(wakeOwner := None)) && LoopsOk(w.(wakeOwner := None));
  }

  const BYSTANDER := LoopId(1)
  /** A loop has registered a signal while another was giving the descriptor up. */
  const REGISTERED := World(
    map[Sig(2) := BYSTANDER], map[Sig(2) := LoopHandler], Some(BYSTANDER), Some(BYSTANDER),
    map[LoopId(0) := LoopRec(map[], true, false), BYSTANDER := LoopRec(map[Sig(2) := 0], true, false)], map[], {Sig(2)})

  lemma RegistrationLosesItsToken()
    ensures Invariant(REGISTERED) && !Invariant(REGISTERED.(wakeOwner := None))
  {
    ClearingTheToken(REGISTERED);
  }
}
