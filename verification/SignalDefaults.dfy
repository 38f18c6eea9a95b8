/** Which disposition a signal has once it has been reset, and that nothing but a new handler takes it away. */
module SignalDefaults {
  import opened Options
  import opened SignalWorld
  import opened SignalShadow
  import opened SignalTransaction
  import opened SignalApart
  import opened SignalStripping
  import opened SignalInterleaving

  /** Python's own handler for interrupts, the system's for every other signal. */
  ghost predicate ByDefault(dispositions: map<Sig, Disposition>, s: Sig) {
    && s in dispositions
    && (dispositions[s] == DefaultInt <==> s == Sig(2))
    && (dispositions[s] == SystemDefault <==> s != Sig(2))
  }

  lemma SlotByDefault(w: World, s: Sig)
    ensures At(w, s).disposition == ResetSlot(s).disposition <==> ByDefault(w.dispositions, s)
  {
  }

  /** All signals that have their default disposition keep it. */
  ghost predicate DefaultsStay(a: map<Sig, Disposition>, b: map<Sig, Disposition>) {
    forall s :: ByDefault(a, s) ==> ByDefault(b, s)
  }

  lemma ApplyKeepsDefaults(w: World, ev: Event)
    ensures DefaultsStay(w.dispositions, Apply(w, ev).dispositions)
    ensures forall s :: s in w.owners && At(Apply(w, ev), s).owner != At(w, s).owner ==>
              ByDefault(Apply(w, ev).dispositions, s)
  {
    forall s
      ensures At(Apply(w, ev), s) == At(w, s) || At(Apply(w, ev), s) == ResetSlot(s)
    {
      match ev
      case RunCleanup(id) => CleanedAt(w, id, s);
      case Close(id, onMain, order) =>
        if Live(w, id) {
          ClosedOnMainAt(w, id, s);
          ClosedOnWorkerAt(w, id, order, s);
        }
    }
    hide Apply;
    forall s ensures ByDefault(w.dispositions, s) ==> ByDefault(Apply(w, ev).dispositions, s)
      ensures At(Apply(w, ev), s).owner != At(w, s).owner ==> ByDefault(Apply(w, ev).dispositions, s)
    {
      SlotByDefault(w, s);
      SlotByDefault(Apply(w, ev), s);
    }
  }

  /** Closes and cleanups reset signals to their default, and leave those that have it alone. */
  lemma {:induction false} EventsKeepDefaults(w: World, events: seq<Event>)
    ensures DefaultsStay(w.dispositions, RunEvents(w, events).dispositions)
    ensures forall s :: s in w.owners && At(RunEvents(w, events), s).owner != At(w, s).owner ==>
              ByDefault(RunEvents(w, events).dispositions, s)
    decreases |events|
  {
    hide Apply;
    if events == [] {
    } else {
      var n := |events| - 1;
      EventsKeepDefaults(w, events[..n]);
      var mid := RunEvents(w, events[..n]);
      ApplyKeepsDefaults(mid, events[n]);
      hide RunEvents, ByDefault;
      forall s | s in w.owners && At(Apply(mid, events[n]), s).owner != At(w, s).owner
        ensures ByDefault(Apply(mid, events[n]).dispositions, s)
      {
        if At(mid, s).owner != At(w, s).owner {
          assert ByDefault(mid.dispositions, s);
        }
      }
    }
  }

  lemma ReleasedByDefault(w: World, id: LoopId, signals: set<Sig>, s: Sig)
    requires s in signals && Owns(w, s, id) && s in w.resettable
    ensures ByDefault(Release(w, id, signals).dispositions, s) && s !in Release(w, id, signals).owners
  {
    ReleaseAt(w, id, signals, s);
    SlotByDefault(Release(w, id, signals), s);
  }

  /** Every signal of `signals` that the loop owns and that can be reset has been. */
  ghost predicate AllReset(w: World, id: LoopId, signals: set<Sig>, w': World) {
    forall s :: s in signals && Owns(w, s, id) && s in w.resettable ==> ByDefault(w'.dispositions, s) && s !in w'.owners
  }

  lemma ReleaseResetsAll(w: World, events: seq<Event>, id: LoopId, signals: set<Sig>)
    requires Others(events, id)
    ensures AllReset(w, id, signals, Release(RunEvents(w, events), id, signals))
    ensures AllReset(w, id, signals, ReleaseWakeup(Release(RunEvents(w, events), id, signals), id))
  {
    var u := RunEvents(w, events);
    EventsHold(w, id, events);
    hide RunEvents;
    forall s | s in signals && Owns(w, s, id) && s in w.resettable
      ensures ByDefault(Release(u, id, signals).dispositions, s) && s !in Release(u, id, signals).owners
    {
      assert At(w, s).owner == Some(id) && At(u, s) == At(w, s);
      ReleasedByDefault(u, id, signals, s);
    }
  }

  lemma CleanedResetsAll(w: World, events: seq<Event>, id: LoopId)
    requires Others(events, id) && id in w.pending
    ensures AllReset(w, id, AsSet(w.pending[id]), Cleaned(RunEvents(w, events), id))
  {
    EventsHold(w, id, events);
    var u := RunEvents(w, events);
    assert id in u.pending && u.pending[id] == w.pending[id];
    ReleaseResetsAll(w, events, id, AsSet(w.pending[id]));
  }

  lemma ClosedResetsAll(w: World, events: seq<Event>, id: LoopId, order: seq<Sig>)
    requires Others(events, id) && Live(w, id) && Elements(order, w.loops[id].handlers.Keys)
    ensures AllReset(w, id, w.loops[id].handlers.Keys, Closed(RunEvents(w, events), id, true, order))
  {
    EventsHold(w, id, events);
    var u := RunEvents(w, events);
    assert id in u.loops && u.loops[id] == w.loops[id];
    hide RunEvents, ClosedOnMain;
    forall s | s in w.loops[id].handlers && Owns(w, s, id) && s in w.resettable
      ensures ByDefault(ClosedOnMain(u, id).dispositions, s) && s !in ClosedOnMain(u, id).owners
    {
      assert At(w, s).owner == Some(id) && At(u, s) == At(w, s);
      ClosedOnMainAt(u, id, s);
      SlotByDefault(ClosedOnMain(u, id), s);
    }
  }

  /** The previous owner is finalized and its signal can be reset: where it was not, it has been by now. */
  lemma ResetForGone(shadow: World, here: World, t: Start, signal: SignalPhase, wake: WakePhase)
    requires Registering(here, shadow, t, signal, wake)
    requires signal == Reset || (signal == Restored && ByDefault(shadow.dispositions, t.sig))
    ensures ByDefault(here.dispositions, t.sig)
  {
    if signal == Reset {
      SlotByDefault(here, t.sig);
    } else {
      assert At(here, t.sig) == At(shadow, t.sig);
      SlotByDefault(here, t.sig);
      SlotByDefault(shadow, t.sig);
    }
  }
}
