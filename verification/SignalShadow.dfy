/**
 The relation between a process in the middle of a registration and its shadow: the
 same process in which the registration never began, and only other loops have acted.
 */
module SignalShadow {
  import opened Options
  import opened SignalWorld

  ghost predicate AgreeOnLoops(here: World, shadow: World, self: LoopId) {
    && here.resettable == shadow.resettable
    && Live(here, self) && Live(shadow, self)
    && here.loops.Keys == shadow.loops.Keys
    && (forall id :: id in here.loops && id != self ==> here.loops[id] == shadow.loops[id])
  }

  ghost predicate AgreeOnSignals(here: World, shadow: World, self: LoopId, hidden: set<Sig>) {
    && (forall s :: s !in hidden ==> At(here, s) == At(shadow, s))
    && (forall s :: s in hidden ==> At(here, s).owner == None || At(here, s).owner == Some(self))
  }

  ghost predicate AgreeOnCleanups(here: World, shadow: World, hidden: set<Sig>) {
    && (forall id :: id in here.pending ==> id in shadow.pending)
    && (forall id, s :: s !in hidden && Owns(shadow, s, id) ==> (Covered(shadow, id, s) <==> Covered(here, id, s)))
  }

  /** Outside `hidden`, and apart from the registering loop `self`, both worlds look the same. */
  ghost predicate Agree(here: World, shadow: World, self: LoopId, hidden: set<Sig>) {
    && AgreeOnLoops(here, shadow, self)
    && AgreeOnSignals(here, shadow, self, hidden) && AgreeOnCleanups(here, shadow, hidden)
  }

  /** If the wakeup owner's cleanup is pending in the shadow, it is pending here as well. */
  ghost predicate WakeCovered(here: World, shadow: World) {
    here.wakeOwner.Some? && here.wakeOwner.value in shadow.pending ==> here.wakeOwner.value in here.pending
  }

  /** How `sig`, owned by `prior` when the registration began, may look in the shadow by now. */
  ghost predicate ShadowSignal(shadow: World, sig: Sig, prior: Slot) {
    || At(shadow, sig) == prior
    || (prior.owner.Some? && !Live(shadow, prior.owner.value)
        && At(shadow, sig) == ResetSlot(sig) && sig in shadow.resettable)
  }

  /** How the wakeup descriptor, owned by `prior` when the registration began, may look in the shadow by now. */
  ghost predicate ShadowWake(shadow: World, prior: Option<LoopId>) {
    || (shadow.wakeOwner == prior && shadow.wakeFd == prior)
    || (prior.Some? && !Live(shadow, prior.value) && shadow.wakeOwner == None && shadow.wakeFd == None)
  }

  /** Events that leave the registering loop alone, as closing it half-way is excluded. */
  ghost predicate SparesLoop(ev: Event, self: LoopId) {
    ev.Close? ==> ev.id != self
  }

  ghost predicate Spare(events: seq<Event>, self: LoopId) {
    forall ev :: ev in events ==> SparesLoop(ev, self)
  }

  // ----- events keep the relation

  lemma CleanupKeepsAgree(here: World, shadow: World, self: LoopId, hidden: set<Sig>, id: LoopId)
    requires Agree(here, shadow, self, hidden) && LoopsOk(shadow)
    ensures Agree(Cleaned(here, id), Cleaned(shadow, id), self, hidden)
  {
    hide Cleaned;
    CleanedRest(here, id);
    CleanedRest(shadow, id);
    forall s
      ensures s !in hidden ==> At(Cleaned(here, id), s) == At(Cleaned(shadow, id), s)
      ensures s in hidden ==> At(Cleaned(here, id), s).owner == None || At(Cleaned(here, id), s).owner == Some(self)
      ensures forall k :: Owns(Cleaned(shadow, id), s, k) ==> Owns(shadow, s, k)
    {
      CleanedAt(here, id, s);
      CleanedAt(shadow, id, s);
      assert s !in hidden && Owns(shadow, s, id) ==> (Covered(shadow, id, s) <==> Covered(here, id, s));
    }
  }

  lemma MainCloseKeepsAgree(here: World, shadow: World, self: LoopId, hidden: set<Sig>, id: LoopId)
    requires Agree(here, shadow, self, hidden) && Live(here, id) && Live(shadow, id) && id != self
    ensures Agree(ClosedOnMain(here, id), ClosedOnMain(shadow, id), self, hidden)
  {
    hide ClosedOnMain;
    ClosedOnMainRest(here, id);
    ClosedOnMainRest(shadow, id);
    forall s
      ensures s !in hidden ==> At(ClosedOnMain(here, id), s) == At(ClosedOnMain(shadow, id), s)
      ensures s in hidden ==>
        At(ClosedOnMain(here, id), s).owner == None || At(ClosedOnMain(here, id), s).owner == Some(self)
      ensures forall k :: Owns(ClosedOnMain(shadow, id), s, k) ==> Owns(shadow, s, k)
    {
      ClosedOnMainAt(here, id, s);
      ClosedOnMainAt(shadow, id, s);
      assert s !in hidden ==> At(here, s) == At(shadow, s);
    }
  }

  lemma WorkerCloseKeepsSignals(here: World, shadow: World, self: LoopId, hidden: set<Sig>, id: LoopId, order: seq<Sig>)
    requires Agree(here, shadow, self, hidden) && Live(here, id) && Live(shadow, id)
    ensures AgreeOnSignals(ClosedOnWorker(here, id, order), ClosedOnWorker(shadow, id, order), self, hidden)
  {
    hide ClosedOnWorker;
    var here', shadow' := ClosedOnWorker(here, id, order), ClosedOnWorker(shadow, id, order);
    forall s ensures At(here', s) == At(here, s) && At(shadow', s) == At(shadow, s) {
      ClosedOnWorkerAt(here, id, order, s);
      ClosedOnWorkerAt(shadow, id, order, s);
    }
  }

  lemma WorkerCloseKeepsCleanups(here: World, shadow: World, self: LoopId, hidden: set<Sig>, id: LoopId,
                                 order: seq<Sig>)
    requires Agree(here, shadow, self, hidden) && Live(here, id) && Live(shadow, id) && id != self
    requires OwnersOk(shadow) && LoopsOk(shadow) && Elements(order, shadow.loops[id].handlers.Keys)
    ensures AgreeOnCleanups(ClosedOnWorker(here, id, order), ClosedOnWorker(shadow, id, order), hidden)
  {
    hide ClosedOnWorker, AgreeOnSignals;
    var here', shadow' := ClosedOnWorker(here, id, order), ClosedOnWorker(shadow, id, order);
    ClosedOnWorkerRest(here, id, order);
    ClosedOnWorkerRest(shadow, id, order);
    forall s | Owns(here, s, id) ensures Owns(shadow, s, id) {
      OwnedAlike(here, shadow, self, hidden, id, s);
    }
    forall k, s | s !in hidden && Owns(shadow', s, k)
      ensures Covered(shadow', k, s) <==> Covered(here', k, s)
    {
      ClosedOnWorkerAt(shadow, id, order, s);
      assert Owns(shadow, s, k);
      OwnedAlike(here, shadow, self, hidden, k, s);
    }
  }

  lemma OwnedAlike(here: World, shadow: World, self: LoopId, hidden: set<Sig>, id: LoopId, s: Sig)
    requires AgreeOnSignals(here, shadow, self, hidden)
    ensures s !in hidden ==> (Owns(here, s, id) <==> Owns(shadow, s, id))
    ensures Owns(here, s, id) && id != self ==> Owns(shadow, s, id)
  {
    assert s !in hidden ==> At(here, s) == At(shadow, s);
    assert s in hidden ==> At(here, s).owner == None || At(here, s).owner == Some(self);
  }

  lemma WorkerCloseKeepsAgree(here: World, shadow: World, self: LoopId, hidden: set<Sig>, id: LoopId, order: seq<Sig>)
    requires Agree(here, shadow, self, hidden) && Live(here, id) && Live(shadow, id) && id != self
    requires OwnersOk(shadow) && LoopsOk(shadow) && Elements(order, shadow.loops[id].handlers.Keys)
    ensures Agree(ClosedOnWorker(here, id, order), ClosedOnWorker(shadow, id, order), self, hidden)
  {
    WorkerCloseKeepsSignals(here, shadow, self, hidden, id, order);
    WorkerCloseKeepsCleanups(here, shadow, self, hidden, id, order);
    hide ClosedOnWorker, AgreeOnSignals, AgreeOnCleanups;
    ClosedOnWorkerRest(here, id, order);
    ClosedOnWorkerRest(shadow, id, order);
  }

  lemma ApplyKeepsAgree(here: World, shadow: World, self: LoopId, hidden: set<Sig>, ev: Event)
    requires Agree(here, shadow, self, hidden) && OwnersOk(shadow) && LoopsOk(shadow) && SparesLoop(ev, self)
    ensures Agree(Apply(here, ev), Apply(shadow, ev), self, hidden)
  {
    match ev
    case RunCleanup(id) => CleanupKeepsAgree(here, shadow, self, hidden, id);
    case Close(id, onMain, order) =>
      if Live(shadow, id) && Elements(order, shadow.loops[id].handlers.Keys) {
        if onMain {
          MainCloseKeepsAgree(here, shadow, self, hidden, id);
        } else {
          WorkerCloseKeepsAgree(here, shadow, self, hidden, id, order);
        }
      }
  }

  lemma ApplyLoops(w: World, ev: Event)
    ensures forall id :: Live(Apply(w, ev), id) ==> Live(w, id) && Apply(w, ev).loops[id] == w.loops[id]
    ensures Apply(w, ev).resettable == w.resettable
  {
    hide Cleaned, ClosedOnMain, ClosedOnWorker;
    match ev
    case RunCleanup(id) => CleanedRest(w, id);
    case Close(id, onMain, order) =>
      if Live(w, id) {
        ClosedOnMainRest(w, id);
        ClosedOnWorkerRest(w, id, order);
      }
  }

  /** One event, seen at one signal. */
  lemma ApplyAt(w: World, ev: Event, s: Sig)
    requires LoopsOk(w)
    ensures
      || At(Apply(w, ev), s) == At(w, s)
      || (At(w, s).owner.Some? && !Live(Apply(w, ev), At(w, s).owner.value)
          && At(Apply(w, ev), s) == ResetSlot(s) && s in w.resettable)
    ensures forall id :: Live(Apply(w, ev), id) ==> Live(w, id) && Apply(w, ev).loops[id] == w.loops[id]
    ensures Apply(w, ev).resettable == w.resettable
  {
    ApplyLoops(w, ev);
    hide Cleaned, ClosedOnMain, ClosedOnWorker;
    match ev
    case RunCleanup(id) =>
      CleanedAt(w, id, s);
      CleanedRest(w, id);
    case Close(id, onMain, order) =>
      if Live(w, id) && Elements(order, w.loops[id].handlers.Keys) {
        if onMain {
          ClosedOnMainAt(w, id, s);
          ClosedOnMainRest(w, id);
        } else {
          ClosedOnWorkerAt(w, id, order, s);
        }
      }
  }

  lemma ApplyKeepsShadowSignal(shadow: World, sig: Sig, prior: Slot, ev: Event)
    requires OwnersOk(shadow) && LoopsOk(shadow) && ShadowSignal(shadow, sig, prior)
    ensures ShadowSignal(Apply(shadow, ev), sig, prior)
  {
    hide Apply, OwnersOk, LoopsOk;
    ApplyAt(shadow, ev, sig);
  }

  /** One event, seen at the wakeup descriptor. */
  lemma ApplyWake(w: World, ev: Event)
    requires LoopsOk(w)
    ensures
      || (Apply(w, ev).wakeOwner == w.wakeOwner && Apply(w, ev).wakeFd == w.wakeFd)
      || (w.wakeOwner.Some? && !Live(Apply(w, ev), w.wakeOwner.value) && ev.id == w.wakeOwner.value
          && Apply(w, ev).wakeOwner == None && Apply(w, ev).wakeFd == None)
  {
  }

  lemma ApplyKeepsShadowWake(shadow: World, wake: Option<LoopId>, ev: Event)
    requires OwnersOk(shadow) && LoopsOk(shadow) && ShadowWake(shadow, wake)
    ensures ShadowWake(Apply(shadow, ev), wake)
  {
    hide Apply, OwnersOk;
    ApplyWake(shadow, ev);
    ApplyAt(shadow, ev, Sig(2));
  }

  /** Events never touch what the registering loop owns, or a signal nobody owns. */
  lemma ApplySparesSelf(here: World, self: LoopId, ev: Event)
    requires Live(here, self) && SparesLoop(ev, self) && LoopsOk(here)
    ensures Live(Apply(here, ev), self) && Apply(here, ev).loops[self] == here.loops[self]
  {
    hide Cleaned, ClosedOnMain, ClosedOnWorker;
    match ev
    case RunCleanup(id) => CleanedRest(here, id);
    case Close(id, onMain, order) =>
      if Live(here, id) {
        ClosedOnMainRest(here, id);
        ClosedOnWorkerRest(here, id, order);
      }
  }

  lemma ApplyKeepsWake(here: World, shadow: World, self: LoopId, hidden: set<Sig>, ev: Event)
    requires Agree(here, shadow, self, hidden) && WakeCovered(here, shadow) && SparesLoop(ev, self)
    requires here.wakeOwner == shadow.wakeOwner && here.wakeFd == shadow.wakeFd
    requires OwnersOk(shadow) && LoopsOk(shadow) && WakeOk(shadow) && LoopsOk(here)
    ensures WakeCovered(Apply(here, ev), Apply(shadow, ev))
    ensures Apply(here, ev).wakeOwner == Apply(shadow, ev).wakeOwner
    ensures Apply(here, ev).wakeFd == Apply(shadow, ev).wakeFd
  {
    hide Cleaned, ClosedOnMain, ClosedOnWorker;
    match ev
    case RunCleanup(id) =>
      CleanedRest(here, id);
      CleanedRest(shadow, id);
    case Close(id, onMain, order) =>
      if Live(shadow, id) {
        ClosedOnMainRest(here, id);
        ClosedOnMainRest(shadow, id);
        ClosedOnWorkerRest(here, id, order);
        ClosedOnWorkerRest(shadow, id, order);
      }
  }
}
