/**
 What a close or a cleanup touches is its own loop's alone, so that closes and cleanups of different loops
 may interleave in any way without affecting one another.
 */
module SignalApart {
  import opened Options
  import opened SignalWorld
  import opened SignalTransaction

  ghost predicate ApartLoops(u: World, c: World, id: LoopId) {
    && c.resettable == u.resettable && c.loops.Keys == u.loops.Keys
    && (forall k :: k in u.loops && k != id ==> c.loops[k] == u.loops[k])
  }

  ghost predicate ApartPending(u: World, c: World, id: LoopId) {
    forall k :: k != id ==> (k in c.pending <==> k in u.pending) && (k in u.pending ==> c.pending[k] == u.pending[k])
  }

  ghost predicate ApartSlot(u: Slot, c: Slot, id: LoopId) {
    c == u || (u.owner == Some(id) && (c.owner == None || c.owner == Some(id)))
  }

  ghost predicate ApartSlots(u: World, c: World, id: LoopId) {
    forall s :: ApartSlot(At(u, s), At(c, s), id)
  }

  ghost predicate ApartWake(u: World, c: World, id: LoopId) {
    || (c.wakeOwner == u.wakeOwner && c.wakeFd == u.wakeFd)
    || (u.wakeOwner == Some(id) && (c.wakeOwner == None || c.wakeOwner == Some(id)))
  }

  /** `c` is `u`, except for what the loop `id` holds in `u`. */
  ghost predicate Apart(u: World, c: World, id: LoopId) {
    ApartLoops(u, c, id) && ApartPending(u, c, id) && ApartSlots(u, c, id) && ApartWake(u, c, id)
  }

  ghost predicate SameRecord(a: World, b: World, id: LoopId) {
    && (id in a.loops <==> id in b.loops) && (id in a.loops ==> a.loops[id] == b.loops[id])
    && (id in a.pending <==> id in b.pending) && (id in a.pending ==> a.pending[id] == b.pending[id])
  }

  /** What `id` holds in `u` is the same in `c` and `d`. */
  ghost predicate SamePart(u: World, c: World, d: World, id: LoopId) {
    && SameRecord(c, d, id)
    && (forall s :: At(u, s).owner == Some(id) ==> At(c, s) == At(d, s))
    && (u.wakeOwner == Some(id) ==> c.wakeOwner == d.wakeOwner && c.wakeFd == d.wakeFd)
  }

  /** The loop `id` holds the same in `u` and `u'`. */
  ghost predicate Holds(u: World, u': World, id: LoopId) {
    && SamePart(u, u, u', id) && u.resettable == u'.resettable
    && (forall s :: At(u', s).owner == Some(id) ==> At(u, s).owner == Some(id))
    && (u'.wakeOwner == Some(id) ==> u.wakeOwner == Some(id))
  }

  ghost predicate Others(events: seq<Event>, id: LoopId) {
    forall ev :: ev in events ==> ev.id != id
  }

  // ----- one event

  /** A close or a cleanup touches only what its loop holds. */
  lemma ApplyIsLocal(w: World, ev: Event)
    ensures Apart(w, Apply(w, ev), ev.id)
    ensures forall s :: At(w, s).owner != Some(ev.id) ==> At(Apply(w, ev), s) == At(w, s)
  {
    match ev
    case RunCleanup(id) => CleanedIsLocal(w, id);
    case Close(id, onMain, order) =>
      if Live(w, id) && Elements(order, w.loops[id].handlers.Keys) {
        if onMain { MainCloseIsLocal(w, id); } else { WorkerCloseIsLocal(w, id, order); }
      }
  }

  lemma CleanedIsLocal(w: World, id: LoopId)
    ensures Apart(w, Cleaned(w, id), id)
    ensures forall s :: At(w, s).owner != Some(id) ==> At(Cleaned(w, id), s) == At(w, s)
  {
    hide Cleaned;
    CleanedRest(w, id);
    forall s
      ensures ApartSlot(At(w, s), At(Cleaned(w, id), s), id)
      ensures (At(w, s).owner != Some(id) ==> At(Cleaned(w, id), s) == At(w, s))
    {
      CleanedAt(w, id, s);
    }
  }

  lemma MainCloseIsLocal(w: World, id: LoopId)
    requires Live(w, id)
    ensures Apart(w, ClosedOnMain(w, id), id)
    ensures forall s :: At(w, s).owner != Some(id) ==> At(ClosedOnMain(w, id), s) == At(w, s)
  {
    hide ClosedOnMain;
    ClosedOnMainRest(w, id);
    forall s
      ensures ApartSlot(At(w, s), At(ClosedOnMain(w, id), s), id)
      ensures (At(w, s).owner != Some(id) ==> At(ClosedOnMain(w, id), s) == At(w, s))
    {
      ClosedOnMainAt(w, id, s);
    }
  }

  lemma WorkerCloseIsLocal(w: World, id: LoopId, order: seq<Sig>)
    requires Live(w, id)
    ensures Apart(w, ClosedOnWorker(w, id, order), id)
    ensures forall s :: At(ClosedOnWorker(w, id, order), s) == At(w, s)
  {
    hide ClosedOnWorker;
    ClosedOnWorkerRest(w, id, order);
    forall s ensures At(ClosedOnWorker(w, id, order), s) == At(w, s) {
      ClosedOnWorkerAt(w, id, order, s);
    }
  }

  lemma OwnedAlike(u: World, c: World, id: LoopId, k: LoopId, s: Sig)
    requires ApartSlots(u, c, id) && k != id
    ensures Owns(u, s, k) <==> Owns(c, s, k)
  {
    assert ApartSlot(At(u, s), At(c, s), id);
  }

  lemma {:induction false} FirstOwnedAlike(order: seq<Sig>, a: map<Sig, LoopId>, b: map<Sig, LoopId>, k: LoopId)
    requires forall s :: (s in a && a[s] == k) <==> (s in b && b[s] == k)
    ensures FromFirstOwned(order, a, k) == FromFirstOwned(order, b, k)
  {
    if order != [] {
      FirstOwnedAlike(order[1..], a, b, k);
    }
  }

  lemma CleanupAgrees(u: World, c: World, id: LoopId, k: LoopId)
    requires Apart(u, c, id) && k != id
    ensures Apart(Cleaned(u, k), Cleaned(c, k), id)
  {
    hide Cleaned;
    CleanedRest(u, k);
    CleanedRest(c, k);
    forall s ensures ApartSlot(At(Cleaned(u, k), s), At(Cleaned(c, k), s), id) {
      CleanedAt(u, k, s);
      CleanedAt(c, k, s);
      OwnedAlike(u, c, id, k, s);
      assert ApartSlot(At(u, s), At(c, s), id);
    }
  }

  lemma MainCloseAgrees(u: World, c: World, id: LoopId, k: LoopId)
    requires Apart(u, c, id) && k != id && Live(u, k)
    ensures Live(c, k) && Apart(ClosedOnMain(u, k), ClosedOnMain(c, k), id)
  {
    hide ClosedOnMain;
    ClosedOnMainRest(u, k);
    ClosedOnMainRest(c, k);
    forall s ensures ApartSlot(At(ClosedOnMain(u, k), s), At(ClosedOnMain(c, k), s), id) {
      ClosedOnMainAt(u, k, s);
      ClosedOnMainAt(c, k, s);
      OwnedAlike(u, c, id, k, s);
      assert ApartSlot(At(u, s), At(c, s), id);
    }
  }

  lemma WorkerCloseAgrees(u: World, c: World, id: LoopId, k: LoopId, order: seq<Sig>)
    requires Apart(u, c, id) && k != id && Live(u, k)
    ensures Live(c, k) && Apart(ClosedOnWorker(u, k, order), ClosedOnWorker(c, k, order), id)
  {
    WorkerCloseDefers(u, c, id, k, order);
    hide ClosedOnWorker, ApartLoops, ApartPending, ApartWake;
    forall s ensures ApartSlot(At(ClosedOnWorker(u, k, order), s), At(ClosedOnWorker(c, k, order), s), id) {
      ClosedOnWorkerAt(u, k, order, s);
      ClosedOnWorkerAt(c, k, order, s);
      assert ApartSlot(At(u, s), At(c, s), id);
    }
  }

  lemma WorkerCloseDefers(u: World, c: World, id: LoopId, k: LoopId, order: seq<Sig>)
    requires Apart(u, c, id) && k != id && Live(u, k)
    ensures Live(c, k)
    ensures var u', c' := ClosedOnWorker(u, k, order), ClosedOnWorker(c, k, order);
      ApartLoops(u', c', id) && ApartPending(u', c', id) && ApartWake(u', c', id)
  {
    hide ApartSlots, FromFirstOwned, ClosedOnWorker;
    LeftAlike(u, c, id, k, order);
    DeferredAs(u, k, order);
    DeferredAs(c, k, order);
  }

  lemma DeferredAs(w: World, k: LoopId, order: seq<Sig>)
    requires Live(w, k)
    ensures var left, c := FromFirstOwned(order, w.owners, k), ClosedOnWorker(w, k, order);
      && c.loops.Keys == w.loops.Keys
      && (forall j :: j in w.loops ==> c.loops[j] == if j == k then LoopRec(map[], false, true) else w.loops[j])
      && c.resettable == w.resettable && c.wakeOwner == w.wakeOwner && c.wakeFd == w.wakeFd
      && c.pending == if left == [] && !w.loops[k].attached then w.pending else w.pending[k := left]
  {
  }

  lemma LeftAlike(u: World, c: World, id: LoopId, k: LoopId, order: seq<Sig>)
    requires ApartSlots(u, c, id) && k != id
    ensures FromFirstOwned(order, u.owners, k) == FromFirstOwned(order, c.owners, k)
  {
    hide FromFirstOwned;
    forall s ensures (s in u.owners && u.owners[s] == k) <==> (s in c.owners && c.owners[s] == k) {
      OwnedAlike(u, c, id, k, s);
    }
    FirstOwnedAlike(order, u.owners, c.owners, k);
  }

  /** An event of another loop does the same to both. */
  lemma ApplyAgrees(u: World, c: World, id: LoopId, ev: Event)
    requires Apart(u, c, id) && ev.id != id
    ensures Apart(Apply(u, ev), Apply(c, ev), id)
  {
    hide Cleaned, ClosedOnMain, ClosedOnWorker;
    match ev
    case RunCleanup(k) => CleanupAgrees(u, c, id, k);
    case Close(k, onMain, order) =>
      assert Live(u, k) <==> Live(c, k);
      if Live(u, k) && Elements(order, u.loops[k].handlers.Keys) {
        if onMain { MainCloseAgrees(u, c, id, k); } else { WorkerCloseAgrees(u, c, id, k, order); }
      }
  }

  // ----- sequences of events

  lemma ApplyHolds(w: World, id: LoopId, ev: Event)
    requires ev.id != id
    ensures Holds(w, Apply(w, ev), id)
  {
    hide Apply;
    ApplyIsLocal(w, ev);
    forall s ensures At(w, s).owner == Some(id) ==> At(Apply(w, ev), s) == At(w, s)
      ensures At(Apply(w, ev), s).owner == Some(id) ==> At(w, s).owner == Some(id)
    {
      assert ApartSlot(At(w, s), At(Apply(w, ev), s), ev.id);
    }
  }

  lemma HoldsTwice(a: World, b: World, c: World, id: LoopId)
    requires Holds(a, b, id) && Holds(b, c, id)
    ensures Holds(a, c, id)
  {
    forall s ensures At(a, s).owner == Some(id) ==> At(a, s) == At(c, s) {
      assert At(a, s).owner == Some(id) ==> At(a, s) == At(b, s);
      assert At(b, s).owner == Some(id) ==> At(b, s) == At(c, s);
    }
  }

  lemma {:induction false} EventsHold(w: World, id: LoopId, events: seq<Event>)
    requires Others(events, id)
    ensures Holds(w, RunEvents(w, events), id)
  {
    hide Holds, Apply;
    if events == [] {
      assert Holds(w, w, id) by { HoldsItself(w, id); }
    } else {
      var n := |events| - 1;
      EventsHold(w, id, events[..n]);
      ApplyHolds(RunEvents(w, events[..n]), id, events[n]);
      HoldsTwice(w, RunEvents(w, events[..n]), RunEvents(w, events), id);
    }
  }

  lemma HoldsItself(w: World, id: LoopId)
    ensures Holds(w, w, id)
  {
  }

  lemma {:induction false} EventsAgree(u: World, c: World, id: LoopId, events: seq<Event>)
    requires Apart(u, c, id) && Others(events, id)
    ensures Apart(RunEvents(u, events), RunEvents(c, events), id)
  {
    hide Apart, Apply;
    if events == [] {
    } else {
      var n := |events| - 1;
      EventsAgree(u, c, id, events[..n]);
      ApplyAgrees(RunEvents(u, events[..n]), RunEvents(c, events[..n]), id, events[n]);
    }
  }

  /** What `id` holds in `u` stays as it is in `c`, whether or not `c` still gives it to `id`. */
  lemma {:induction false} EventsKeepPart(u: World, c: World, id: LoopId, events: seq<Event>)
    requires Apart(u, c, id) && Others(events, id)
    ensures SamePart(u, c, RunEvents(c, events), id)
  {
    if events == [] {
    } else {
      hide Apply, Apart, SamePart;
      var n := |events| - 1;
      var mid := RunEvents(c, events[..n]);
      EventsKeepPart(u, c, id, events[..n]);
      EventsAgree(u, c, id, events[..n]);
      EventsHold(u, id, events[..n]);
      OneKeepsPart(u, RunEvents(u, events[..n]), c, mid, id, events[n]);
    }
  }

  lemma OneKeepsPart(u: World, u': World, c: World, mid: World, id: LoopId, ev: Event)
    requires Apart(u', mid, id) && Holds(u, u', id) && SamePart(u, c, mid, id) && ev.id != id
    ensures SamePart(u, c, Apply(mid, ev), id)
  {
    hide Apply;
    ApplyIsLocal(mid, ev);
    forall s | At(u, s).owner == Some(id) ensures At(c, s) == At(Apply(mid, ev), s) {
      assert At(u', s) == At(u, s) && ApartSlot(At(u', s), At(mid, s), id);
    }
  }

  /** Two worlds that differ from `u` only in what `id` holds, and agree on that, are the same. */
  lemma PartsEqual(u: World, c: World, d: World, id: LoopId)
    requires Apart(u, c, id) && Apart(u, d, id) && SamePart(u, c, d, id)
    ensures c == d
  {
    forall s ensures At(c, s) == At(d, s) {
      assert ApartSlot(At(u, s), At(c, s), id) && ApartSlot(At(u, s), At(d, s), id);
    }
    SlotsDetermine(c, d);
    assert c.loops == d.loops;
    assert c.pending == d.pending by {
      assert c.pending.Keys == d.pending.Keys;
    }
  }

  /** Changing what `id` holds, before or after events of other loops. */
  lemma Commutes(u: World, c: World, d: World, id: LoopId, events: seq<Event>)
    requires Apart(u, c, id) && Others(events, id)
    requires Apart(RunEvents(u, events), d, id) && SamePart(u, c, d, id)
    ensures RunEvents(c, events) == d
  {
    hide Apart, SamePart;
    var u', c' := RunEvents(u, events), RunEvents(c, events);
    EventsAgree(u, c, id, events);
    EventsKeepPart(u, c, id, events);
    EventsHold(u, id, events);
    PartsTransfer(u, u', c, c', d, id);
    PartsEqual(u', c', d, id);
  }

  lemma PartsTransfer(u: World, u': World, c: World, c': World, d: World, id: LoopId)
    requires SamePart(u, c, c', id) && SamePart(u, c, d, id) && Holds(u, u', id)
    ensures SamePart(u', c', d, id)
  {
    forall s | At(u', s).owner == Some(id) ensures At(c', s) == At(d, s) {
      assert At(u, s).owner == Some(id);
      assert At(c, s) == At(c', s) && At(c, s) == At(d, s);
    }
  }
}
