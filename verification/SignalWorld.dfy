/**
 The process-global signal state, and what closing a loop or running its deferred
 cleanup does to it.
 */
module SignalWorld {
  import opened Options

  datatype Sig = Sig(number: int)
  type Entry = nat
  /** Names a loop, its ownership token and its wakeup descriptor alike. */
  datatype LoopId = LoopId(number: nat)

  datatype Disposition = SystemDefault | DefaultInt | LoopHandler | Foreign(tag: nat)

  datatype LoopRec = LoopRec(handlers: map<Sig, Entry>, attached: bool, finalized: bool)

  datatype World = World(
    owners: map<Sig, LoopId>,
    dispositions: map<Sig, Disposition>,
    wakeOwner: Option<LoopId>,
    wakeFd: Option<LoopId>,           // the installed wakeup descriptor; None is -1
    loops: map<LoopId, LoopRec>,
    pending: map<LoopId, seq<Sig>>,   // deferred cleanups, by owner
    resettable: set<Sig>)             // signals whose disposition the system lets us reset

  datatype Event =
    | Close(id: LoopId, onMain: bool, order: seq<Sig>)
    | RunCleanup(id: LoopId)

  /** What a reset installs for `sig`. */
  ghost function DefaultFor(sig: Sig): Disposition {
    if sig == Sig(2) then DefaultInt else SystemDefault
  }

  predicate Live(w: World, id: LoopId) {
    id in w.loops && !w.loops[id].finalized
  }

  ghost predicate Owns(w: World, s: Sig, id: LoopId) {
    s in w.owners && w.owners[s] == id
  }

  /** A pending cleanup of `id` will reset `s`. */
  ghost predicate Covered(w: World, id: LoopId, s: Sig) {
    id in w.pending && s in w.pending[id]
  }

  /** A loop's wakeup descriptor stays open until the loop is closed and its cleanup has run. */
  ghost predicate FdOpen(w: World, id: LoopId) {
    Live(w, id) || id in w.pending
  }

  function AsSet(signals: seq<Sig>): set<Sig> {
    set s | s in signals
  }

  // ----- the atomic operations of other loops

  /** Resets those of `signals` that `id` owns and that can be reset. */
  ghost function Release(w: World, id: LoopId, signals: set<Sig>): World {
    var mine := Mine(w, id, signals);
    w.(owners := w.owners - mine, dispositions := w.dispositions + Defaults(mine))
  }

  ghost function Mine(w: World, id: LoopId, signals: set<Sig>): set<Sig> {
    set s | s in signals && Owns(w, s, id) && s in w.resettable
  }

  ghost function Defaults(signals: set<Sig>): map<Sig, Disposition> {
    map s | s in signals :: DefaultFor(s)
  }

  ghost function ReleaseWakeup(w: World, id: LoopId): World {
    if w.wakeOwner == Some(id) then w.(wakeOwner := None, wakeFd := None) else w
  }

  /** `_finish_deferred_signal_cleanup`. */
  ghost function Cleaned(w: World, id: LoopId): World {
    if id !in w.pending then w
    else
      var r := ReleaseWakeup(Release(w, id, AsSet(w.pending[id])), id);
      r.(pending := r.pending - {id})
  }

  /** The signals left when resetting one of them raises: everything from the first owned one. */
  function FromFirstOwned(order: seq<Sig>, owners: map<Sig, LoopId>, id: LoopId): (r: seq<Sig>) {
    if order == [] then []
    else if order[0] in owners && owners[order[0]] == id then order
    else FromFirstOwned(order[1..], owners, id)
  }

  /** `order` lists `signals`, each once. */
  predicate Elements(order: seq<Sig>, signals: set<Sig>) {
    && AsSet(order) == signals
    && (forall i, j :: 0 <= i < j < |order| ==> order[i] != order[j])
  }

  /** `close()` on the main thread, or on a worker, where the reset is deferred. */
  ghost function Closed(w: World, id: LoopId, onMain: bool, order: seq<Sig>): World {
    if !Live(w, id) || !Elements(order, w.loops[id].handlers.Keys) then w
    else if onMain then ClosedOnMain(w, id) else ClosedOnWorker(w, id, order)
  }

  ghost function Finalize(w: World, id: LoopId): World {
    w.(loops := w.loops[id := LoopRec(map[], false, true)])
  }

  ghost function ClosedOnMain(w: World, id: LoopId): World
    requires Live(w, id)
  {
    ReleaseWakeup(Release(Finalize(w, id), id, w.loops[id].handlers.Keys), id)
  }

  ghost function ClosedOnWorker(w: World, id: LoopId, order: seq<Sig>): World
    requires Live(w, id)
  {
    var left := FromFirstOwned(order, w.owners, id);
    var gone := Finalize(w, id);
    if left == [] && !w.loops[id].attached then gone
    else gone.(pending := gone.pending[id := left])
  }

  ghost function Apply(w: World, ev: Event): World {
    match ev
    case Close(id, onMain, order) => Closed(w, id, onMain, order)
    case RunCleanup(id) => Cleaned(w, id)
  }

  ghost function RunEvents(w: World, events: seq<Event>): World {
    if events == [] then w else Apply(RunEvents(w, events[..|events| - 1]), events[|events| - 1])
  }

  lemma {:induction false} RunConcat(w: World, a: seq<Event>, b: seq<Event>)
    ensures RunEvents(w, a + b) == RunEvents(RunEvents(w, a), b)
    decreases |b|
  {
    if b == [] {
      assert a + b == a;
    } else {
      assert (a + b)[..|a| + |b| - 1] == a + b[..|b| - 1];
      RunConcat(w, a, b[..|b| - 1]);
    }
  }

  // ----- one signal at a time

  /** What the process knows about one signal. */
  datatype Slot = Slot(owner: Option<LoopId>, disposition: Option<Disposition>)

  ghost function At(w: World, s: Sig): Slot {
    Slot(if s in w.owners then Some(w.owners[s]) else None,
         if s in w.dispositions then Some(w.dispositions[s]) else None)
  }

  ghost function ResetSlot(s: Sig): Slot {
    Slot(None, Some(DefaultFor(s)))
  }

  lemma CleanedAt(w: World, id: LoopId, s: Sig)
    ensures At(Cleaned(w, id), s) ==
      if Covered(w, id, s) && Owns(w, s, id) && s in w.resettable then ResetSlot(s) else At(w, s)
  {
  }

  /** Everything but the signals and the wakeup descriptor. */
  lemma CleanedRest(w: World, id: LoopId)
    ensures var c := Cleaned(w, id);
      && c.loops == w.loops && c.resettable == w.resettable
      && (forall k :: k in c.pending <==> k in w.pending && k != id)
      && (forall k :: k in c.pending ==> c.pending[k] == w.pending[k])
      && (if id in w.pending && w.wakeOwner == Some(id) then c.wakeOwner == None && c.wakeFd == None
          else c.wakeOwner == w.wakeOwner && c.wakeFd == w.wakeFd)
  {
  }

  lemma ClosedOnMainRest(w: World, id: LoopId)
    requires Live(w, id)
    ensures var c := ClosedOnMain(w, id);
      && c.loops == Finalize(w, id).loops && c.resettable == w.resettable && c.pending == w.pending
      && (if w.wakeOwner == Some(id) then c.wakeOwner == None && c.wakeFd == None
          else c.wakeOwner == w.wakeOwner && c.wakeFd == w.wakeFd)
  {
  }

  /** A worker's close defers the reset of everything the loop still owns. */
  lemma ClosedOnWorkerRest(w: World, id: LoopId, order: seq<Sig>)
    requires Live(w, id)
    ensures var c := ClosedOnWorker(w, id, order);
      && c.loops == Finalize(w, id).loops && c.resettable == w.resettable
      && c.wakeOwner == w.wakeOwner && c.wakeFd == w.wakeFd
      && (forall k :: k != id ==>
            (k in c.pending <==> k in w.pending) && (k in c.pending ==> c.pending[k] == w.pending[k]))
      && (id !in w.pending ==>
            (id in c.pending <==> w.loops[id].attached || exists s :: s in order && Owns(w, s, id)))
      && (forall s :: s in order && Owns(w, s, id) ==> Covered(c, id, s))
  {
    FirstOwnedCovers(order, w.owners, id);
    forall s | s in order && Owns(w, s, id) ensures Covered(ClosedOnWorker(w, id, order), id, s) {
      assert s in FromFirstOwned(order, w.owners, id);
    }
  }

  lemma ClosedOnMainAt(w: World, id: LoopId, s: Sig)
    requires Live(w, id)
    ensures At(ClosedOnMain(w, id), s) ==
      if s in w.loops[id].handlers && Owns(w, s, id) && s in w.resettable then ResetSlot(s) else At(w, s)
  {
  }

  lemma ClosedOnWorkerAt(w: World, id: LoopId, order: seq<Sig>, s: Sig)
    requires Live(w, id)
    ensures At(ClosedOnWorker(w, id, order), s) == At(w, s)
  {
  }

  // ----- invariants

  /** An owner is a live loop holding a handler, or awaits its cleanup, or its reset failed. */
  ghost predicate OwnersOk(w: World) {
    forall s :: s in w.owners ==>
      var id := w.owners[s];
      id in w.loops &&
      if w.loops[id].finalized then Covered(w, id, s) || s !in w.resettable else s in w.loops[id].handlers
  }

  ghost predicate LoopsOk(w: World) {
    && (forall id :: id in w.pending ==> id in w.loops && w.loops[id].finalized)
    && (forall id :: id in w.loops && w.loops[id].finalized ==> w.loops[id].handlers == map[] && !w.loops[id].attached)
  }

  /** An owner has its own, still open descriptor installed; without an owner, nothing is installed. */
  ghost predicate WakeOk(w: World) {
    && w.wakeFd == w.wakeOwner
    && (w.wakeOwner.Some? ==>
          var id := w.wakeOwner.value;
          id in w.loops && if w.loops[id].finalized then id in w.pending else w.loops[id].attached)
  }

  ghost predicate Invariant(w: World) {
    OwnersOk(w) && LoopsOk(w) && WakeOk(w)
  }

  /** In a consistent process the installed descriptor is its owner's, and still open. */
  lemma OwnerHasOpenDescriptor(w: World)
    requires Invariant(w)
    ensures w.wakeOwner.Some? ==> w.wakeFd == w.wakeOwner && FdOpen(w, w.wakeOwner.value)
    ensures w.wakeOwner == None ==> w.wakeFd == None
  {
  }

  lemma {:induction false} FirstOwnedCovers(order: seq<Sig>, owners: map<Sig, LoopId>, id: LoopId)
    ensures forall s :: s in order && s in owners && owners[s] == id ==> s in FromFirstOwned(order, owners, id)
    ensures forall s :: s in FromFirstOwned(order, owners, id) ==> s in order
    ensures FromFirstOwned(order, owners, id) != [] ==> exists s :: s in order && s in owners && owners[s] == id
  {
    if order == [] {
    } else if order[0] in owners && owners[order[0]] == id {
      var s := order[0];
      assert s in order && s in owners && owners[s] == id;
    } else {
      FirstOwnedCovers(order[1..], owners, id);
    }
  }

  lemma CleanedKeeps(w: World, id: LoopId)
    requires OwnersOk(w) && LoopsOk(w)
    ensures OwnersOk(Cleaned(w, id)) && LoopsOk(Cleaned(w, id))
    ensures WakeOk(w) ==> WakeOk(Cleaned(w, id))
  {
  }

  lemma ClosedOnMainKeeps(w: World, id: LoopId)
    requires OwnersOk(w) && LoopsOk(w) && Live(w, id)
    ensures OwnersOk(ClosedOnMain(w, id)) && LoopsOk(ClosedOnMain(w, id))
    ensures WakeOk(w) ==> WakeOk(ClosedOnMain(w, id))
  {
  }

  lemma ClosedOnWorkerKeeps(w: World, id: LoopId, order: seq<Sig>)
    requires OwnersOk(w) && LoopsOk(w) && Live(w, id) && Elements(order, w.loops[id].handlers.Keys)
    ensures OwnersOk(ClosedOnWorker(w, id, order)) && LoopsOk(ClosedOnWorker(w, id, order))
    ensures WakeOk(w) ==> WakeOk(ClosedOnWorker(w, id, order))
  {
    FirstOwnedCovers(order, w.owners, id);
  }

  lemma ApplyKeeps(w: World, ev: Event)
    requires OwnersOk(w) && LoopsOk(w)
    ensures OwnersOk(Apply(w, ev)) && LoopsOk(Apply(w, ev))
    ensures WakeOk(w) ==> WakeOk(Apply(w, ev))
  {
    hide OwnersOk, LoopsOk, WakeOk;
    match ev
    case Close(id, onMain, order) =>
      if Live(w, id) && Elements(order, w.loops[id].handlers.Keys) {
        if onMain { ClosedOnMainKeeps(w, id); } else { ClosedOnWorkerKeeps(w, id, order); }
      }
    case RunCleanup(id) => CleanedKeeps(w, id);
  }

  /** Whatever other loops do, in any order, ownership and the installed descriptor stay consistent. */
  lemma {:induction false} EventsKeep(w: World, events: seq<Event>)
    requires OwnersOk(w) && LoopsOk(w)
    ensures OwnersOk(RunEvents(w, events)) && LoopsOk(RunEvents(w, events))
    ensures WakeOk(w) ==> WakeOk(RunEvents(w, events))
  {
    if events == [] {
    } else {
      EventsKeep(w, events[..|events| - 1]);
      ApplyKeeps(RunEvents(w, events[..|events| - 1]), events[|events| - 1]);
    }
  }

  // ----- settling

  /** Every pending cleanup has run. */
  ghost function Settled(w: World): World {
    var due := Due(w);
    var released := w.(owners := w.owners - due, dispositions := w.dispositions + Defaults(due), pending := map[]);
    if w.wakeOwner.Some? && w.wakeOwner.value in w.pending
    then released.(wakeOwner := None, wakeFd := None)
    else released
  }

  /** The signals the pending cleanups will reset. */
  ghost function Due(w: World): set<Sig> {
    set s | s in w.owners && Covered(w, w.owners[s], s) && s in w.resettable
  }

  ghost function CleanAll(w: World, order: seq<LoopId>): World
    decreases |order|
  {
    if order == [] then w else CleanAll(Cleaned(w, order[0]), order[1..])
  }

  lemma RemoveTwice(m: map<Sig, LoopId>, a: set<Sig>, b: set<Sig>)
    ensures m - (a + b) == (m - a) - b
  {
  }

  lemma DefaultTwice(m: map<Sig, Disposition>, a: set<Sig>, b: set<Sig>)
    ensures m + Defaults(a + b) == (m + Defaults(a)) + Defaults(b)
  {
  }

  lemma DueSplits(w: World, id: LoopId)
    requires id in w.pending
    ensures Due(w) == Mine(w, id, AsSet(w.pending[id])) + Due(Cleaned(w, id))
  {
    var c := Cleaned(w, id);
    var mine := Mine(w, id, AsSet(w.pending[id]));
    forall s ensures s in Due(w) <==> s in mine || s in Due(c) {
      if s in w.owners && s !in mine {
        assert s in c.owners && c.owners[s] == w.owners[s];
      }
    }
  }

  lemma SettledSkips(w: World, id: LoopId)
    ensures Settled(Cleaned(w, id)) == Settled(w)
  {
    hide Due, Mine, Defaults;
    if id in w.pending {
      var mine := Mine(w, id, AsSet(w.pending[id]));
      var rest := Due(Cleaned(w, id));
      DueSplits(w, id);
      RemoveTwice(w.owners, mine, rest);
      DefaultTwice(w.dispositions, mine, rest);
    }
  }

  /** Running the pending cleanups, in whichever order, settles the state. */
  lemma {:induction false} CleanAllSettles(w: World, order: seq<LoopId>)
    requires forall id :: id in w.pending ==> id in order
    ensures CleanAll(w, order) == Settled(w)
    decreases |order|
  {
    if order == [] {
      assert w.pending == map[] && Due(w) == {};
      assert w.owners - {} == w.owners && w.dispositions + Defaults({}) == w.dispositions;
    } else {
      SettledSkips(w, order[0]);
      CleanAllSettles(Cleaned(w, order[0]), order[1..]);
    }
  }
}
