/** Taking a loop's handlers away one by one, and what that leads to. */
module SignalStripping {
  import opened Options
  import opened SignalWorld
  import opened SignalTransaction
  import opened SignalApart

  /** A live wakeup owner other than `self` counts as attached. */
  ghost predicate OwnerAttached(w: World, self: Option<LoopId>) {
    w.wakeOwner.Some? && w.wakeOwner != self && Live(w, w.wakeOwner.value) ==> w.loops[w.wakeOwner.value].attached
  }

  lemma ApplyKeepsOwnerAttached(w: World, self: Option<LoopId>, ev: Event)
    requires OwnerAttached(w, self)
    ensures OwnerAttached(Apply(w, ev), self)
  {
    hide Cleaned, ClosedOnMain, ClosedOnWorker;
    match ev
    case RunCleanup(id) => CleanedRest(w, id);
    case Close(id, onMain, order) =>
      if Live(w, id) {
        ClosedOnMainRest(w, id);
        ClosedOnWorkerRest(w, id, order);
      }
  }

  lemma WithoutHandlerKeeps(w: World, id: LoopId, sig: Sig)
    requires Invariant(w) && id in w.loops
    ensures Invariant(WithoutHandler(w, id, sig))
  {
    OwnersWithoutHandler(w, id, sig);
    hide OwnersOk, WithoutHandler;
    WithoutHandlerRest(w, id, sig);
  }

  lemma OwnersWithoutHandler(w: World, id: LoopId, sig: Sig)
    requires OwnersOk(w) && id in w.loops
    ensures OwnersOk(WithoutHandler(w, id, sig))
  {
    var w' := WithoutHandler(w, id, sig);
    forall s | s in w'.owners
      ensures s in w.owners && w'.owners[s] == w.owners[s] && (s == sig ==> w.owners[s] != id)
    {
    }
  }

  ghost predicate StrippedHandlers(rec: LoopRec, order: seq<Sig>, i: nat)
    requires i <= |order|
  {
    rec.finalized && forall s :: s in rec.handlers <==> s in order[i..]
  }

  /** On the main thread, removing the last handler also gives up the wakeup descriptor. */
  ghost predicate StrippedWake(before: World, id: LoopId, rec: LoopRec, last: bool, w: World)
    requires id in before.loops
  {
    var released := ReleaseWakeup(before, id);
    if last && before.loops[id].attached
    then !rec.attached && w.wakeOwner == released.wakeOwner && w.wakeFd == released.wakeFd
    else rec.attached == before.loops[id].attached && w.wakeOwner == before.wakeOwner && w.wakeFd == before.wakeFd
  }

  ghost predicate StrippedSlots(before: World, id: LoopId, signals: seq<Sig>, w: World) {
    forall s :: At(w, s) == ReleasedSlot(before, id, signals, s)
  }

  /** The first `i` handlers of a closing loop have been removed. */
  ghost predicate Stripped(before: World, id: LoopId, onMain: bool, order: seq<Sig>, i: nat, w: World)
    requires i <= |order|
  {
    && id in before.loops && id in w.loops
    && w == before.(owners := w.owners, dispositions := w.dispositions, loops := before.loops[id := w.loops[id]],
                    wakeOwner := w.wakeOwner, wakeFd := w.wakeFd)
    && StrippedSlots(before, id, order[..i], w)
    && StrippedHandlers(w.loops[id], order, i)
    && StrippedWake(before, id, w.loops[id], onMain && i == |order| && i > 0, w)
    && (onMain || forall s :: s in order[..i] ==> !Owns(before, s, id))
  }

  lemma NextHandler(before: World, id: LoopId, onMain: bool, order: seq<Sig>, i: nat, w: World)
    requires i < |order| && Stripped(before, id, onMain, order, i, w) && Elements(order, AsSet(order))
    ensures order[i] !in order[..i] && order[i] in w.loops[id].handlers && At(w, order[i]) == At(before, order[i])
    ensures w.resettable == before.resettable
  {
    assert order[i] in order[i..];
    assert order[i] !in order[..i];
    assert At(w, order[i]) == ReleasedSlot(before, id, order[..i], order[i]);
  }

  lemma EmptyMap(m: map<Sig, Entry>)
    ensures (forall s :: s !in m) <==> m == map[]
  {
    if forall s :: s !in m {
      assert m.Keys == {};
    }
  }

  lemma HandlersEmpty(rec: LoopRec, order: seq<Sig>, i: nat)
    requires i <= |order| && StrippedHandlers(rec, order, i)
    ensures rec.handlers == map[] <==> i == |order|
  {
    EmptyMap(rec.handlers);
    if i < |order| {
      assert order[i] in order[i..];
      assert order[i] in rec.handlers;
    } else {
      assert order[i..] == [];
    }
  }

  /** The handlers left after removing the next one, and whether they are the last. */
  lemma HandlersLeft(handlers: map<Sig, Entry>, order: seq<Sig>, i: nat)
    requires i < |order| && Elements(order, AsSet(order)) && forall s :: s in handlers <==> s in order[i..]
    ensures forall s :: s in handlers - {order[i]} <==> s in order[i + 1..]
    ensures handlers - {order[i]} == map[] <==> i + 1 == |order|
  {
    assert order[i..] == [order[i]] + order[i + 1..];
    assert order[i] !in order[i + 1..];
    EmptyMap(handlers - {order[i]});
    if i + 1 < |order| {
      assert order[i + 1] in order[i + 1..];
      assert order[i + 1] in handlers - {order[i]};
    }
  }

  lemma StripSlots(before: World, id: LoopId, order: seq<Sig>, i: nat, w: World, w': World)
    requires i < |order| && order[i] !in order[..i] && w.resettable == before.resettable
    requires StrippedSlots(before, id, order[..i], w)
    requires forall s :: s != order[i] ==> At(w', s) == At(w, s)
    requires At(w', order[i]) == if Owns(w, order[i], id) then ResetSlot(order[i]) else At(w, order[i])
    requires Owns(w, order[i], id) ==> order[i] in w.resettable
    ensures StrippedSlots(before, id, order[..i + 1], w')
  {
    assert order[..i + 1] == order[..i] + [order[i]];
    forall s ensures At(w', s) == ReleasedSlot(before, id, order[..i + 1], s) {
      assert At(w, s) == ReleasedSlot(before, id, order[..i], s);
    }
  }

  ghost predicate SomeStuck(before: World, id: LoopId, signals: seq<Sig>) {
    exists s :: s in signals && Owns(before, s, id) && s !in before.resettable
  }

  lemma ReleaseWakeupKeepsSlots(w: World, id: LoopId, signals: set<Sig>)
    ensures Release(ReleaseWakeup(w, id), id, signals) == ReleaseWakeup(Release(w, id, signals), id)
  {
    assert Mine(ReleaseWakeup(w, id), id, signals) == Mine(w, id, signals);
  }

  lemma WithoutHandlerRest(w: World, id: LoopId, sig: Sig)
    requires id in w.loops
    ensures var c := WithoutHandler(w, id, sig);
      && c == w.(owners := c.owners, dispositions := c.dispositions, loops := c.loops)
      && c.loops == w.loops[id := w.loops[id].(handlers := w.loops[id].handlers - {sig})]
  {
  }

  lemma StripWake(before: World, id: LoopId, onMain: bool, order: seq<Sig>, i: nat, w: World, sig: Sig)
    requires i < |order| && Stripped(before, id, onMain, order, i, w)
    requires w.loops[id].handlers - {sig} == map[] <==> i + 1 == |order|
    ensures var w' := Removed(w, id, sig, onMain);
      StrippedWake(before, id, w'.loops[id], onMain && i + 1 == |order|, w')
  {
    hide StrippedSlots, StrippedHandlers, WithoutHandler;
    WithoutHandlerRest(w, id, sig);
  }

  lemma RemovedRest(w: World, id: LoopId, sig: Sig, onMain: bool)
    requires id in w.loops
    ensures var w' := Removed(w, id, sig, onMain);
      && id in w'.loops
      && w' == w.(owners := w'.owners, dispositions := w'.dispositions, loops := w.loops[id := w'.loops[id]],
                  wakeOwner := w'.wakeOwner, wakeFd := w'.wakeFd)
      && w'.loops[id].handlers == w.loops[id].handlers - {sig} && w'.loops[id].finalized == w.loops[id].finalized
  {
    hide WithoutHandler;
    WithoutHandlerRest(w, id, sig);
  }

  lemma RemovedAt(w: World, id: LoopId, sig: Sig, onMain: bool)
    requires id in w.loops
    ensures var w' := Removed(w, id, sig, onMain);
      && (forall s :: s != sig ==> At(w', s) == At(w, s))
      && At(w', sig) == if Owns(w, sig, id) then ResetSlot(sig) else At(w, sig)
  {
    OtherSlotsKept(w, Removed(w, id, sig, onMain), sig);
  }

  lemma StripOne(before: World, id: LoopId, onMain: bool, order: seq<Sig>, i: nat, w: World)
    requires i < |order| && Stripped(before, id, onMain, order, i, w) && Elements(order, AsSet(order))
    requires !(Owns(w, order[i], id) && (!onMain || order[i] !in w.resettable))
    ensures Stripped(before, id, onMain, order, i + 1, Removed(w, id, order[i], onMain))
  {
    var sig := order[i];
    hide StrippedSlots, StrippedHandlers, Elements, StrippedWake, Removed;
    NextHandler(before, id, onMain, order, i, w);
    StripHandlers(w.loops[id], order, i);
    RemovedRest(w, id, sig, onMain);
    RemovedAt(w, id, sig, onMain);
    StripWake(before, id, onMain, order, i, w, sig);
    StripSlots(before, id, order, i, w, Removed(w, id, sig, onMain));
    if !onMain { StripUnowned(before, id, order, i, w); }
  }

  lemma StripHandlers(rec: LoopRec, order: seq<Sig>, i: nat)
    requires i < |order| && StrippedHandlers(rec, order, i) && Elements(order, AsSet(order))
    ensures rec.handlers - {order[i]} == map[] <==> i + 1 == |order|
    ensures forall rec': LoopRec :: rec'.handlers == rec.handlers - {order[i]} && rec'.finalized ==>
      StrippedHandlers(rec', order, i + 1)
    ensures rec.finalized
  {
    HandlersLeft(rec.handlers, order, i);
  }

  lemma StripUnowned(before: World, id: LoopId, order: seq<Sig>, i: nat, w: World)
    requires i < |order| && At(w, order[i]) == At(before, order[i]) && !Owns(w, order[i], id)
    requires forall s :: s in order[..i] ==> !Owns(before, s, id)
    ensures forall s :: s in order[..i + 1] ==> !Owns(before, s, id)
  {
    assert order[..i + 1] == order[..i] + [order[i]];
  }

  lemma ReleaseAt(w: World, id: LoopId, signals: set<Sig>, s: Sig)
    ensures At(Release(w, id, signals), s) ==
      if s in signals && Owns(w, s, id) && s in w.resettable then ResetSlot(s) else At(w, s)
  {
  }

  lemma StrippedAll(before: World, id: LoopId, onMain: bool, order: seq<Sig>, left: seq<Sig>, w: World)
    requires |left| <= |order| && left == order[|order| - |left|..]
    requires Stripped(before, id, onMain, order, |order| - |left|, w)
    ensures w.loops[id].handlers == map[] <==> left == []
    ensures forall s :: At(Release(w, id, AsSet(left)), s) == ReleasedSlot(before, id, order, s)
  {
    var i := |order| - |left|;
    HandlersEmpty(w.loops[id], order, i);
    assert order == order[..i] + left;
    hide Release;
    forall s ensures At(Release(w, id, AsSet(left)), s) == ReleasedSlot(before, id, order, s) {
      assert At(w, s) == ReleasedSlot(before, id, order[..i], s);
      ReleaseAt(w, id, AsSet(left), s);
      assert s in order <==> s in order[..i] || s in left;
    }
  }

  lemma StrippedOnMain(before: World, id: LoopId, order: seq<Sig>, left: seq<Sig>, w: World)
    requires Live(before, id) && Elements(order, before.loops[id].handlers.Keys)
    requires before.wakeOwner == Some(id) ==> before.loops[id].attached
    requires |left| <= |order| && left == order[|order| - |left|..]
    requires Stripped(before, id, true, order, |order| - |left|, w)
    ensures
      if w.loops[id].handlers != map[] || w.loops[id].attached
      then ReleaseWakeup(Release(Finalize(w, id), id, AsSet(left)), id) == Closed(before, id, true, order)
      else w == Closed(before, id, true, order)
  {
    hide Release, ClosedOnMain;
    StrippedAll(before, id, true, order, left, w);
    var closed := ClosedOnMain(before, id);
    ClosedOnMainRest(before, id);
    ReleaseRest(w, id, AsSet(left));
    ReleaseRest(Finalize(w, id), id, AsSet(left));
    var released := Release(w, id, AsSet(left));
    forall s ensures At(released, s) == At(closed, s) {
      ClosedOnMainAt(before, id, s);
      assert At(released, s) == ReleasedSlot(before, id, order, s);
    }
    SlotsDetermine(released, closed);
    if left == [] {
      ReleaseNothing(w, id);
    }
  }

  lemma ReleaseRest(w: World, id: LoopId, signals: set<Sig>)
    ensures var r := Release(w, id, signals); r == w.(owners := r.owners, dispositions := r.dispositions)
    ensures Release(Finalize(w, id), id, signals).owners == Release(w, id, signals).owners
    ensures Release(Finalize(w, id), id, signals).dispositions == Release(w, id, signals).dispositions
  {
    assert Mine(Finalize(w, id), id, signals) == Mine(w, id, signals);
  }

  lemma ReleaseNothing(w: World, id: LoopId)
    ensures Release(w, id, AsSet([])) == w
  {
    assert Mine(w, id, AsSet([])) == {};
    assert w.owners - {} == w.owners && w.dispositions + Defaults({}) == w.dispositions;
  }

  lemma StrippedOnWorker(before: World, id: LoopId, order: seq<Sig>, left: seq<Sig>, w: World)
    requires Live(before, id) && Elements(order, before.loops[id].handlers.Keys)
    requires |left| <= |order| && left == order[|order| - |left|..]
    requires Stripped(before, id, false, order, |order| - |left|, w)
    requires left != [] ==> Owns(before, left[0], id)
    ensures
      if w.loops[id].handlers != map[] || w.loops[id].attached
      then Finalize(w, id).(pending := w.pending[id := left]) == Closed(before, id, false, order)
      else w == Closed(before, id, false, order)
  {
    var i := |order| - |left|;
    StrippedAll(before, id, false, order, left, w);
    FirstOwnedSkips(order, before.owners, id, i);
    forall s ensures At(w, s) == At(before, s) {
      assert At(w, s) == ReleasedSlot(before, id, order[..i], s);
    }
    SlotsDetermine(w, before);
  }

  lemma {:induction false} FirstOwnedSkips(order: seq<Sig>, owners: map<Sig, LoopId>, id: LoopId, i: nat)
    requires i <= |order| && forall s :: s in order[..i] ==> !(s in owners && owners[s] == id)
    requires i < |order| ==> order[i] in owners && owners[order[i]] == id
    ensures FromFirstOwned(order, owners, id) == order[i..]
  {
    if i == 0 {
    } else {
      assert order[..i][0] == order[0] && !(order[0] in owners && owners[order[0]] == id);
      assert order[1..][..i - 1] == order[..i][1..] && order[1..][i - 1..] == order[i..];
      FirstOwnedSkips(order[1..], owners, id, i - 1);
    }
  }

  ghost function Detached(w: World, id: LoopId, onMain: bool): World
    requires id in w.loops
  {
    if onMain && w.loops[id].attached && w.loops[id].handlers == map[]
    then WithAttached(ReleaseWakeup(w, id), id, false)
    else w
  }

  ghost function Removed(w: World, id: LoopId, sig: Sig, onMain: bool): World
    requires id in w.loops
  {
    Detached(WithoutHandler(w, id, sig), id, onMain)
  }

  ghost function WithoutHandler(w: World, id: LoopId, sig: Sig): World
    requires id in w.loops
  {
    var kept := WithHandlers(w, id, w.loops[id].handlers - {sig});
    if Owns(w, sig, id)
    then kept.(owners := w.owners - {sig}, dispositions := w.dispositions[sig := DefaultFor(sig)])
    else kept
  }

  ghost function ReleasedSlot(before: World, id: LoopId, signals: seq<Sig>, s: Sig): Slot {
    if s in signals && Owns(before, s, id) && s in before.resettable then ResetSlot(s) else At(before, s)
  }
}
