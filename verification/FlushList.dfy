/** The intrusive list of transports holding unsent writes. */
module FlushList {

  class Transport {
    var flushNext: Transport?
    var queued: bool
    var refs: nat          // references held on behalf of the flush list
    constructor ()
      ensures flushNext == null && !queued && refs == 0
    {
      flushNext, queued, refs := null, false, 0;
    }
  }

  /** What the Python code run by one flush schedules: while flushing, and while the reference is dropped. */
  datatype Turn = Turn(flushing: seq<Transport>, released: seq<Transport>)

  /** Nothing is scheduled where the script has run out. */
  function TurnAt(script: seq<Turn>, i: nat): (turn: Turn)
    ensures i < |script| ==> turn == script[i]
    ensures |script| <= i ==> turn.flushing == [] && turn.released == []
  {
    if i < |script| then script[i] else Turn([], [])
  }

  ghost predicate Known(script: seq<Turn>, all: set<Transport>) {
    forall i :: 0 <= i < |script| ==> AllKnown(script[i].flushing, all) && AllKnown(script[i].released, all)
  }

  ghost predicate AllKnown(ts: seq<Transport>, all: set<Transport>) {
    forall t :: t in ts ==> t in all
  }

  lemma KnownAt(ts: seq<Transport>, i: nat, all: set<Transport>)
    requires AllKnown(ts, all) && i < |ts|
    ensures ts[i] in all
  {
  }

  lemma TurnKnown(script: seq<Turn>, i: nat, all: set<Transport>)
    requires Known(script, all)
    ensures AllKnown(TurnAt(script, i).flushing, all) && AllKnown(TurnAt(script, i).released, all)
  {
  }

  ghost predicate Distinct(ts: seq<Transport>) {
    forall i, j :: 0 <= i < j < |ts| ==> ts[i] != ts[j]
  }

  ghost predicate Disjoint(a: seq<Transport>, b: seq<Transport>) {
    forall t :: t in a ==> t !in b
  }

  /** What happens to the list between two turns. */
  datatype Step = Schedules(ts: seq<Transport>) | Flushes(script: seq<Turn>) | Closes(script: seq<Turn>)

  ghost predicate StepKnown(step: Step, all: set<Transport>) {
    match step
    case Schedules(ts) => AllKnown(ts, all)
    case Flushes(script) => Known(script, all)
    case Closes(script) => Known(script, all)
  }

  function First(ts: seq<Transport>): Transport? {
    if ts == [] then null else ts[0]
  }

  function Successor(ts: seq<Transport>, i: nat): Transport? {
    if i + 1 < |ts| then ts[i + 1] else null
  }

  // ----- the specification: lists of transports

  /** The list after scheduling `ts` in turn, while `chain` is still to be flushed. */
  ghost function Scheduled(list: seq<Transport>, chain: seq<Transport>, ts: seq<Transport>): seq<Transport> {
    if ts == [] then list
    else
      var before := Scheduled(list, chain, ts[..|ts| - 1]);
      var t := ts[|ts| - 1];
      if t in before || t in chain then before else [t] + before
  }

  /** The list after the transports of `chain` from `i` on have been flushed. */
  ghost function Flushed(chain: seq<Transport>, i: nat, script: seq<Turn>, list: seq<Transport>): seq<Transport>
    requires i <= |chain|
    decreases |chain| - i
  {
    if i == |chain| then list
    else
      var rest, turn := chain[i + 1..], TurnAt(script, i);
      Flushed(chain, i + 1, script, Scheduled(Scheduled(list, rest, turn.flushing), rest, turn.released))
  }

  /** What is discarded while the first `n` transports of `queue` are dropped on a closed loop. */
  ghost function Discards(queue: seq<Transport>, n: nat, script: seq<Turn>): seq<Transport>
    requires n <= |queue|
  {
    if n == 0 then []
    else
      Discards(queue, n - 1, script) + [queue[n - 1]] +
      TurnAt(script, n - 1).flushing + TurnAt(script, n - 1).released
  }

  lemma NothingDiscarded(queue: seq<Transport>, script: seq<Turn>)
    ensures Discards(queue, 0, script) == []
  {
  }

  lemma DiscardsOne(log: seq<Transport>, queue: seq<Transport>, k: nat, script: seq<Turn>)
    requires k < |queue|
    ensures log + Discards(queue, k + 1, script) ==
      log + Discards(queue, k, script) + [queue[k]] + TurnAt(script, k).flushing + TurnAt(script, k).released
  {
  }

  lemma DiscardsMembers(queue: seq<Transport>, n: nat, script: seq<Turn>, t: Transport)
    requires n <= |queue| && t in queue[..n]
    ensures t in Discards(queue, n, script)
    decreases n
  {
    if t in queue[..n - 1] {
      DiscardsMembers(queue, n - 1, script, t);
    }
  }

  lemma ScheduledNone(list: seq<Transport>, chain: seq<Transport>)
    ensures Scheduled(list, chain, []) == list
  {
  }

  lemma ScheduledOne(list: seq<Transport>, chain: seq<Transport>, ts: seq<Transport>, i: nat)
    requires i < |ts|
    ensures ts[..i + 1] == ts[..i] + [ts[i]]
    ensures Scheduled(Scheduled(list, chain, ts[..i]), chain, [ts[i]]) == Scheduled(list, chain, ts[..i + 1])
  {
    assert ts[..i + 1][..i] == ts[..i];
    assert [ts[i]][..0] == [];
  }

  lemma FlushedOne(chain: seq<Transport>, i: nat, script: seq<Turn>, list: seq<Transport>)
    requires i <= |chain|
    ensures Flushed(chain, i, script, list) ==
      if i == |chain| then list
      else Flushed(chain, i + 1, script,
                   Scheduled(Scheduled(list, chain[i + 1..], TurnAt(script, i).flushing),
                             chain[i + 1..], TurnAt(script, i).released))
  {
  }

  /** The first `k` transports of `queue` were flushed, and `list` scheduled meanwhile. */
  ghost predicate Drained(queue: seq<Transport>, k: nat, script: seq<Turn>, chain: seq<Transport>,
                          list: seq<Transport>, sent: seq<Transport>, sent': seq<Transport>) {
    && k <= |queue| && chain == queue[k..] && sent' == sent + queue[..k]
    && Flushed(queue, k, script, list) == Flushed(queue, 0, script, [])
  }

  lemma DrainStarts(queue: seq<Transport>, script: seq<Turn>, sent: seq<Transport>)
    ensures Drained(queue, 0, script, queue, [], sent, sent)
  {
  }

  lemma DrainsOne(queue: seq<Transport>, k: nat, script: seq<Turn>, chain: seq<Transport>,
                  list: seq<Transport>, sent: seq<Transport>, sent': seq<Transport>)
    requires Drained(queue, k, script, chain, list, sent, sent')
    ensures chain != [] ==>
      var turn := TurnAt(script, k);
      Drained(queue, k + 1, script, chain[1..],
              Scheduled(Scheduled(list, chain[1..], turn.flushing), chain[1..], turn.released),
              sent, sent' + [chain[0]])
  {
    FlushedOne(queue, k, script, list);
    if chain != [] {
      assert queue[k..][1..] == queue[k + 1..] && queue[..k + 1] == queue[..k] + [queue[k]];
    }
  }

  lemma DrainEnds(queue: seq<Transport>, k: nat, script: seq<Turn>, chain: seq<Transport>,
                  list: seq<Transport>, sent: seq<Transport>, sent': seq<Transport>)
    requires Drained(queue, k, script, chain, list, sent, sent') && chain == []
    ensures sent' == sent + queue && list == Flushed(queue, 0, script, [])
  {
    FlushedOne(queue, k, script, list);
    assert queue[..k] == queue;
  }

  lemma NotEmpty(ts: seq<Transport>)
    ensures First(ts) == null <==> ts == []
    ensures ts != [] ==> First(ts) == ts[0]
  {
  }

  /** What is left when the first of `ts` is taken off. */
  lemma Rest(ts: seq<Transport>)
    requires ts != [] && Distinct(ts)
    ensures Distinct(ts[1..]) && ts[0] !in ts[1..] && ts == [ts[0]] + ts[1..]
    ensures forall i :: 0 <= i < |ts| - 1 ==> ts[1..][i] == ts[i + 1] && Successor(ts[1..], i) == Successor(ts, i + 1)
  {
  }

  lemma AddedFirst(t: Transport, ts: seq<Transport>)
    requires Distinct(ts) && t !in ts
    ensures Distinct([t] + ts) && Successor([t] + ts, 0) == First(ts)
    ensures forall i :: 0 < i <= |ts| ==>
      ([t] + ts)[i] == ts[i - 1] && Successor([t] + ts, i) == Successor(ts, i - 1)
  {
  }

  lemma {:induction false} ScheduledMembers(list: seq<Transport>, chain: seq<Transport>, ts: seq<Transport>,
                                            t: Transport)
    ensures t in Scheduled(list, chain, ts) <==> t in list || (t in ts && t !in chain)
    decreases |ts|
  {
    if ts != [] {
      var n := |ts| - 1;
      ScheduledMembers(list, chain, ts[..n], t);
      assert ts == ts[..n] + [ts[n]];
    }
  }

  /** Something `t` is scheduled by the `i`th flush or a later one, and not merely before its own flush. */
  ghost predicate Rescheduled(chain: seq<Transport>, i: nat, script: seq<Turn>, t: Transport) {
    exists k ::
      && i <= k < |chain| && t !in chain[k + 1..]
      && (t in TurnAt(script, k).flushing || t in TurnAt(script, k).released)
  }

  /** After a drain, exactly those are queued again that were scheduled after they were taken off the chain. */
  lemma {:induction false} FlushedMembers(chain: seq<Transport>, i: nat, script: seq<Turn>, list: seq<Transport>,
                                          t: Transport)
    requires i <= |chain|
    ensures t in Flushed(chain, i, script, list) <==> t in list || Rescheduled(chain, i, script, t)
    decreases |chain| - i
  {
    if i < |chain| {
      var rest, turn := chain[i + 1..], TurnAt(script, i);
      var once := Scheduled(list, rest, turn.flushing);
      var twice := Scheduled(once, rest, turn.released);
      ScheduledMembers(list, rest, turn.flushing, t);
      ScheduledMembers(once, rest, turn.released, t);
      FlushedMembers(chain, i + 1, script, twice, t);
    }
  }

  /** What is queued, and what has become of everything else. */
  datatype Contents = Contents(list: seq<Transport>, sent: seq<Transport>, discarded: seq<Transport>, closed: bool,
                               flusher: bool)

  ghost function After(c: Contents, step: Step): Contents {
    match step
    case Schedules(ts) =>
      if c.closed then c.(discarded := c.discarded + ts)
      else
        var list := Scheduled(c.list, [], ts);
        c.(list := list, flusher := c.flusher || list != [])
    case Flushes(script) =>
      if c.closed then c
      else
        var list := Flushed(c.list, 0, script, []);
        c.(list := list, sent := c.sent + c.list, flusher := list != [])
    case Closes(script) =>
      if c.closed then c
      else
        var discarded := c.discarded + Discards(c.list, |c.list|, script);
        c.(list := [], closed := true, discarded := discarded, flusher := false)
  }

  ghost function AfterAll(c: Contents, steps: seq<Step>): Contents {
    if steps == [] then c else After(AfterAll(c, steps[..|steps| - 1]), steps[|steps| - 1])
  }

  /** The flusher is active afterwards if it was, or if something is queued; the list has not become empty. */
  ghost predicate Starts(active: bool, list: seq<Transport>, active': bool, list': seq<Transport>) {
    active' == (active || list' != []) && (list != [] ==> list' != [])
  }

  lemma StartsTwice(active: bool, list: seq<Transport>, active': bool, list': seq<Transport>,
                    active'': bool, list'': seq<Transport>)
    requires Starts(active, list, active', list') && Starts(active', list', active'', list'')
    ensures Starts(active, list, active'', list'')
  {
  }

  class FlushState {
    var flushHead: Transport?
    var flusherActive: bool
    var closed: bool

    ghost var all: set<Transport>         // every transport of the loop
    ghost var list: seq<Transport>        // the list at `flushHead`
    ghost var chain: seq<Transport>       // the part of a detached list that is still to be flushed
    ghost var current: Transport?         // the transport being flushed
    ghost var sent: seq<Transport>        // flushes so far
    ghost var discarded: seq<Transport>   // transports whose writes were dropped

    /** The nodes of `ts` are linked in this order, and the last one ends the list. */
    ghost predicate Linked(ts: seq<Transport>)
      reads ts
    {
      forall i :: 0 <= i < |ts| ==> ts[i].flushNext == Successor(ts, i)
    }

    ghost predicate Shape()
      reads this, all
    {
      && AllKnown(list, all) && AllKnown(chain, all)
      && Distinct(list) && Distinct(chain) && Disjoint(list, chain)
      && flushHead == First(list)
      && Linked(list) && Linked(chain)
    }

    /** The flag and the references say exactly which transports are on the list or the chain. */
    ghost predicate Accounted(t: Transport)
      reads this, t
    {
      && (t.queued <==> t in list || t in chain)
      && t.refs == (if t.queued then 1 else 0) + (if t == current then 1 else 0)
      && (!t.queued ==> t.flushNext == null)
    }

    ghost predicate Valid()
      reads this, all
    {
      && Shape()
      && (forall t :: t in all ==> Accounted(t))
      && (list != [] ==> flusherActive)
    }

    constructor (all: set<Transport>)
      requires forall t :: t in all ==> !t.queued && t.refs == 0 && t.flushNext == null
      ensures Valid() && this.all == all && list == [] && chain == [] && current == null && !flusherActive && !closed
    {
      flushHead, flusherActive, closed := null, false, false;
      this.all, list, chain, current, sent, discarded := all, [], [], null, [], [];
    }

    method ScheduleFlush(t: Transport)
      requires Valid() && t in all
      modifies this`flushHead, this`flusherActive, this`list, this`discarded, t
      ensures Valid()
      ensures list == if old(closed) then old(list) else Scheduled(old(list), chain, [t])
      ensures discarded == if closed then old(discarded) + [t] else old(discarded)
      ensures Starts(old(flusherActive), old(list), flusherActive, list)
    {
      assert [t][..0] == [];
      if closed {
        discarded := discarded + [t];
        return;
      }
      if t.queued { return; }
      Enqueue(t);
    }

    /** Puts a transport that is not queued at the head of the list. */
    method Enqueue(t: Transport)
      requires Valid() && t in all && !t.queued
      modifies this`flushHead, this`flusherActive, this`list, t
      ensures Valid() && list == [t] + old(list) && flusherActive
    {
      ghost var before := list;
      assert Accounted(t) && t !in list && t !in chain;
      t.queued := true;
      t.refs := t.refs + 1;
      t.flushNext := flushHead;
      flushHead := t;
      list := [t] + list;
      if !flusherActive {
        flusherActive := true;
      }
      AddedFirst(t, before);
      forall i | 0 <= i < |list| ensures list[i].flushNext == Successor(list, i) {
        assert i > 0 ==> before[i - 1].flushNext == Successor(before, i - 1);
      }
      forall i | 0 <= i < |chain| ensures chain[i].flushNext == Successor(chain, i) {
        assert chain[i] in chain && chain[i] != t;
      }
      forall x | x in all ensures Accounted(x) {
        assert x in list <==> x == t || x in before;
      }
    }

    lemma Flushing()
      requires Valid()
      ensures Starts(flusherActive, [], flusherActive, []) && Starts(flusherActive, list, flusherActive, list)
    {
    }

    /** Python code schedules `ts`, one after the other. */
    method ScheduleAll(ts: seq<Transport>)
      requires Valid() && AllKnown(ts, all)
      modifies this`flushHead, this`flusherActive, this`list, this`discarded, all
      ensures Valid()
      ensures list == if closed then old(list) else Scheduled(old(list), chain, ts)
      ensures discarded == if closed then old(discarded) + ts else old(discarded)
      ensures Starts(old(flusherActive), old(list), flusherActive, list)
    {
      Flushing();
      hide FlushState.Valid, Scheduled, Starts, AllKnown;
      var i := 0;
      assert ts[..0] == [] && Scheduled(list, chain, []) == list by { ScheduledNone(list, chain); }
      while i < |ts|
        invariant 0 <= i <= |ts| && Valid()
        invariant list == if closed then old(list) else Scheduled(old(list), chain, ts[..i])
        invariant Starts(old(flusherActive), old(list), flusherActive, list)
        invariant discarded == if closed then old(discarded) + ts[..i] else old(discarded)
      {
        KnownAt(ts, i, all);
        ScheduledOne(old(list), chain, ts, i);
        ghost var active, queue := flusherActive, list;
        ScheduleFlush(ts[i]);
        StartsTwice(old(flusherActive), old(list), active, queue, flusherActive, list);
        i := i + 1;
      }
      assert ts[..i] == ts;
    }

    /** Takes the first transport off the detached chain. */
    method TakeNext(t: Transport) returns (node: Transport?)
      requires Valid() && chain != [] && t == chain[0] && current == null
      modifies this`chain, this`current, t
      ensures Valid()
      ensures t in all && chain == old(chain)[1..] && current == t && node == First(chain)
    {
      ghost var before := chain;
      Rest(chain);
      assert t in chain && t in all && t !in list && Accounted(t);
      assert t.flushNext == Successor(before, 0);
      node := t.flushNext;
      t.flushNext := null;
      t.queued := false;
      chain := chain[1..];
      current := t;
      forall i | 0 <= i < |chain| ensures chain[i].flushNext == Successor(chain, i) {
        assert chain[i] == before[i + 1] && chain[i] != t;
        assert before[i + 1].flushNext == Successor(before, i + 1);
      }
      forall i | 0 <= i < |list| ensures list[i].flushNext == Successor(list, i) {
        assert list[i] in list && list[i] != t;
      }
      forall x | x in all ensures Accounted(x) {
        assert x in before <==> x == t || x in chain;
      }
    }

    /** `flushPending`, as far as the list is concerned: it may run code that schedules more. */
    method FlushPending(t: Transport, ts: seq<Transport>)
      requires Valid() && AllKnown(ts, all)
      modifies this`flushHead, this`flusherActive, this`list, this`discarded, this`sent, all
      ensures Valid() && sent == old(sent) + [t]
      ensures list == if closed then old(list) else Scheduled(old(list), chain, ts)
      ensures discarded == if closed then old(discarded) + ts else old(discarded)
      ensures Starts(old(flusherActive), old(list), flusherActive, list)
    {
      sent := sent + [t];
      ScheduleAll(ts);
    }

    method DiscardPending(t: Transport, ts: seq<Transport>)
      requires Valid() && AllKnown(ts, all) && closed
      modifies this`flushHead, this`flusherActive, this`list, this`discarded, all
      ensures Valid() && list == old(list) && discarded == old(discarded) + [t] + ts
      ensures flusherActive == (old(flusherActive) || list != [])
    {
      discarded := discarded + [t];
      ScheduleAll(ts);
    }

    /** Drops the list's reference to the transport just handled. */
    method Release(t: Transport)
      requires Valid() && current == t && t in all
      modifies this`current, t
      ensures Valid() && current == null
    {
      t.refs := t.refs - 1;
      current := null;
    }

    method Detach() returns (node: Transport?)
      requires Valid() && chain == []
      modifies this`flushHead, this`list, this`chain
      ensures Valid() && AllKnown(chain, all) && chain == old(list) && list == [] && flushHead == null
      ensures node == First(chain)
    {
      node := flushHead;
      flushHead := null;
      chain := list;
      list := [];
    }

    /** Takes the next transport off the chain, flushes it and gives up its reference. */
    method DrainNext(t: Transport, turn: Turn) returns (node: Transport?)
      requires Valid() && chain != [] && t == chain[0] && current == null && !closed
      requires AllKnown(turn.flushing, all) && AllKnown(turn.released, all)
      modifies this`flushHead, this`flusherActive, this`list, this`chain, this`current, this`discarded, this`sent, all
      ensures Valid() && current == null && chain == old(chain)[1..] && node == First(chain)
      ensures sent == old(sent) + [t] && discarded == old(discarded)
      ensures list == Scheduled(Scheduled(old(list), chain, turn.flushing), chain, turn.released)
      ensures Starts(old(flusherActive), old(list), flusherActive, list)
    {
      assert t in chain && t in all;
      hide FlushState.Valid, Scheduled, AllKnown, First;
      node := TakeNext(t);
      FlushPending(t, turn.flushing);
      Release(t);
      ScheduleAll(turn.released);
    }

    method DrainFlushList(script: seq<Turn>)
      requires Valid() && chain == [] && current == null && Known(script, all) && !closed
      modifies this`flushHead, this`flusherActive, this`list, this`chain, this`current, this`sent, this`discarded, all
      ensures Valid() && chain == [] && current == null
      ensures sent == old(sent) + old(list)
      ensures list == Flushed(old(list), 0, script, []) && discarded == old(discarded)
      ensures Starts(old(flusherActive), [], flusherActive, list)
    {
      Flushing();
      hide FlushState.Valid, Flushed, Scheduled, Starts, AllKnown, First, Drained;
      ghost var queue := list;
      var node := Detach();
      var k := 0;
      DrainStarts(queue, script, sent);
      while node != null
        invariant Valid() && current == null && node == First(chain) && discarded == old(discarded)
        invariant Drained(queue, k, script, chain, list, old(sent), sent)
        invariant Starts(old(flusherActive), [], flusherActive, list)
        decreases |chain|
      {
        ghost var active, before := flusherActive, list;
        DrainsOne(queue, k, script, chain, list, old(sent), sent);
        NotEmpty(chain);
        TurnKnown(script, k, all);
        node := DrainNext(node, TurnAt(script, k));
        StartsTwice(old(flusherActive), [], active, before, flusherActive, list);
        k := k + 1;
      }
      NotEmpty(chain);
      DrainEnds(queue, k, script, chain, list, old(sent), sent);
    }

    /** Prepare callback: sends everything written since the last turn. */
    method OnFlush(script: seq<Turn>)
      requires Valid() && chain == [] && current == null && Known(script, all) && !closed
      modifies this`flushHead, this`flusherActive, this`list, this`chain, this`current, this`sent, this`discarded, all
      ensures Valid() && chain == [] && current == null
      ensures sent == old(sent) + old(list)
      ensures list == Flushed(old(list), 0, script, []) && discarded == old(discarded)
      ensures flusherActive <==> list != []
    {
      DrainFlushList(script);
      if flushHead == null {
        flusherActive := false;
      }
    }

    /** Releases pending writes of a closed loop without sending them. */
    method DropFlushList(script: seq<Turn>)
      requires Valid() && chain == [] && current == null && Known(script, all) && closed
      modifies this`flushHead, this`flusherActive, this`list, this`chain, this`current, this`discarded, all
      ensures Valid() && chain == [] && current == null && list == [] && flushHead == null
      ensures forall t :: t in all ==> !t.queued && t.refs == 0 && t.flushNext == null
      ensures discarded == old(discarded) + Discards(old(list), |old(list)|, script)
      ensures forall t :: t in old(list) ==> t in discarded
      ensures flusherActive == old(flusherActive)
    {
      ghost var queue := list;
      DropAll(script);
      forall t | t in queue ensures t in discarded {
        assert queue[..|queue|] == queue;
        DiscardsMembers(queue, |queue|, script, t);
      }
    }

    /** The loop closes: what was queued is dropped, nothing is queued any more, and the flusher stops. */
    method CloseLoop(script: seq<Turn>)
      requires Valid() && Resting() && Known(script, all)
      modifies this`closed, this`flushHead, this`flusherActive, this`list, this`chain, this`current, this`discarded, all
      ensures Valid() && Resting() && closed
      ensures !old(closed) ==> !flusherActive && forall t :: t in old(list) ==> t in discarded
      ensures !old(closed) ==> discarded == old(discarded) + Discards(old(list), |old(list)|, script)
      ensures old(closed) ==> discarded == old(discarded) && flusherActive == old(flusherActive)
    {
      if closed { return; }
      closed := true;
      DropFlushList(script);
      if flusherActive {
        flusherActive := false;
      }
    }

    ghost function Now(): Contents
      reads this`list, this`sent, this`discarded, this`closed, this`flusherActive
    {
      Contents(list, sent, discarded, closed, flusherActive)
    }

    /** Between two turns: no drain is under way, and a closed loop has nothing queued. */
    ghost predicate Resting()
      reads this`chain, this`current, this`closed, this`list
    {
      chain == [] && current == null && (closed ==> list == [])
    }

    method Take(step: Step)
      requires Valid() && Resting() && StepKnown(step, all)
      modifies this`closed, this`flushHead, this`flusherActive, this`list, this`chain, this`current, this`sent,
        this`discarded, all
      ensures Valid() && Resting() && (old(closed) ==> closed)
      ensures Now() == After(old(Now()), step)
    {
      hide FlushState.Valid;
      match step {
        case Schedules(ts) => ScheduleAll(ts);
        case Flushes(script) =>
          if !closed { OnFlush(script); }
        case Closes(script) => CloseLoop(script);
      }
    }

    /** Every run of writes, flushes and a close keeps the list, the flags and the references in step. */
    method Run(steps: seq<Step>)
      requires Valid() && Resting() && forall step :: step in steps ==> StepKnown(step, all)
      modifies this`closed, this`flushHead, this`flusherActive, this`list, this`chain, this`current, this`sent,
        this`discarded, all
      ensures Valid() && Resting() && Now() == AfterAll(old(Now()), steps)
    {
      hide FlushState.Valid, After;
      for i := 0 to |steps|
        invariant Valid() && Resting() && Now() == AfterAll(old(Now()), steps[..i])
      {
        Take(steps[i]);
        assert steps[..i + 1][..i] == steps[..i];
      }
      assert steps[..|steps|] == steps;
    }

    method DropAll(script: seq<Turn>)
      requires Valid() && chain == [] && current == null && Known(script, all) && closed
      modifies this`flushHead, this`flusherActive, this`list, this`chain, this`current, this`discarded, all
      ensures Valid() && chain == [] && current == null && list == []
      ensures discarded == old(discarded) + Discards(old(list), |old(list)|, script)
      ensures flusherActive == old(flusherActive)
    {
      hide FlushState.Valid, Discards;
      ghost var queue := list;
      NothingDiscarded(queue, script);
      var node := Detach();
      var k := 0;
      while node != null
        invariant k <= |queue| && Valid() && current == null && list == [] && flusherActive == old(flusherActive)
        invariant chain == queue[k..] && node == First(chain)
        invariant discarded == old(discarded) + Discards(queue, k, script)
        decreases |queue| - k
      {
        var t := node;
        node := TakeNext(t);
        assert queue[k..][1..] == queue[k + 1..] && queue[..k + 1] == queue[..k] + [t];
        var turn := TurnAt(script, k);
        DiscardPending(t, turn.flushing);
        Release(t);
        ScheduleAll(turn.released);
        DiscardsOne(old(discarded), queue, k, script);
        k := k + 1;
      }
      assert queue[..k] == queue;
    }
  }
}
