/** The doubly linked list of resolver requests that libuv still owes an answer to. */
module Resolver {
  import opened Options

  /** Names the Python future created for a lookup. */
  datatype Future = Future(id: nat)

  datatype Answer = Failure(status: int) | Result | BuildError
  datatype Settlement = Settlement(future: Future, answer: Answer)

  datatype Step =
    | Lookup(futures: seq<Future>)
    | Answered(steps: nat, answer: Answer, during: seq<Future>, after: seq<Future>)
    | Shutdown(spawns: bool, answered: seq<nat>, order: seq<nat>)

  class Request {
    const key: Future
    var future: Option<Future>
    var prev: Request?
    var next: Request?
    var freed: bool

    constructor (future: Future)
      ensures key == future && this.future == Some(future) && prev == null && next == null && !freed
    {
      key, this.future, prev, next, freed := future, Some(future), null, null, false;
    }
  }

  ghost predicate Distinct(rs: seq<Request>) {
    forall i, j :: 0 <= i < j < |rs| ==> rs[i] != rs[j]
  }

  ghost function Keys(rs: seq<Request>): multiset<Future> {
    if rs == [] then multiset{} else multiset{rs[0].key} + Keys(rs[1..])
  }

  ghost function Settled(log: seq<Settlement>): multiset<Future> {
    if log == [] then multiset{} else Settled(log[..|log| - 1]) + multiset{log[|log| - 1].future}
  }

  function First(rs: seq<Request>): Request? {
    if rs == [] then null else rs[0]
  }

  function Before(rs: seq<Request>, i: int): Request? {
    if 0 < i <= |rs| then rs[i - 1] else null
  }

  function After(rs: seq<Request>, i: int): Request? {
    if -1 <= i < |rs| - 1 then rs[i + 1] else null
  }

  /** How many requests are left once `answered` have come in, if there were as many. */
  ghost function Left(outstanding: nat, answered: nat): nat {
    if answered < outstanding then outstanding - answered else 0
  }

  ghost function Without(rs: seq<Request>, i: nat): seq<Request>
    requires i < |rs|
  {
    rs[..i] + rs[i + 1..]
  }

  lemma {:induction false} KeysConcat(a: seq<Request>, b: seq<Request>)
    ensures Keys(a + b) == Keys(a) + Keys(b)
  {
    if a == [] {
      assert a + b == b;
    } else {
      assert (a + b)[1..] == a[1..] + b;
      KeysConcat(a[1..], b);
    }
  }

  lemma KeysAdd(r: Request, rs: seq<Request>)
    ensures Keys([r] + rs) == multiset{r.key} + Keys(rs)
  {
    assert ([r] + rs)[1..] == rs;
  }

  lemma KeysWithout(rs: seq<Request>, i: nat)
    requires i < |rs|
    ensures Keys(rs) == Keys(Without(rs, i)) + multiset{rs[i].key}
  {
    hide Keys;
    var front, back := rs[..i], rs[i + 1..];
    assert rs == front + ([rs[i]] + back);
    KeysConcat(front, [rs[i]] + back);
    KeysAdd(rs[i], back);
    KeysConcat(front, back);
  }

  lemma SettledOne(log: seq<Settlement>, one: Settlement)
    ensures Settled(log + [one]) == Settled(log) + multiset{one.future}
  {
    assert (log + [one])[..|log|] == log;
  }

  lemma WithoutDistinct(rs: seq<Request>, i: nat)
    requires i < |rs| && Distinct(rs)
    ensures Distinct(Without(rs, i)) && rs[i] !in Without(rs, i)
    ensures First(Without(rs, i)) == if i == 0 then After(rs, 0) else First(rs)
  {
  }

  lemma AddedDistinct(r: Request, rs: seq<Request>)
    requires Distinct(rs) && r !in rs
    ensures Distinct([r] + rs)
  {
  }

  lemma AddedLinks(r: Request, rs: seq<Request>, k: nat)
    requires k <= |rs|
    ensures ([r] + rs)[k] == if k == 0 then r else rs[k - 1]
    ensures Before([r] + rs, k) == if k == 0 then null else if k == 1 then r else Before(rs, k - 1)
    ensures After([r] + rs, k) == if k == 0 then First(rs) else After(rs, k - 1)
  {
  }

  /** How the request now in place `k` and its neighbours shift when the `i`th is unlinked. */
  lemma WithoutLinks(rs: seq<Request>, i: nat, k: nat)
    requires i < |rs| && k < |rs| - 1
    ensures Without(rs, i)[k] == if k < i then rs[k] else rs[k + 1]
    ensures Before(Without(rs, i), k) == if k <= i then Before(rs, k) else Before(rs, k + 1)
    ensures After(Without(rs, i), k) == if k + 1 < i then After(rs, k) else After(rs, k + 1)
  {
  }

  class State {
    var requests: Request?
    var closed: bool
    var reaping: bool

    ghost var list: seq<Request>            // the requests still outstanding, latest first
    ghost var issued: multiset<Future>      // every future ever created for a lookup
    ghost var settled: seq<Settlement>      // settled futures, in order
    ghost var dropped: multiset<Future>     // futures given up because the loop was closed
    ghost var cancelled: seq<Request>
    ghost var repr: set<Request>            // every request ever made

    ghost predicate Linked()
      reads this`list, this`requests, list`prev, list`next, list`freed
    {
      && Distinct(list) && requests == First(list)
      && forall i :: 0 <= i < |list| ==>
           && list[i].prev == Before(list, i) && list[i].next == After(list, i) && !list[i].freed
    }

    /** While the loop is open every outstanding request still has its future. */
    ghost predicate Answerable()
      reads this`closed, this`reaping, this`list, list`future
    {
      && (!closed ==> !reaping)
      && (!closed ==> forall i :: 0 <= i < |list| ==> list[i].future == Some(list[i].key))
    }

    /** Each lookup is outstanding, settled, or was given up: exactly one of them, and once. */
    ghost predicate Conserved()
      reads this`closed, this`list, this`issued, this`settled, this`dropped
    {
      && issued == Keys(list) + Settled(settled) + dropped
      && (!closed ==> dropped == multiset{})
    }

    ghost predicate Valid()
      reads this`closed, this`reaping, this`requests, this`list, this`issued, this`settled, this`dropped, this`repr,
        list
    {
      Linked() && Answerable() && Conserved() && forall r :: r in list ==> r in repr
    }

    constructor ()
      ensures Valid() && list == [] && repr == {} && !closed && !reaping && issued == multiset{} && settled == []
    {
      requests, closed, reaping := null, false, false;
      list, issued, settled, dropped, cancelled := [], multiset{}, [], multiset{}, [];
      repr := {};
    }

    /** Puts a new request at the head of the list. */
    method Link(r: Request)
      requires Linked() && r !in list && r.prev == null && !r.freed
      modifies this`requests, this`list, r`next, list`prev
      ensures Linked() && list == [r] + old(list)
    {
      ghost var before := list;
      r.next := requests;
      if r.next != null {
        r.next.prev := r;
      }
      requests := r;
      list := [r] + list;
      AddedDistinct(r, before);
      forall k | 0 <= k < |list|
        ensures list[k].prev == Before(list, k) && list[k].next == After(list, k) && !list[k].freed
      {
        AddedLinks(r, before, k);
      }
    }

    method AllocRequest(future: Future) returns (r: Request)
      requires Valid() && !closed
      modifies this`requests, this`list, this`issued, this`repr, repr`prev
      ensures Valid() && fresh(r) && r.key == future
      ensures list == [r] + old(list) && issued == old(issued) + multiset{future} && repr == old(repr) + {r}
    {
      hide State.Linked, Keys, Settled;
      r := new Request(future);
      KeysAdd(r, list);
      Link(r);
      issued := issued + multiset{future};
      repr := repr + {r};
    }

    /** Unlinks a request and frees it. */
    method FreeRequest(r: Request, ghost i: nat)
      requires Linked() && i < |list| && list[i] == r
      modifies this`requests, this`list, list`prev, list`next, r`freed
      ensures Linked() && list == Without(old(list), i) && r.freed
    {
      ghost var before := list;
      if r.prev != null {
        r.prev.next := r.next;
      } else {
        requests := r.next;
      }
      if r.next != null {
        r.next.prev := r.prev;
      }
      r.freed := true;
      list := Without(list, i);
      WithoutDistinct(before, i);
      forall k | 0 <= k < |list|
        ensures list[k].prev == Before(list, k) && list[k].next == After(list, k) && !list[k].freed
      {
        WithoutLinks(before, i, k);
      }
    }

    /** Python code starts lookups for `futures`, one after the other. */
    method Lookups(futures: seq<Future>)
      requires Valid() && !closed
      modifies this`requests, this`list, this`issued, this`repr, repr`prev
      ensures Valid()
      ensures |list| == |old(list)| + |futures| && list[|futures|..] == old(list)
      ensures forall i :: 0 <= i < |futures| ==> fresh(list[i]) && list[i].key == futures[|futures| - 1 - i]
      ensures issued == old(issued) + multiset(futures) && fresh(repr - old(repr)) && old(repr) <= repr
    {
      hide State.Valid;
      var k := 0;
      while k < |futures|
        invariant k <= |futures| && Valid()
        invariant |list| == |old(list)| + k && list[k..] == old(list)
        invariant forall i :: 0 <= i < k ==> fresh(list[i]) && list[i].key == futures[k - 1 - i]
        invariant issued == old(issued) + multiset(futures[..k])
        invariant fresh(repr - old(repr)) && old(repr) <= repr
      {
        ghost var before := list;
        var r := AllocRequest(futures[k]);
        assert futures[..k + 1] == futures[..k] + [futures[k]];
        assert list[k + 1..] == before[k..];
        k := k + 1;
      }
      assert futures[..k] == futures;
    }

    /** Takes a request off the list, having dealt with its future. */
    method Retire(r: Request, ghost i: nat, ghost settlement: Option<Settlement>)
      requires Valid() && i < |list| && list[i] == r
      requires settlement == None ==> closed
      requires settlement.Some? ==> settlement.value.future == r.key
      modifies this`requests, this`list, this`settled, this`dropped, repr
      ensures Valid() && list == Without(old(list), i) && r.freed
      ensures settled == old(settled) + (if settlement == None then [] else [settlement.value])
    {
      hide State.Linked, State.Conserved, State.Answerable, Without, Keys, Settled;
      ghost var before, log, lost := list, settled, dropped;
      Unlink(r, i);
      if settlement.Some? {
        settled := settled + [settlement.value];
      } else {
        dropped := dropped + multiset{r.key};
      }
      Balanced(before, i, settlement, log, lost);
    }

    /** Everything about taking a request off the list but the balance of futures. */
    method Unlink(r: Request, ghost i: nat)
      requires Valid() && i < |list| && list[i] == r
      modifies this`requests, this`list, repr
      ensures Linked() && Answerable() && list == Without(old(list), i) && r.freed
      ensures forall k :: k in list ==> k in repr
      ensures issued == Keys(old(list)) + Settled(settled) + dropped && (!closed ==> dropped == multiset{})
    {
      hide State.Linked, Without, Keys, Settled;
      ghost var before := list;
      FreeRequest(r, i);
      WithoutMembers(before, i);
      StillAnswerable(before, i);
    }

    /** A request less, and a settlement or a dropped future more. */
    lemma Balanced(before: seq<Request>, i: nat, settlement: Option<Settlement>, log: seq<Settlement>,
                   lost: multiset<Future>)
      requires i < |before| && list == Without(before, i)
      requires issued == Keys(before) + Settled(log) + lost && (!closed ==> lost == multiset{})
      requires settlement == None ==> closed && settled == log && dropped == lost + multiset{before[i].key}
      requires settlement.Some? ==>
        settlement.value.future == before[i].key && settled == log + [settlement.value] && dropped == lost
      ensures Conserved()
    {
      hide Keys, Settled, Without;
      KeysWithout(before, i);
      if settlement.Some? {
        SettledOne(log, settlement.value);
      }
    }

    lemma StillAnswerable(before: seq<Request>, i: nat)
      requires i < |before| && list == Without(before, i) && (!closed ==> !reaping)
      requires !closed ==> forall j :: 0 <= j < |before| ==> before[j].future == Some(before[j].key)
      ensures Answerable()
    {
    }

    /** `onAddrInfo` and `onNameInfo`: the future is settled only while the loop is open. */
    method OnResolved(r: Request, ghost i: nat, answer: Answer, during: seq<Future>, after: seq<Future>)
      requires Valid() && i < |list| && list[i] == r
      modifies this`requests, this`list, this`issued, this`settled, this`dropped, this`repr, repr
      ensures Valid() && r.freed && fresh(repr - old(repr)) && old(repr) <= repr
      ensures closed ==>
        list == Without(old(list), i) && settled == old(settled) && repr == old(repr) && issued == old(issued)
      ensures !closed ==>
        && |list| == |after| + |during| + |old(list)| - 1
        && list[|after| + |during|..] == Without(old(list), i)
        && settled == old(settled) + [Settlement(r.key, answer)]
    {
      hide State.Linked, State.Conserved, Without;
      if reaping {
        Retire(r, i, None);
        return;
      }
      if closed {
        Retire(r, i, None);
        return;
      }
      var future := r.future.value;
      hide State.Valid;
      Lookups(during);
      ghost var middle := list;
      WithoutMembers(middle, i + |during|);
      Retire(r, i + |during|, Some(Settlement(future, answer)));
      WithoutSuffix(middle, |during|, i);
      Lookups(after);
      assert list[|after| + |during|..] == list[|after|..][|during|..];
    }

    method CancelAll()
      requires Valid()
      modifies this`cancelled
      ensures Valid() && cancelled == old(cancelled) + list
    {
      hide State.Valid;
      var node := requests;
      FirstRequest();
      ghost var k := 0;
      while node != null
        invariant k <= |list| && node == (if k < |list| then list[k] else null)
        invariant cancelled == old(cancelled) + list[..k] && Valid()
        decreases |list| - k
      {
        cancelled := cancelled + [node];
        NextRequest(k);
        assert list[..k + 1] == list[..k] + [list[k]];
        node := node.next;
        k := k + 1;
      }
      assert list[..k] == list;
    }

    lemma FirstRequest()
      requires Valid()
      ensures requests == if list == [] then null else list[0]
    {
    }

    lemma NextRequest(k: nat)
      requires Valid() && k < |list|
      ensures list[k].next == if k + 1 < |list| then list[k + 1] else null
    {
    }

    /** Drops every future before the requests move to the reaper. */
    method ReleaseFutures()
      requires Valid() && closed
      modifies repr`future
      ensures Valid() && forall r :: r in list ==> r.future == None
    {
      var node := requests;
      ghost var k := 0;
      while node != null
        invariant k <= |list| && node == (if k < |list| then list[k] else null)
        invariant Valid() && forall i :: 0 <= i < k ==> list[i].future == None
        decreases |list| - k
      {
        node.future := None;
        node := node.next;
        k := k + 1;
      }
    }

    /** `startDnsReaper`: when no thread can be started, the requests stay with the closing thread. */
    method StartReaper(spawns: bool) returns (started: bool)
      requires Valid() && closed
      modifies this`reaping, repr`future
      ensures Valid() && started == spawns && reaping == spawns
      ensures forall r :: r in list ==> r.future == None
    {
      hide State.Linked, State.Conserved;
      ReleaseFutures();
      reaping := true;
      if !spawns {
        reaping := false;
        return false;
      }
      return true;
    }

    /**
     `closeLoop` and `closeAllHandles`, as far as lookups are concerned. Every outstanding request is cancelled; some
     are `answered` while the handles drain. The reaper takes over what is left, its futures dropped; if it cannot be
     started, the closing thread waits for the rest, in some `order`.
     */
    method Close(spawns: bool, answered: seq<nat>, order: seq<nat>)
      requires Valid()
      modifies this, repr
      ensures Valid() && closed && settled == old(settled) && repr == old(repr) && issued == old(issued)
      ensures old(closed) ==> list == old(list) && cancelled == old(cancelled) && reaping == old(reaping)
      ensures !old(closed) ==>
        && cancelled == old(cancelled) + old(list)
        && (reaping <==> spawns && list != []) && (!spawns ==> list == [])
        && (forall r :: r in list ==> r in old(list) && r.future == None)
        && (spawns ==> |list| == Left(|old(list)|, |answered|)) && (spawns && answered == [] ==> list == old(list))
    {
      hide State.Valid;
      if closed { return; }
      NotReaping();
      MarkClosed();
      CancelAll();
      AnswerSome(answered);
      FirstRequest();
      if requests != null {
        var started := StartReaper(spawns);
        if !started { DrainAll(order); }
      }
    }

    lemma NotReaping()
      requires Valid()
      ensures !closed ==> !reaping
    {
    }

    /** Some requests are answered after the loop was closed. */
    method AnswerSome(answered: seq<nat>)
      requires Valid() && closed
      modifies this`requests, this`list, this`issued, this`settled, this`dropped, this`repr, repr
      ensures Valid() && settled == old(settled) && repr == old(repr) && issued == old(issued)
      ensures |list| == Left(|old(list)|, |answered|) && forall r :: r in list ==> r in old(list)
      ensures answered == [] ==> list == old(list)
    {
      hide State.Valid, Without;
      for k := 0 to |answered|
        invariant Valid() && settled == old(settled) && repr == old(repr) && issued == old(issued)
        invariant |list| == Left(|old(list)|, k) && forall r :: r in list ==> r in old(list)
        invariant k == 0 ==> list == old(list)
      {
        FirstRequest();
        if requests != null {
          var r;
          ghost var i;
          r, i := Pick(answered[k]);
          WithoutMembers(list, i);
          OnResolved(r, i, Failure(0), [], []);
        }
      }
    }

    method MarkClosed()
      requires Valid()
      modifies this`closed
      ensures Valid() && closed
    {
      closed := true;
    }

    /** One thing that can happen to the resolver; a lookup on a closed loop is refused. */
    method Do(step: Step)
      requires Valid()
      modifies this, repr
      ensures Valid() && fresh(repr - old(repr)) && old(repr) <= repr
      ensures old(closed) ==> closed && settled == old(settled)
      ensures old(settled) <= settled
      ensures step.Lookup? && !old(closed) ==>
        |list| == |step.futures| + |old(list)| && issued == old(issued) + multiset(step.futures)
      ensures step.Answered? && old(list) != [] ==>
        if old(closed) then |list| == |old(list)| - 1
        else
          && |list| == |old(list)| - 1 + |step.during| + |step.after|
          && |settled| == |old(settled)| + 1 && settled[|old(settled)|].answer == step.answer
      ensures step.Shutdown? ==> closed && (!old(closed) ==> cancelled == old(cancelled) + old(list))
    {
      hide State.Valid, Without;
      FirstRequest();
      match step
      case Lookup(futures) =>
        if !closed { Lookups(futures); }
      case Answered(steps, answer, during, after) =>
        if requests != null {
          var r;
          ghost var i;
          r, i := Pick(steps);
          WithoutMembers(list, i);
          OnResolved(r, i, answer, during, after);
        }
      case Shutdown(spawns, answered, order) => Close(spawns, answered, order);
    }

    /** Every order of lookups and answers, around a close at any point. */
    method Run(steps: seq<Step>)
      requires Valid()
      modifies this, repr
      ensures Valid() && old(settled) <= settled
      ensures old(closed) ==> closed && settled == old(settled)
    {
      hide State.Valid;
      for k := 0 to |steps|
        invariant Valid() && fresh(repr - old(repr)) && old(settled) <= settled
        invariant old(closed) ==> closed && settled == old(settled)
      {
        Do(steps[k]);
      }
    }

    /** Every request left is answered, in whichever order, here or on the reaper's thread. */
    method DrainAll(order: seq<nat>)
      requires Valid() && closed
      modifies this`requests, this`list, this`issued, this`settled, this`dropped, this`repr, repr
      ensures Valid() && list == [] && requests == null
      ensures settled == old(settled) && repr == old(repr) && issued == old(issued)
    {
      hide State.Answerable, State.Conserved, Without;
      var k := 0;
      while requests != null
        invariant Valid() && settled == old(settled)
        invariant repr == old(repr) && issued == old(issued)
        decreases |list|
      {
        var r;
        ghost var i;
        r, i := Pick(if k < |order| then order[k] else 0);
        WithoutMembers(list, i);
        OnResolved(r, i, Failure(0), [], []);
        k := k + 1;
      }
    }

    /** The request libuv answers next, so many steps along the list. */
    method Pick(steps: nat) returns (r: Request, ghost i: nat)
      requires Valid() && requests != null
      ensures i < |list| && r == list[i] && (steps < |list| ==> i == steps)
    {
      hide State.Answerable, State.Conserved;
      r, i := requests, 0;
      for k := 0 to steps
        invariant i < |list| && r == list[i] && (k < |list| ==> i == k)
      {
        if r.next != null {
          r, i := r.next, i + 1;
        } else {
          r, i := requests, 0;
        }
      }
    }
  }

  lemma WithoutMembers(rs: seq<Request>, i: nat)
    requires i < |rs|
    ensures |Without(rs, i)| == |rs| - 1 && forall r :: r in Without(rs, i) ==> r in rs
  {
  }

  lemma WithoutSuffix(rs: seq<Request>, n: nat, i: nat)
    requires n + i < |rs|
    ensures Without(rs, n + i)[n..] == Without(rs[n..], i)
  {
  }
}
