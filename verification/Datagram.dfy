/** A datagram endpoint: flow control towards its protocol, and its teardown. */
module Datagram {
  import opened Options
  import opened Handles

  const DEFAULT_HIGH_WATER := 64 * 1024
  const MAX_SSIZE := 0x7FFF_FFFF_FFFF_FFFF

  /** Calls to the protocol's flow-control methods, with whether the endpoint was closing by then. */
  datatype Signal = Pause(closing: bool) | Resume(closing: bool)

  /** What `uv_udp_try_send` says. */
  datatype Attempt = Sent | Again | Failed

  datatype SendResult = SentAtOnce | Dropped | Reported | Queued | Raised

  /** An argument of `set_write_buffer_limits`: missing or `None`, or an integer. */
  datatype Limits = Limits(high: nat, low: nat) | NegativeHigh | NegativeLow | TooLarge | Crossed

  /** What Python code may do to the endpoint while the endpoint is calling it. */
  datatype Call =
    | SendTo(size: nat, attempt: Attempt, queues: bool)
    | Close
    | Abort
    | SetLimits(high: Option<int>, low: Option<int>)
    | PauseReading
    | ResumeReading(starts: bool)
    | StartReceiving(starts: bool)
    | LoopCloses

  datatype Nested = Nested(call: Call, inner: seq<Reaction>)
  datatype Reaction = Reaction(calls: seq<Nested>)

  /** What libuv or Python code may do to the endpoint between two turns. */
  datatype Step =
    | Calls(reaction: Reaction)
    | Completion(index: nat, failed: bool, points: seq<Reaction>)
    | CloseCallback

  ghost function Sum(sizes: seq<nat>): nat {
    if sizes == [] then 0 else Sum(sizes[..|sizes| - 1]) + sizes[|sizes| - 1]
  }

  function Without(sizes: seq<nat>, i: nat): seq<nat>
    requires i < |sizes|
  {
    sizes[..i] + sizes[i + 1..]
  }

  lemma SumOne(sizes: seq<nat>, size: nat)
    ensures Sum(sizes + [size]) == Sum(sizes) + size
  {
    assert (sizes + [size])[..|sizes|] == sizes;
  }

  lemma {:induction false} SumWithout(sizes: seq<nat>, i: nat)
    requires i < |sizes|
    ensures Sum(sizes) == Sum(Without(sizes, i)) + sizes[i]
  {
    var n := |sizes| - 1;
    if i == n {
      assert Without(sizes, i) == sizes[..n];
    } else {
      SumWithout(sizes[..n], i);
      assert Without(sizes, i) == Without(sizes[..n], i) + [sizes[n]];
      SumOne(Without(sizes[..n], i), sizes[n]);
    }
  }

  /** Pause first, then resume and pause in turn; and never a resume while closing. */
  ghost predicate Alternating(flow: seq<Signal>) {
    forall i :: 0 <= i < |flow| ==> if i % 2 == 0 then flow[i].Pause? else flow[i] == Resume(false)
  }

  /** The limits `set_write_buffer_limits` computes from its arguments. */
  function ParseLimits(high: Option<int>, low: Option<int>): (r: Limits)
    ensures r.Limits? ==> r.low <= r.high
    ensures r.Limits? <==>
      && (high.Some? ==> high.value >= 0) && (low.Some? ==> low.value >= 0)
      && (high.Some? && low.Some? ==> low.value <= high.value)
      && (high == None && low.Some? ==> low.value <= 0x1FFF_FFFF_FFFF_FFFF)
    ensures r == NegativeHigh <==> high.Some? && high.value < 0
    ensures r == NegativeLow <==> r != NegativeHigh && low.Some? && low.value < 0
    ensures r == Crossed <==> high.Some? && low.Some? && 0 <= high.value < low.value
    ensures r.Limits? && high.Some? ==> r.high == high.value
    ensures r.Limits? && high == None && low == None ==> r.high == 65536
    ensures r.Limits? && low.Some? ==> r.low == low.value
    ensures r.Limits? && low == None ==> 4 * r.low <= r.high < 4 * r.low + 4
    ensures r.Limits? && low.Some? && high == None ==> r.high == 4 * low.value <= 0x7FFF_FFFF_FFFF_FFFF
  {
    if high.Some? && high.value < 0 then NegativeHigh
    else
      var high0: nat := if high.Some? then high.value else DEFAULT_HIGH_WATER;
      if low.Some? && low.value < 0 then NegativeLow
      else
        var low0: nat := if low.Some? then low.value else high0 / 4;
        if high == None && low.Some? && low0 > MAX_SSIZE / 4 then TooLarge
        else
          var high1 := if high == None && low.Some? then low0 * 4 else high0;
          if low0 > high1 then Crossed else Limits(high1, low0)
  }

  // ----- the endpoint when nothing re-enters it

  /** The whole state; `phase` is that of its handle, `forced` says that it was closed otherwise than gracefully. */
  datatype State = State(
    size: nat, high: nat, low: nat, reading: bool, closing: bool, connLost: bool, paused: bool, open: bool,
    inflight: seq<nat>, flow: seq<Signal>, reports: nat, lost: nat, aborted: bool, forced: bool, phase: Phase)

  ghost function MayPause(s: State): State {
    if s.size > s.high && !s.paused then s.(paused := true, flow := s.flow + [Pause(s.closing)]) else s
  }

  ghost function MayResume(s: State): State {
    if !s.closing && s.paused && s.size <= s.low then s.(paused := false, flow := s.flow + [Resume(false)]) else s
  }

  ghost function Shut(s: State): State {
    if s.open then s.(open := false, reading := false, phase := Closing) else s
  }

  ghost function Enqueued(s: State, size: nat): State {
    MayPause(s.(inflight := s.inflight + [size], size := s.size + size))
  }

  ghost function Outcome(s: State, attempt: Attempt, queues: bool): SendResult {
    if s.closing then Dropped
    else if s.size == 0 && attempt == Sent then SentAtOnce
    else if s.size == 0 && attempt == Failed then Reported
    else if queues then Queued
    else Raised
  }

  ghost function SentTo(s: State, size: nat, result: SendResult): State {
    match result
    case Queued => Enqueued(s, size)
    case Reported => s.(reports := s.reports + 1)
    case _ => s
  }

  /** A send is no longer in flight; if it failed, the protocol hears of it unless the endpoint is closing. */
  ghost function Taken(s: State, index: nat, failed: bool): State
    requires index < |s.inflight|
  {
    s.(reports := if failed && !s.closing then s.reports + 1 else s.reports,
       inflight := Without(s.inflight, index),
       size := if s.size < s.inflight[index] then 0 else s.size - s.inflight[index])
  }

  /** A send has completed: an endpoint closed gracefully is shut down once nothing is queued. */
  ghost function Completed(s: State, index: nat, failed: bool): State
    requires index < |s.inflight|
  {
    var s' := MayResume(Taken(s, index, failed));
    if s'.size == 0 && s'.closing then Shut(s') else s'
  }

  /** `close()`: nothing that is queued is given up. */
  ghost function ClosedGently(s: State): State {
    if s.closing then s
    else if s.size == 0 then Shut(s.(closing := true, reading := false))
    else s.(closing := true, reading := false)
  }

  ghost function Aborted(s: State): State {
    Shut(s.(closing := true, size := 0, aborted := true, forced := true))
  }

  ghost function ClosedWithLoop(s: State): State {
    if s.phase != Open then s
    else s.(closing := true, open := false, reading := false, forced := true, phase := Closing)
  }

  ghost function Limited(s: State, limits: Limits): State {
    if limits.Limits? then MayPause(s.(high := limits.high, low := limits.low)) else s
  }

  ghost function Received(s: State, starts: bool): State {
    if s.reading || s.closing then s
    else if starts then s.(reading := true)
    else Shut(s.(closing := true, forced := true))
  }

  ghost function Apply(s: State, call: Call): State {
    match call
    case SendTo(size, attempt, queues) => SentTo(s, size, Outcome(s, attempt, queues))
    case Close => ClosedGently(s)
    case Abort => Aborted(s)
    case SetLimits(high, low) => Limited(s, ParseLimits(high, low))
    case PauseReading => s.(reading := false)
    case ResumeReading(starts) => if s.closing then s else s.(reading := s.reading || starts)
    case StartReceiving(starts) => Received(s, starts)
    case LoopCloses => ClosedWithLoop(s)
  }

  ghost function ApplyAll(s: State, calls: seq<Nested>): State {
    if calls == [] then s else Apply(ApplyAll(s, calls[..|calls| - 1]), calls[|calls| - 1].call)
  }

  lemma ApplyOne(s: State, calls: seq<Nested>, i: nat)
    requires i < |calls|
    ensures ApplyAll(s, calls[..i + 1]) == Apply(ApplyAll(s, calls[..i]), calls[i].call)
  {
    assert calls[..i + 1][..i] == calls[..i];
  }

  /** Closing and aborting last. */
  ghost predicate Lasting(call: Call, closing: bool, aborted: bool) {
    match call
    case Close => closing
    case Abort => closing && aborted
    case LoopCloses => closing
    case _ => true
  }

  ghost predicate Flat(calls: seq<Nested>) {
    forall i :: 0 <= i < |calls| ==> calls[i].inner == []
  }

  ghost predicate FlatStep(step: Step) {
    match step
    case Calls(reaction) => Flat(reaction.calls)
    case Completion(_, _, points) => points == []
    case CloseCallback => true
  }

  /** The endpoint after one step; a closed loop schedules no `connection_lost`. */
  ghost function Stepped(s: State, step: Step, loopClosed: bool): State {
    match step
    case Calls(reaction) => ApplyAll(s, reaction.calls)
    case Completion(index, failed, _) => if index < |s.inflight| then Completed(s, index, failed) else s
    case CloseCallback =>
      if s.phase == Closing then s.(connLost := true, lost := s.lost + (if loopClosed then 0 else 1), phase := Closed)
      else s
  }

  ghost function SteppedAll(s: State, steps: seq<Step>, loopClosed: bool): State {
    if steps == [] then s
    else Stepped(SteppedAll(s, steps[..|steps| - 1], loopClosed), steps[|steps| - 1], loopClosed)
  }

  /** Of all handles only `h` may have moved, and it has not reopened. */
  ghost predicate Alone(a: map<HandleId, Phase>, b: map<HandleId, Phase>, h: HandleId) {
    h in a ==>
      && h in b && b == a[h := b[h]]
      && (a[h] == Closed ==> b[h] == Closed) && (a[h] == Closing ==> b[h] != Open)
  }

  lemma AloneItself(a: map<HandleId, Phase>, h: HandleId)
    ensures Alone(a, a, h)
  {
  }

  lemma AloneTwice(a: map<HandleId, Phase>, b: map<HandleId, Phase>, c: map<HandleId, Phase>, h: HandleId)
    requires Alone(a, b, h) && Alone(b, c, h)
    ensures Alone(a, c, h)
  {
  }

  class Endpoint {
    const loop: Counters
    const handle: HandleId

    var writeBufferSize: nat
    var highWater: nat
    var lowWater: nat
    var reading: bool
    var closing: bool
    var connLost: bool
    var paused: bool
    var open: bool

    var inflight: seq<nat>          // sizes of the sends libuv has yet to complete
    ghost var flow: seq<Signal>     // calls of `pause_writing` and `resume_writing`
    ghost var reports: nat          // calls of `error_received` about sends
    ghost var lost: nat             // how often `connection_lost` was scheduled
    ghost var aborted: bool
    ghost var forced: bool          // closed by `abort()`, by the loop, or because receiving could not start
    ghost var settling: bool        // a completed send is being reported, before a possible resume
    ghost var detaching: bool       // the Python socket is being detached, before `uv_close`

    ghost function Now(): State
      requires handle in loop.table
      reads this, loop
    {
      State(writeBufferSize, highWater, lowWater, reading, closing, connLost, paused, open, inflight, flow, reports,
            lost, aborted, forced, loop.table[handle])
    }

    /** What these calls were to close is closed. */
    ghost predicate Lasts(calls: seq<Nested>)
      reads this`closing, this`aborted
    {
      forall i :: 0 <= i < |calls| ==> Lasting(calls[i].call, closing, aborted)
    }

    /** The reaction at this point was performed, if there is one. */
    ghost predicate LastsAt(points: seq<Reaction>, k: nat)
      reads this`closing, this`aborted
    {
      k < |points| ==> Lasts(points[k].calls)
    }

    ghost predicate Sizes()
      reads this`writeBufferSize, this`inflight, this`aborted
    {
      writeBufferSize == if aborted then 0 else Sum(inflight)
    }

    ghost predicate Flow()
      reads this`flow, this`paused, this`highWater, this`lowWater
    {
      lowWater <= highWater && Alternating(flow) && (paused <==> |flow| % 2 == 1)
    }

    /** A paused endpoint has bytes queued, whose completion can resume it. */
    ghost predicate Waiting()
      reads this`paused, this`closing, this`settling, this`writeBufferSize
    {
      paused && !closing && !settling ==> writeBufferSize > 0
    }

    /** An endpoint closed gracefully had nothing in flight when its handle was closed, and has nothing since. */
    ghost predicate Graceful()
      reads this`open, this`forced, this`aborted, this`writeBufferSize, this`closing
    {
      (!open && !forced ==> writeBufferSize == 0) && (aborted ==> forced) && (forced ==> !open)
    }

    /** A closing endpoint with nothing queued has been shut down. */
    ghost predicate Finishing()
      reads this`open, this`closing, this`writeBufferSize
    {
      closing && writeBufferSize == 0 ==> !open
    }

    ghost predicate Teardown()
      reads this`open, this`closing, this`aborted, this`detaching, this`connLost, this`lost, loop
    {
      && loop.Valid() && handle in loop.table
      && (open ==> loop.table[handle] == Open && !detaching)
      && (!open && !detaching ==> loop.table[handle] != Open)
      && (!open ==> closing) && (aborted ==> closing)
      && (connLost <==> loop.table[handle] == Closed)
      && lost <= (if connLost then 1 else 0)
    }

    ghost predicate Reading()
      reads this`reading, this`closing
    {
      closing ==> !reading
    }

    ghost predicate Valid()
      reads this, loop
    {
      Sizes() && Flow() && Waiting() && Finishing() && Teardown() && Reading() && Graceful()
    }

    /** What every operation leaves alone, and what it only adds to. */
    twostate predicate Grew()
      reads this, loop
    {
      settling == old(settling) && GrewApart()
    }

    twostate predicate GrewApart()
      reads this, loop
    {
      && detaching == old(detaching) && loop.closed == old(loop.closed)
      && (old(closing) ==> closing) && (old(closing) && !old(open) ==> !open)
      && old(flow) <= flow && old(reports) <= reports && old(lost) <= lost
      && (old(aborted) ==> aborted) && (old(forced) ==> forced)
      && Alone(old(loop.table), loop.table, handle)
    }

    constructor (loop: Counters, handle: HandleId)
      requires loop.Valid() && handle !in loop.table
      modifies loop
      ensures Valid() && this.loop == loop && this.handle == handle && open && !settling && !detaching
      ensures Now() == State(0, 65536, 16384, false, false, false, false, true, [], [], 0, 0, false, false, Open)
      ensures loop.Valid() && loop.table == old(loop.table)[handle := Open] && loop.closed == old(loop.closed)
    {
      this.loop, this.handle := loop, handle;
      writeBufferSize, highWater, lowWater := 0, DEFAULT_HIGH_WATER, DEFAULT_HIGH_WATER / 4;
      reading, closing, connLost, paused, open := false, false, false, false, true;
      inflight, flow, reports, lost, aborted, forced, settling, detaching := [], [], 0, 0, false, false, false, false;
      new;
      loop.Opened(handle);
    }

    /** With no send outstanding, a paused endpoint is closing, and a closing one has been shut down. */
    lemma NothingOutstanding()
      requires Valid() && !settling && inflight == []
      ensures paused ==> closing
      ensures closing ==> !open
    {
    }

    // ----- flow control

    method MaybePauseProtocol(points: seq<Reaction>)
      requires Valid()
      modifies this, loop
      ensures Valid() && Grew()
      ensures points == [] ==> Now() == MayPause(old(Now()))
      ensures old(paused) || old(writeBufferSize) <= old(highWater) ==> Now() == old(Now())
      ensures !(old(paused) || old(writeBufferSize) <= old(highWater)) ==> LastsAt(points, 0)
      decreases points, 1
    {
      if writeBufferSize <= highWater { return; }
      if paused { return; }
      paused := true;
      flow := flow + [Pause(closing)];
      hide Endpoint.Valid;
      if points != [] { React(points[0]); }
    }

    method React(reaction: Reaction)
      requires Valid()
      modifies this, loop
      ensures Valid() && Grew()
      ensures Flat(reaction.calls) ==> Now() == ApplyAll(old(Now()), reaction.calls)
      ensures Lasts(reaction.calls)
      decreases reaction, 1
    {
      InTable();
      AloneItself(loop.table, handle);
      assert Lasts(reaction.calls[..0]) && ApplyAll(Now(), reaction.calls[..0]) == Now();
      hide Endpoint.Valid, Endpoint.Now, Endpoint.Lasts, Apply, ApplyAll, Flat, Alone;
      var i := 0;
      while i < |reaction.calls|
        invariant Valid() && Grew() && i <= |reaction.calls| && handle in loop.table
        invariant Flat(reaction.calls) ==> Now() == ApplyAll(old(Now()), reaction.calls[..i])
        invariant Lasts(reaction.calls[..i])
      {
        ghost var table := loop.table;
        DoNth(reaction, i);
        AloneTwice(old(loop.table), table, loop.table, handle);
        ApplyOne(old(Now()), reaction.calls, i);
        i := i + 1;
      }
      assert reaction.calls[..i] == reaction.calls;
    }

    method DoNth(reaction: Reaction, i: nat)
      requires Valid() && i < |reaction.calls| && Lasts(reaction.calls[..i])
      modifies this, loop
      ensures Valid() && Grew() && handle in old(loop.table) && handle in loop.table
      ensures Flat(reaction.calls) ==> Now() == Apply(old(Now()), reaction.calls[i].call)
      ensures Lasts(reaction.calls[..i + 1])
      decreases reaction, 0
    {
      InTable();
      hide Endpoint.Valid, Endpoint.Now, Apply, Alone;
      ghost var before := reaction.calls[..i];
      Do(reaction.calls[i].call, reaction.calls[i].inner);
      assert reaction.calls[..i + 1] == before + [reaction.calls[i]];
    }

    lemma InTable()
      requires Valid()
      ensures handle in loop.table
    {
    }

    method Do(call: Call, points: seq<Reaction>)
      requires Valid()
      modifies this, loop
      ensures Valid() && Grew()
      ensures points == [] ==> Now() == Apply(old(Now()), call)
      ensures Lasting(call, closing, aborted)
      decreases points, 4
    {
      InTable();
      hide Endpoint.Valid;
      match call {
        case SendTo(size, attempt, queues) => var result := DoSendTo(size, attempt, queues, points);
        case Close => DoClose(points);
        case Abort => DoAbort(points);
        case SetLimits(high, low) => var result := SetWriteBufferLimits(high, low, points);
        case PauseReading => var raised := DoPauseReading();
        case ResumeReading(starts) => var raised := DoResumeReading(starts);
        case StartReceiving(starts) => StartReceivingMethod(starts, points);
        case LoopCloses => CloseFromLoop(points);
      }
    }

    method MaybeResumeProtocol(points: seq<Reaction>)
      requires Sizes() && Flow() && Teardown() && Reading() && Graceful() && settling
      modifies this, loop
      ensures Sizes() && Flow() && Waiting() && Teardown() && Reading() && Graceful() && !settling && GrewApart()
      ensures if old(closing) then writeBufferSize == old(writeBufferSize) && open == old(open) else Finishing()
      ensures points == [] || old(closing) ==> Now() == MayResume(old(Now()))
      ensures !old(closing) && old(paused) && old(writeBufferSize) <= old(lowWater) ==> LastsAt(points, 0)
      decreases points, 1
    {
      hide Counters.Valid, Alone;
      AloneItself(loop.table, handle);
      settling := false;
      if closing || connLost { return; }
      if !paused { return; }
      if writeBufferSize > lowWater { return; }
      paused := false;
      flow := flow + [Resume(closing)];
      if points != [] { React(points[0]); }
    }

    // ----- sending

    /** `sendto`, once its arguments have been checked. */
    method DoSendTo(size: nat, attempt: Attempt, queues: bool, points: seq<Reaction>) returns (result: SendResult)
      requires Valid()
      modifies this, loop
      ensures Valid() && Grew()
      ensures result == Outcome(old(Now()), attempt, queues)
      ensures result == SentAtOnce || result == Dropped || result == Raised ==> Now() == old(Now())
      ensures points == [] ==> Now() == SentTo(old(Now()), size, result)
      ensures result == Reported ==> LastsAt(points, 0)
      decreases points, 3
    {
      if connLost || closing { return Dropped; }
      if writeBufferSize == 0 {
        if attempt == Sent { return SentAtOnce; }
        if attempt != Again {
          hide Endpoint.Valid;
          reports := reports + 1;
          if points != [] { React(points[0]); }
          return Reported;
        }
      }
      if !queues { return Raised; }
      QueueSend(size, points);
      return Queued;
    }

    method QueueSend(size: nat, points: seq<Reaction>)
      requires Valid() && !closing
      modifies this, loop
      ensures Valid() && Grew()
      ensures points == [] ==> Now() == Enqueued(old(Now()), size)
      decreases points, 2
    {
      hide Endpoint.Valid;
      Enqueue(size);
      MaybePauseProtocol(points);
    }

    /** Counts a send that libuv has accepted. */
    method Enqueue(size: nat)
      requires Valid() && !closing
      modifies this`inflight, this`writeBufferSize
      ensures Valid() && inflight == old(inflight) + [size] && writeBufferSize == old(writeBufferSize) + size
    {
      hide Endpoint.Flow, Endpoint.Teardown, Endpoint.Reading, Sum;
      NotAborted();
      SumOne(inflight, size);
      inflight := inflight + [size];
      writeBufferSize := writeBufferSize + size;
    }

    lemma NotAborted()
      requires Teardown() && Graceful() && !closing
      ensures !aborted && !forced && open
    {
    }

    /** libuv completed the send at `index`. */
    method OnSent(index: nat, failed: bool, points: seq<Reaction>)
      requires Valid() && index < |inflight| && !settling && !detaching
      modifies this, loop
      ensures Valid() && Grew()
      ensures points == [] ==> Now() == Completed(old(Now()), index, failed)
      decreases points, 4
    {
      hide Endpoint.Sizes, Endpoint.Flow, Endpoint.Teardown, Taken, MayResume, Shut, Alone;
      ghost var began := loop.table;
      ReportSent(index, failed, points);
      ghost var reported := loop.table;
      MaybeResumeProtocol(if points == [] then [] else points[1..]);
      AloneTwice(began, reported, loop.table, handle);
      reported := loop.table;
      ShutdownIfDone(if |points| < 2 then [] else points[2..]);
      AloneTwice(began, reported, loop.table, handle);
    }

    /** An endpoint closed gracefully is shut down once nothing is queued. */
    method ShutdownIfDone(points: seq<Reaction>)
      requires Sizes() && Flow() && Waiting() && Teardown() && Reading() && Graceful()
      modifies this, loop
      ensures Valid() && Grew()
      ensures points == [] ==>
        Now() == if old(closing) && old(writeBufferSize) == 0 then Shut(old(Now())) else old(Now())
      decreases points, 2
    {
      hide Endpoint.Sizes, Endpoint.Flow, Counters.Valid;
      if writeBufferSize == 0 && closing {
        ShutdownAndClose(points);
      }
    }

    /** A failed send is reported to the protocol of an endpoint that is not closing. */
    method ReportSent(index: nat, failed: bool, points: seq<Reaction>)
      requires Valid() && index < |inflight| && !settling && !detaching
      modifies this, loop
      ensures Sizes() && Flow() && Teardown() && Reading() && Graceful() && settling && GrewApart()
      ensures old(closing) || Finishing()
      ensures old(closing) ==> open == old(open)
      ensures points == [] || !failed || old(closing) ==> Now() == Taken(old(Now()), index, failed)
      ensures failed && !old(closing) ==> old(reports) < reports && LastsAt(points, 0)
      decreases points, 3
    {
      hide Endpoint.Sizes, Endpoint.Flow, Endpoint.Teardown;
      TakeCompleted(index);
      if failed && !(closing || connLost) {
        reports := reports + 1;
        if points != [] { React(points[0]); }
      }
    }

    method TakeCompleted(index: nat)
      requires Valid() && index < |inflight| && !settling
      modifies this`inflight, this`writeBufferSize, this`settling
      ensures Sizes() && Flow() && Waiting() && Teardown() && Reading() && Graceful() && settling
      ensures !closing ==> Finishing()
      ensures Now() == Taken(old(Now()), index, false)
    {
      SumWithout(inflight, index);
      var size := inflight[index];
      inflight := Without(inflight, index);
      writeBufferSize := writeBufferSize - (if size < writeBufferSize then size else writeBufferSize);
      settling := true;
    }

    // ----- teardown

    method ShutdownAndClose(points: seq<Reaction>)
      requires Sizes() && Flow() && Waiting() && Teardown() && closing && (reading ==> open)
      requires (writeBufferSize == 0 || forced) && (aborted ==> forced) && (!open ==> Graceful())
      modifies this, loop
      ensures Valid() && Grew() && !open && closing
      ensures points == [] ==> Now() == Shut(old(Now()))
      ensures old(open) ==> LastsAt(points, 0)
      decreases points, 1
    {
      hide Endpoint.Sizes, Endpoint.Flow, Counters.Valid;
      if !open { return; }
      open := false;
      if reading { reading := false; }
      detaching := true;
      DetachAndClose(points);
    }

    /** The Python socket is detached; the handle is closed, unless that has happened meanwhile. */
    method FinishShutdown()
      requires Valid() && detaching && !open
      modifies loop, this`detaching
      ensures Valid() && !detaching && loop.closed == old(loop.closed)
      ensures loop.table ==
        if old(loop.table)[handle] == Open then old(loop.table)[handle := Closing] else old(loop.table)
      ensures Alone(old(loop.table), loop.table, handle)
    {
      hide Endpoint.Sizes, Endpoint.Flow, Counters.Valid;
      loop.CloseExternal(handle);
      detaching := false;
    }

    method DoClose(points: seq<Reaction>)
      requires Valid()
      modifies this, loop
      ensures Valid() && Grew() && closing
      ensures points == [] ==> Now() == ClosedGently(old(Now()))
      ensures !old(closing) && old(writeBufferSize) > 0 ==>
        open == old(open) && loop.table == old(loop.table) && Now() == old(Now()).(closing := true, reading := false)
      decreases points, 3
    {
      if closing { return; }
      closing := true;
      if reading { reading := false; }
      if writeBufferSize == 0 {
        ShutdownAndClose(points);
      }
    }

    method DoAbort(points: seq<Reaction>)
      requires Valid()
      modifies this, loop
      ensures Valid() && Grew() && closing && !open && aborted && writeBufferSize == 0
      ensures points == [] ==> Now() == Aborted(old(Now()))
      decreases points, 3
    {
      hide Endpoint.Flow, Counters.Valid, Alone;
      closing := true;
      aborted, forced := true, true;
      writeBufferSize := 0;
      ShutdownAndClose(points);
    }

    /** The loop shuts down; `uv_walk` passes over handles already closing. */
    method CloseFromLoop(points: seq<Reaction>)
      requires Valid()
      modifies this, loop
      ensures Valid() && Grew() && closing && !open && loop.table[handle] != Open
      ensures points == [] ==> Now() == ClosedWithLoop(old(Now()))
      decreases points, 3
    {
      hide Endpoint.Sizes, Endpoint.Flow, Counters.Valid;
      if loop.table[handle] != Open { return; }
      ghost var was := detaching;
      closing, forced := true, true;
      open := false;
      if reading { reading := false; }
      detaching := true;
      DetachAndClose(points);
      detaching := was;
    }

    /** Detaches the Python socket, which may run Python code, and closes the handle. */
    method DetachAndClose(points: seq<Reaction>)
      requires Valid() && detaching && !open
      modifies this, loop
      ensures Valid() && !detaching && !open && closing && settling == old(settling) && loop.closed == old(loop.closed)
      ensures old(flow) <= flow && old(reports) <= reports && old(lost) <= lost
      ensures (old(aborted) ==> aborted) && (old(forced) ==> forced)
      ensures Alone(old(loop.table), loop.table, handle) && loop.table[handle] != Open
      ensures points == [] && old(loop.table)[handle] == Open ==> Now() == old(Now()).(phase := Closing)
      ensures LastsAt(points, 0)
      decreases points, 0
    {
      hide Endpoint.Sizes, Endpoint.Flow, Counters.Valid, Alone;
      AloneItself(loop.table, handle);
      if points != [] { React(points[0]); }
      ghost var table := loop.table;
      FinishShutdown();
      AloneTwice(old(loop.table), table, loop.table, handle);
    }

    method OnClosed()
      requires Valid() && loop.table[handle] == Closing
      modifies this`connLost, this`lost, loop
      ensures Valid() && Grew() && connLost && lost == old(lost) + (if loop.closed then 0 else 1) && lost <= 1
      ensures loop.table == old(loop.table)[handle := Closed]
      ensures Now() == old(Now()).(connLost := true, lost := lost, phase := Closed)
    {
      hide Endpoint.Sizes, Endpoint.Flow, Counters.Valid;
      loop.CloseCallback(handle);
      connLost := true;
      if !loop.closed {
        lost := lost + 1;
      }
    }

    // ----- the rest of the Python methods

    method SetWriteBufferLimits(high: Option<int>, low: Option<int>, points: seq<Reaction>) returns (result: Limits)
      requires Valid()
      modifies this, loop
      ensures Valid() && Grew() && result == ParseLimits(high, low)
      ensures !result.Limits? ==> Now() == old(Now())
      ensures points == [] ==> Now() == Limited(old(Now()), result)
      decreases points, 3
    {
      result := ParseLimits(high, low);
      if result.Limits? {
        highWater := result.high;
        lowWater := result.low;
        MaybePauseProtocol(points);
      }
    }

    method TryStartReceiving(starts: bool) returns (failed: bool)
      requires Valid()
      modifies this`reading
      ensures Valid()
      ensures failed <==> !old(reading) && !closing && !connLost && !starts
      ensures reading <==> old(reading) || (!closing && !connLost && starts)
    {
      if reading || closing || connLost { return false; }
      if !starts { return true; }
      reading := true;
      return false;
    }

    method StartReceivingMethod(starts: bool, points: seq<Reaction>)
      requires Valid()
      modifies this, loop
      ensures Valid() && Grew()
      ensures if old(reading) || old(closing) || starts
              then Now() == old(Now()).(reading := !closing)
              else closing && !open
      ensures points == [] ==> Now() == Received(old(Now()), starts)
      decreases points, 3
    {
      hide Endpoint.Sizes, Endpoint.Flow, Counters.Valid, Alone, Endpoint.Lasts;
      AloneItself(loop.table, handle);
      var failed := TryStartReceiving(starts);
      if failed {
        closing, forced := true, true;
        ShutdownAndClose(points);
      }
    }

    method DoPauseReading() returns (raised: bool)
      requires Valid()
      modifies this`reading
      ensures Valid() && Grew() && raised == closing && !reading && Now() == old(Now()).(reading := false)
    {
      if closing { return true; }
      if reading { reading := false; }
      return false;
    }

    method DoResumeReading(starts: bool) returns (raised: bool)
      requires Valid()
      modifies this`reading
      ensures Valid() && Grew()
      ensures raised <==> closing || (!old(reading) && !starts)
      ensures reading <==> !raised
    {
      if closing { return true; }
      raised := TryStartReceiving(starts);
    }

    // ----- whole runs

    /** Left alone until every send has completed, a paused endpoint is resumed once, and a closing one is shut down. */
    method CompleteAll()
      requires Valid() && !settling && !detaching
      modifies this, loop
      ensures Valid() && Grew() && inflight == [] && writeBufferSize == 0 && closing == old(closing)
      ensures flow == old(flow) + (if old(paused) && !closing then [Resume(false)] else [])
      ensures closing ==> loop.table[handle] != Open
    {
      while |inflight| > 0
        invariant Valid() && Grew() && closing == old(closing)
        invariant flow == old(flow) || (old(paused) && !closing && flow == old(flow) + [Resume(false)])
        decreases |inflight|
      {
        CompleteFirst();
      }
      NothingOutstanding();
    }

    method CompleteFirst()
      requires Valid() && !settling && !detaching && |inflight| > 0
      modifies this, loop
      ensures Valid() && Grew() && |inflight| < |old(inflight)| && closing == old(closing)
      ensures flow == old(flow) || (old(paused) && !paused && !closing && flow == old(flow) + [Resume(false)])
    {
      hide Endpoint.Sizes, Endpoint.Teardown;
      OnSent(0, false, []);
    }

    /** What a step amounts to when nothing re-enters the endpoint. */
    twostate predicate Took(step: Step)
      reads this, loop
    {
      && handle in old(loop.table) && handle in loop.table
      && (FlatStep(step) ==> Now() == Stepped(old(Now()), step, loop.closed))
    }

    method Take(step: Step)
      requires Valid() && !settling && !detaching
      modifies this, loop
      ensures Valid() && Grew() && Took(step)
    {
      hide Endpoint.Sizes, Endpoint.Flow, ApplyAll, Completed;
      match step
      case Calls(reaction) => React(reaction);
      case Completion(index, failed, points) =>
        if index < |inflight| { OnSent(index, failed, points); }
      case CloseCallback =>
        if loop.table[handle] == Closing { OnClosed(); }
    }

    method RunSteps(steps: seq<Step>)
      requires Valid() && !settling && !detaching
      modifies this, loop
      ensures Valid() && Grew()
      ensures (forall i :: 0 <= i < |steps| ==> FlatStep(steps[i])) ==>
        Now() == SteppedAll(old(Now()), steps, loop.closed)
    {
      InTable();
      AloneItself(loop.table, handle);
      hide Endpoint.Valid, Endpoint.Now, Alone, FlatStep, Stepped;
      var i := 0;
      while i < |steps|
        invariant Valid() && Grew() && i <= |steps| && handle in loop.table
        invariant (forall k :: 0 <= k < |steps| ==> FlatStep(steps[k])) ==>
          Now() == SteppedAll(old(Now()), steps[..i], loop.closed)
      {
        ghost var table := loop.table;
        Take(steps[i]);
        AloneTwice(old(loop.table), table, loop.table, handle);
        assert steps[..i + 1][..i] == steps[..i];
        i := i + 1;
      }
      assert steps[..i] == steps;
    }

    /**
     Every run keeps the endpoint's invariants, and a quiet endpoint is neither stuck paused nor half closed. Unless
     it was forced, its handle left the open phase with nothing in flight, so no queued datagram was lost.
     */
    method Run(steps: seq<Step>)
      requires Valid() && !settling && !detaching
      modifies this, loop
      ensures Valid() && Grew()
      ensures inflight == [] ==> (paused ==> closing) && (closing ==> loop.table[handle] != Open)
      ensures loop.table[handle] != Open && !forced ==> Sum(inflight) == 0
      ensures (forall i :: 0 <= i < |steps| ==> FlatStep(steps[i])) ==>
        Now() == SteppedAll(old(Now()), steps, loop.closed)
    {
      RunSteps(steps);
      if inflight == [] {
        NothingOutstanding();
      }
    }
  }
}
