/** `sock_sendfile` and `sendfile`: the native path and the two chunked ones. */
module Sendfile {
  import opened Options

  newtype byte = x: int | 0 <= x < 256

  const SOCKET_CHUNK := 256 * 1024
  const TRANSPORT_CHUNK := 16 * 1024

  class File {
    const data: seq<byte>
    const seekable: bool
    var pos: nat
    constructor (data: seq<byte>, seekable: bool, pos: nat)
      ensures this.data == data && this.seekable == seekable && this.pos == pos
    {
      this.data, this.seekable, this.pos := data, seekable, pos;
    }
  }

  class Sink {
    var sent: seq<byte>
    /** How long each chunk was that a chunked copy passed on. */
    ghost var chunks: seq<nat>
    constructor ()
      ensures sent == [] && chunks == []
    {
      sent, chunks := [], [];
    }
  }

  /** How one system call goes: it fails, or moves some bytes, as far as there are any. */
  datatype Response = Fails | Moves(amount: nat)

  /** How one round of a chunked copy goes. */
  datatype Round = Round(read: Response, drains: bool, sends: seq<Response>)

  /** `Unavailable`: nothing was sent natively. `Unseekable`: the source has no `seek`. */
  datatype Result = Done(total: nat) | Failed(total: nat) | Unavailable | Unseekable

  function Min(a: int, b: int): int {
    if a < b then a else b
  }

  /** Between one byte and `limit`. */
  function Clamp(amount: nat, limit: nat): (r: nat)
    requires limit > 0
    ensures 1 <= r <= limit && (1 <= amount <= limit ==> r == amount)
  {
    if amount == 0 then 1 else Min(amount, limit)
  }

  function ResponseAt(script: seq<Response>, i: nat, limit: nat): Response {
    if i < |script| then script[i] else Moves(limit)
  }

  function RoundAt(script: seq<Round>, i: nat): Round {
    if i < |script| then script[i] else Round(Moves(SOCKET_CHUNK), true, [])
  }

  /** No call is answered with a failure. */
  ghost predicate NeverFails(script: seq<Response>) {
    forall i :: 0 <= i < |script| ==> script[i] != Fails
  }

  /** The first failure comes after at least one success, and no more than `total` of them. */
  ghost predicate FailsAfter(script: seq<Response>, total: nat) {
    exists k :: 0 < k < |script| && k <= total && script[k] == Fails && NeverFails(script[..k])
  }

  /** The round cannot be completed: the read fails, or passing the chunk on does. */
  ghost predicate RoundFails(round: Round, toTransport: bool) {
    round.read == Fails || if toTransport then !round.drains else !NeverFails(round.sends)
  }

  /** Nothing gets through in the round; there are bytes to read if `more`. */
  ghost predicate RoundFailsAtOnce(round: Round, more: bool, toTransport: bool) {
    || round.read == Fails
    || (more && if toTransport then !round.drains else round.sends != [] && round.sends[0] == Fails)
  }

  ghost predicate SomeRoundFails(script: seq<Round>, toTransport: bool) {
    exists i :: 0 <= i < |script| && RoundFails(script[i], toTransport)
  }

  lemma FailedRound(script: seq<Round>, i: nat, toTransport: bool)
    requires RoundFails(RoundAt(script, i), toTransport)
    ensures SomeRoundFails(script, toTransport)
  {
  }

  /** How much is asked of the first system call. */
  ghost function Asked(data: seq<byte>, count: Option<nat>): nat {
    if count.Some? then count.value else |data|
  }

  /** The first native transfer is made, and fails. */
  ghost predicate FailsAtOnce(data: seq<byte>, count: Option<nat>, script: seq<Response>) {
    Asked(data, count) > 0 && script != [] && script[0] == Fails
  }

  /** How many bytes got through, in how many calls, before one failed or everything was through. */
  datatype Progress = Progress(moved: nat, calls: nat)

  ghost function OneMore(moved: nat, rest: Progress): Progress {
    Progress(moved + rest.moved, 1 + rest.calls)
  }

  /** How far `size` bytes get in system calls that are answered from the i-th response on. */
  ghost function Sends(size: nat, script: seq<Response>, i: nat): (p: Progress)
    ensures p.moved <= size
    decreases size
  {
    if size == 0 || ResponseAt(script, i, size) == Fails then Progress(0, 0)
    else
      var n := Clamp(ResponseAt(script, i, size).amount, size);
      OneMore(n, Sends(size - n, script, i + 1))
  }

  type Chunk = n: nat | n > 0 witness 1

  /** A copy in chunks of the bytes from `start` on, in rounds that go as the script says. */
  datatype Copy = Copy(data: seq<byte>, start: nat, count: Option<nat>, chunk: Chunk, toTransport: bool,
                       script: seq<Round>)

  ghost function Target(c: Copy): seq<byte> {
    Window(c.data, c.start, c.count)
  }

  /** How many of `size` bytes a chunk holds. */
  ghost function ChunkOf(size: nat, round: Round, chunk: Chunk): (n: nat)
    ensures n <= size && n <= chunk && (size > 0 && round.read != Fails ==> n > 0)
  {
    if size == 0 || round.read == Fails then 0 else Clamp(round.read.amount, Min(chunk, size))
  }

  /** How many bytes of its chunk a round passes on. */
  ghost function PassedOn(size: nat, round: Round, chunk: Chunk, toTransport: bool): (n: nat)
    ensures n <= ChunkOf(size, round, chunk)
  {
    var n := ChunkOf(size, round, chunk);
    if !toTransport then Sends(n, round.sends, 0).moved else if round.drains then n else 0
  }

  /** The file is read, and the chunk, if there is one, passed on whole. */
  ghost predicate Completes(size: nat, round: Round, chunk: Chunk, toTransport: bool) {
    round.read != Fails && PassedOn(size, round, chunk, toTransport) == ChunkOf(size, round, chunk)
  }

  /** How far `size` bytes get in whole chunks, from the i-th round on. */
  ghost function Copies(size: nat, c: Copy, i: nat): (p: Progress)
    ensures p.moved <= size
    decreases size
  {
    var round := RoundAt(c.script, i);
    if size == 0 || !Completes(size, round, c.chunk, c.toTransport) then Progress(0, 0)
    else
      var n := ChunkOf(size, round, c.chunk);
      OneMore(n, Copies(size - n, c, i + 1))
  }

  lemma FitAlready(chunks: seq<nat>, chunk: nat)
    ensures ChunksFit(chunks, chunks, chunk)
  {
  }

  lemma StillFit(before: seq<nat>, middle: seq<nat>, after: seq<nat>, chunk: nat)
    requires ChunksFit(before, middle, chunk) && ChunksFit(middle, after, chunk)
    ensures ChunksFit(before, after, chunk)
  {
    assert forall k :: |before| <= k < |middle| ==> after[k] == middle[k];
  }

  /** A call is made even when the window is through, to find the end of the file. */
  ghost predicate AsksOn(data: seq<byte>, start: nat, count: Option<nat>, first: nat) {
    if count.Some? then count.value > |Window(data, start, count)| else first > 0
  }

  /** A native transfer meets a failure. */
  ghost predicate Breaks(data: seq<byte>, start: nat, count: Option<nat>, script: seq<Response>) {
    var p := Sends(|Window(data, start, count)|, script, 0);
    || p.moved < |Window(data, start, count)|
    || (AsksOn(data, start, count, |data|) && ResponseAt(script, p.calls, 1) == Fails)
  }

  /** A chunked copy meets a failure. */
  ghost predicate CopyBreaks(c: Copy) {
    var p := Copies(|Target(c)|, c, 0);
    || p.moved < |Target(c)|
    || (AsksOn(c.data, c.start, c.count, c.chunk) && RoundAt(c.script, p.calls).read == Fails)
  }

  /** The first `n` bytes of a window were sent. */
  ghost predicate Sent(before: seq<byte>, after: seq<byte>, window: seq<byte>, n: nat) {
    n <= |window| && after == before + window[..n]
  }

  lemma SentNothing(before: seq<byte>, window: seq<byte>)
    ensures Sent(before, before, window, 0)
  {
  }

  /** Chunks were passed on, none of them empty or longer than `chunk`. */
  ghost predicate ChunksFit(before: seq<nat>, after: seq<nat>, chunk: nat) {
    before <= after && forall k :: |before| <= k < |after| ==> 0 < after[k] <= chunk
  }

  /** After `rounds` rounds, `total` bytes of the window are through. */
  ghost predicate Reached(c: Copy, total: nat, rounds: nat) {
    && total <= |Target(c)|
    && var rest := Copies(|Target(c)| - total, c, rounds);
       Copies(|Target(c)|, c, 0) == Progress(total + rest.moved, rounds + rest.calls)
  }

  ghost predicate Sofar(c: Copy, before: seq<byte>, after: seq<byte>, total: nat, rounds: nat) {
    total <= |Target(c)| && Reached(c, total, rounds) && Sent(before, after, Target(c), total)
  }

  /** The copy has ended, with a failure after `part` of a chunk, or because nothing is left. */
  ghost predicate Stopped(c: Copy, before: seq<byte>, after: seq<byte>, total: nat, rounds: nat, part: nat,
                          failed: bool) {
    && Reached(c, total, rounds) && Sent(before, after, Target(c), total + part)
    && var size, round := |Target(c)| - total, RoundAt(c.script, rounds);
       var asksOn := AsksOn(c.data, c.start, c.count, c.chunk);
       if failed
       then
         && !Completes(size, round, c.chunk, c.toTransport) && (size > 0 || asksOn)
         && part == PassedOn(size, round, c.chunk, c.toTransport)
       else size == 0 && part == 0 && (asksOn ==> round.read != Fails)
  }

  /** What a copy in rounds leaves behind: whole chunks, and what got through of the one that failed. */
  ghost predicate Exactly(c: Copy, before: seq<byte>, after: seq<byte>, result: Result) {
    var p := Copies(|Target(c)|, c, 0);
    if CopyBreaks(c) then
      && result == Failed(p.moved)
      && var part := PassedOn(|Target(c)| - p.moved, RoundAt(c.script, p.calls), c.chunk, c.toTransport);
         after == before + Target(c)[..p.moved + part]
    else result == Done(|Target(c)|) && after == before + Target(c)
  }

  /** The first round of a copy is made, and gets nothing through. */
  ghost predicate FailsInFirst(c: Copy) {
    c.count != Some(0) && c.script != [] && RoundFailsAtOnce(c.script[0], c.start < |c.data|, c.toTransport)
  }

  lemma NoneYet(c: Copy, before: seq<byte>)
    ensures Sofar(c, before, before, 0, 0)
  {
  }

  lemma RoundCompleted(c: Copy, total: nat, rounds: nat)
    requires Reached(c, total, rounds)
    requires var size, round := |Target(c)| - total, RoundAt(c.script, rounds);
      Completes(size, round, c.chunk, c.toTransport) && ChunkOf(size, round, c.chunk) > 0
    ensures Reached(c, total + ChunkOf(|Target(c)| - total, RoundAt(c.script, rounds), c.chunk), rounds + 1)
  {
    hide ChunkOf, PassedOn, Completes, Target, RoundAt;
  }

  lemma StopsHere(c: Copy, before: seq<byte>, after: seq<byte>, total: nat, rounds: nat, part: nat, failed: bool)
    requires Reached(c, total, rounds) && Sent(before, after, Target(c), total + part)
    requires part == PassedOn(|Target(c)| - total, RoundAt(c.script, rounds), c.chunk, c.toTransport)
    requires c.count.Some? ==> total < c.count.value
    requires failed <==> !Completes(|Target(c)| - total, RoundAt(c.script, rounds), c.chunk, c.toTransport)
    requires !failed ==> total == |Target(c)|
    ensures Stopped(c, before, after, total, rounds, if failed then part else 0, failed)
  {
  }

  lemma UsedUp(c: Copy, before: seq<byte>, after: seq<byte>, total: nat, rounds: nat)
    requires Sofar(c, before, after, total, rounds) && c.count.Some? && c.count.value <= total
    ensures Stopped(c, before, after, total, rounds, 0, false)
  {
  }

  lemma NothingThrough(c: Copy)
    requires FailsInFirst(c)
    ensures Copies(|Target(c)|, c, 0) == Progress(0, 0) && CopyBreaks(c)
    ensures PassedOn(|Target(c)|, RoundAt(c.script, 0), c.chunk, c.toTransport) == 0
  {
  }

  lemma HowFarItGot(c: Copy, before: seq<byte>, after: seq<byte>, total: nat, rounds: nat, part: nat, failed: bool)
    requires Stopped(c, before, after, total, rounds, part, failed)
    ensures failed <==> CopyBreaks(c)
    ensures Copies(|Target(c)|, c, 0) == Progress(total, rounds)
    ensures failed ==> SomeRoundFails(c.script, c.toTransport)
    ensures FailsInFirst(c) ==> failed && total == 0 && part == 0
  {
    if FailsInFirst(c) { NothingThrough(c); }
    hide RoundFailsAtOnce, FailsInFirst, Window, Sent;
    if failed {
      Incomplete(|Target(c)| - total, RoundAt(c.script, rounds), c.chunk, c.toTransport);
      FailedRound(c.script, rounds, c.toTransport);
    }
  }

  lemma HowItStopped(c: Copy, before: seq<byte>, after: seq<byte>, total: nat, rounds: nat, part: nat, failed: bool)
    requires Stopped(c, before, after, total, rounds, part, failed)
    ensures Exactly(c, before, after, if failed then Failed(total) else Done(total))
    ensures Copied(c.data, c.start, c.count, before, after, if failed then Failed(total) else Done(total))
    ensures failed ==> SomeRoundFails(c.script, c.toTransport)
    ensures FailsInFirst(c) ==> failed && total == 0 && after == before
  {
    hide Sends, ChunkOf, AsksOn, Completes, Window, Copies, CopyBreaks, PassedOn, RoundAt, SomeRoundFails, FailsInFirst;
    hide Reached;
    HowFarItGot(c, before, after, total, rounds, part, failed);
    var w := Window(c.data, c.start, c.count);
    assert w[..|w|] == w;
  }

  lemma Incomplete(size: nat, round: Round, chunk: Chunk, toTransport: bool)
    requires !Completes(size, round, chunk, toTransport)
    ensures RoundFails(round, toTransport)
  {
    if !toTransport && round.read != Fails {
      UnsentFails(ChunkOf(size, round, chunk), round.sends, 0);
    }
  }

  lemma {:induction false} UnsentFails(size: nat, script: seq<Response>, i: nat)
    requires Sends(size, script, i).moved < size
    ensures !NeverFails(script)
    decreases size
  {
    if ResponseAt(script, i, size) != Fails {
      UnsentFails(size - Clamp(ResponseAt(script, i, size).amount, size), script, i + 1);
    }
  }

  /** After `calls` successful calls, `total` of `size` bytes are through. */
  ghost predicate Got(size: nat, script: seq<Response>, total: nat, calls: nat) {
    && total <= size && calls <= total && (calls == 0 <==> total == 0)
    && (forall k :: 0 <= k < calls && k < |script| ==> script[k] != Fails)
    && var rest := Sends(size - total, script, calls);
       Sends(size, script, 0) == Progress(total + rest.moved, calls + rest.calls)
  }

  lemma GotNothing(size: nat, script: seq<Response>)
    ensures Got(size, script, 0, 0)
  {
  }

  lemma GotMore(size: nat, script: seq<Response>, total: nat, calls: nat, asked: nat)
    requires Got(size, script, total, calls) && total < size <= total + asked
    requires ResponseAt(script, calls, asked) != Fails
    ensures Got(size, script, total + Clamp(ResponseAt(script, calls, asked).amount, size - total), calls + 1)
  {
  }

  /** The next call fails, when it is made for what is left or to find the end of the file. */
  lemma GotStuck(data: seq<byte>, start: nat, count: Option<nat>, script: seq<Response>, total: nat, calls: nat,
                 asked: nat)
    requires Got(|Window(data, start, count)|, script, total, calls) && ResponseAt(script, calls, asked) == Fails
    requires 0 < asked == if count.Some? then count.value - total else |data|
    ensures Breaks(data, start, count, script) && Sends(|Window(data, start, count)|, script, 0).moved == total
    ensures total > 0 ==> FailsAfter(script, total)
    ensures (total == 0 <==> FailsAtOnce(data, count, script)) && !NeverFails(script)
  {
    hide Window;
    assert calls > 0 ==> script[calls] == Fails && NeverFails(script[..calls]);
  }

  lemma GotThrough(data: seq<byte>, start: nat, count: Option<nat>, script: seq<Response>, total: nat, calls: nat,
                   asked: nat)
    requires Got(|Window(data, start, count)|, script, total, calls) && total == |Window(data, start, count)|
    requires asked == if count.Some? then count.value - total else |data|
    requires asked > 0 ==> ResponseAt(script, calls, asked) != Fails
    ensures !Breaks(data, start, count, script) && !FailsAtOnce(data, count, script)
    ensures Sends(|Window(data, start, count)|, script, 0).moved == total
  {
  }

  /** The bytes from `start` on, at most `count` of them. */
  function Window(data: seq<byte>, start: nat, count: Option<nat>): (w: seq<byte>)
    ensures |w| <= |data|
    ensures count.Some? ==> |w| <= count.value
  {
    var from := Min(start, |data|);
    data[from..if count.Some? then Min(from + count.value, |data|) else |data|]
  }

  lemma WindowSlice(data: seq<byte>, start: nat, count: Option<nat>, n: nat)
    requires start + n <= |data| && (count.Some? ==> n <= count.value)
    ensures n <= |Window(data, start, count)| && Window(data, start, count)[..n] == data[start..start + n]
  {
  }

  /** The next bytes of a window, once `total` of them are through. */
  lemma SentMore(data: seq<byte>, start: nat, count: Option<nat>, total: nat, n: nat,
                 before: seq<byte>, middle: seq<byte>, after: seq<byte>)
    requires Sent(before, middle, Window(data, start, count), total)
    requires n <= (if count.Some? then count.value - total else |data|)
    requires n > 0 ==> start + total + n <= |data|
    requires after == middle + if n > 0 then data[start + total..start + total + n] else []
    ensures Sent(before, after, Window(data, start, count), total + n)
  {
    if n > 0 {
      WindowSlice(data, start, count, total);
      WindowSlice(data, start, count, total + n);
      var w := Window(data, start, count);
      hide Window;
      assert data[start..start + total + n] == data[start..start + total] + data[start + total..start + total + n];
      assert w[..total + n] == w[..total] + data[start + total..start + total + n];
    }
  }

  /** A window is through when the count is used up or the data ends. */
  lemma WindowEnds(data: seq<byte>, start: nat, count: Option<nat>, total: nat)
    requires total <= |Window(data, start, count)|
    requires start + total >= |data| || (count.Some? && total >= count.value)
    ensures total == |Window(data, start, count)|
  {
  }

  // ----- native

  /** `os.sendfile`: moves nothing only at the end of the file. */
  method OsSendfile(file: File, sink: Sink, offset: nat, blocksize: nat, response: Response) returns (r: Option<nat>)
    requires blocksize > 0
    modifies sink
    ensures r == None <==> response == Fails
    ensures r == None ==> sink.sent == old(sink.sent)
    ensures r.Some? ==>
      r.value == if offset >= |file.data| then 0 else Clamp(response.amount, Min(blocksize, |file.data| - offset))
    ensures r.Some? ==>
      && r.value <= blocksize && (r.value == 0 <==> offset >= |file.data|)
      && (r.value > 0 ==>
            offset + r.value <= |file.data| && sink.sent == old(sink.sent) + file.data[offset..offset + r.value])
      && (r.value == 0 ==> sink.sent == old(sink.sent))
  {
    if response == Fails { return None; }
    if offset >= |file.data| { return Some(0); }
    var n := Clamp(response.amount, Min(blocksize, |file.data| - offset));
    sink.sent := sink.sent + file.data[offset..offset + n];
    return Some(n);
  }

  /** One transfer, when `total` bytes of the window are through; it moves nothing only once all of them are. */
  method SendNext(file: File, sink: Sink, at: nat, blocksize: nat, response: Response,
                  ghost offset: nat, ghost count: Option<nat>, ghost total: nat, ghost before: seq<byte>)
    returns (sent: Option<nat>)
    requires 0 < blocksize && at == offset + total && Sent(before, sink.sent, Window(file.data, offset, count), total)
    requires blocksize == if count.Some? then count.value - total else |file.data|
    modifies sink
    ensures sent == None <==> response == Fails
    ensures sent == None ==> sink.sent == old(sink.sent)
    ensures sent.Some? ==>
      sent.value == if at >= |file.data| then 0
                    else Clamp(response.amount, |Window(file.data, offset, count)| - total)
    ensures sent.Some? ==>
      && Sent(before, sink.sent, Window(file.data, offset, count), total + sent.value)
      && (sent.value == 0 ==> offset + total >= |file.data|)
  {
    ghost var middle := sink.sent;
    sent := OsSendfile(file, sink, at, blocksize, response);
    if sent.Some? {
      SentMore(file.data, offset, count, total, sent.value, before, middle, sink.sent);
    }
  }

  method SendfileToFd(file: File, sink: Sink, offset: nat, count: Option<nat>, regular: bool, script: seq<Response>)
    returns (result: Result)
    modifies file`pos, sink
    ensures result.Done? || result.Failed? || result == Unavailable
    ensures result == Unavailable <==> !regular || FailsAtOnce(file.data, count, script)
    ensures regular && NeverFails(script) ==> result.Done?
    ensures result.Failed? ==> FailsAfter(script, result.total)
    ensures regular ==> (result.Done? <==> !Breaks(file.data, offset, count, script))
    ensures result.Failed? ==> result.total == Sends(|Window(file.data, offset, count)|, script, 0).moved
    ensures result == Unavailable ==> sink.sent == old(sink.sent) && file.pos == old(file.pos)
    ensures result.Done? ==>
      && sink.sent == old(sink.sent) + Window(file.data, offset, count)
      && result.total == |Window(file.data, offset, count)|
    ensures result.Failed? ==>
      && 0 < result.total <= |Window(file.data, offset, count)|
      && sink.sent == old(sink.sent) + Window(file.data, offset, count)[..result.total]
    ensures result.Done? || result.Failed? ==>
      file.pos == if result.total > 0 then offset + result.total else old(file.pos)
  {
    if !regular { return Unavailable; }
    var failed, total := Transfer(file, sink, offset, count, script);
    if failed && total == 0 { return Unavailable; }
    if total > 0 {
      file.pos := offset + total;
    }
    return if failed then Failed(total) else Done(total);
  }

  /** The loop of the native path. */
  method Transfer(file: File, sink: Sink, offset: nat, count: Option<nat>, script: seq<Response>)
    returns (failed: bool, total: nat)
    modifies sink
    ensures Sent(old(sink.sent), sink.sent, Window(file.data, offset, count), total)
    ensures failed <==> Breaks(file.data, offset, count, script)
    ensures total == Sends(|Window(file.data, offset, count)|, script, 0).moved
    ensures failed ==> !NeverFails(script) && (total > 0 ==> FailsAfter(script, total))
    ensures failed && total == 0 <==> FailsAtOnce(file.data, count, script)
    ensures !failed ==> total == |Window(file.data, offset, count)|
  {
    hide Window, Sent, Got, Sends, Breaks, FailsAtOnce, FailsAfter, NeverFails, Clamp, ResponseAt, AsksOn;
    var blocksize: int := if count.Some? then count.value else |file.data|;
    var at: nat, i := offset, 0;
    total := 0;
    ghost var window := Window(file.data, offset, count);
    GotNothing(|window|, script);
    SentNothing(sink.sent, window);
    while blocksize > 0
      invariant total <= |window| && at == offset + total && Got(|window|, script, total, i)
      invariant Sent(old(sink.sent), sink.sent, window, total)
      invariant blocksize == (if count.Some? then count.value - total else |file.data|)
      decreases |window| - total
    {
      var sent := SendNext(file, sink, at, blocksize, ResponseAt(script, i, blocksize), offset, count, total,
                           old(sink.sent));
      if sent == None {
        GotStuck(file.data, offset, count, script, total, i, blocksize);
        return true, total;
      }
      if sent.value == 0 { break; }
      GotMore(|window|, script, total, i, blocksize);
      i := i + 1;
      at, total := at + sent.value, total + sent.value;
      if count.Some? {
        blocksize := count.value - total;
      }
    }
    WindowEnds(file.data, offset, count, total);
    GotThrough(file.data, offset, count, script, total, i, blocksize);
    return false, total;
  }

  // ----- chunked

  method Read(file: File, size: nat, response: Response) returns (data: Option<seq<byte>>)
    requires size > 0
    modifies file`pos
    ensures data == None <==> response == Fails
    ensures data == None ==> file.pos == old(file.pos)
    ensures data.Some? ==>
      |data.value| == if old(file.pos) >= |file.data| then 0
                      else Clamp(response.amount, Min(size, |file.data| - old(file.pos)))
    ensures data.Some? ==>
      && |data.value| <= size && (data.value == [] <==> old(file.pos) >= |file.data|)
      && file.pos == old(file.pos) + |data.value|
      && (data.value != [] ==> file.pos <= |file.data| && data.value == file.data[old(file.pos)..file.pos])
  {
    if response == Fails { return None; }
    if file.pos >= |file.data| { return Some([]); }
    var n := Clamp(response.amount, Min(size, |file.data| - file.pos));
    var start := file.pos;
    file.pos := file.pos + n;
    return Some(file.data[start..start + n]);
  }

  /** `sock_sendall`: partial sends until everything is through, or one of them fails. */
  method SockSendall(sink: Sink, data: seq<byte>, script: seq<Response>) returns (ok: bool, sent: nat)
    modifies sink
    ensures sent <= |data| && sink.sent == old(sink.sent) + data[..sent]
    ensures ok ==> sent == |data|
    ensures !ok ==> sent < |data| && !NeverFails(script)
    ensures data != [] && script != [] && script[0] == Fails ==> !ok && sent == 0
    ensures sink.chunks == old(sink.chunks)
    ensures sent == Sends(|data|, script, 0).moved
  {
    sent := 0;
    var i := 0;
    while sent < |data|
      invariant sent <= |data| && sink.sent == old(sink.sent) + data[..sent] && sink.chunks == old(sink.chunks)
      invariant (i == 0 <==> sent == 0) && (i > 0 && script != [] ==> script[0] != Fails)
      invariant sent + Sends(|data| - sent, script, i).moved == Sends(|data|, script, 0).moved
      decreases |data| - sent
    {
      var response := ResponseAt(script, i, |data|);
      i := i + 1;
      if response == Fails { return false, sent; }
      var n := Clamp(response.amount, |data| - sent);
      assert data[..sent + n] == data[..sent] + data[sent..sent + n];
      sink.sent := sink.sent + data[sent..sent + n];
      sent := sent + n;
    }
    return true, sent;
  }

  /** Where a chunked copy starts reading: it seeks only to a non-zero offset. */
  function StartOf(offset: nat, pos: nat): nat {
    if offset != 0 then offset else pos
  }

  /** What a chunked copy achieves, given where the file was. */
  ghost predicate Copied(data: seq<byte>, start: nat, count: Option<nat>, before: seq<byte>, after: seq<byte>,
                         result: Result) {
    var window := Window(data, start, count);
    match result
    case Done(total) => total == |window| && after == before + window
    case Failed(total) => total <= |window| && exists m :: total <= m <= |window| && after == before + window[..m]
    case Unavailable => false
    case Unseekable => after == before
  }

  /** Passes one chunk on: in partial sends to a socket, or whole to a transport that has drained. */
  method Forward(sink: Sink, data: seq<byte>, round: Round, toTransport: bool) returns (ok: bool, ghost sent: nat)
    modifies sink
    ensures sent <= |data| && sink.sent == old(sink.sent) + data[..sent]
    ensures data != [] ==> (ok <==> sent == |data|)
    ensures sent == if !toTransport then Sends(|data|, round.sends, 0).moved else if round.drains then |data| else 0
    ensures !ok ==> if toTransport then !round.drains && sent == 0 else !NeverFails(round.sends)
    ensures data != [] && (if toTransport then !round.drains else round.sends != [] && round.sends[0] == Fails) ==>
      !ok && sent == 0
    ensures sink.chunks == old(sink.chunks) + if ok then [|data|] else []
  {
    if !toTransport {
      ok, sent := SockSendall(sink, data, round.sends);
      if ok { sink.chunks := sink.chunks + [|data|]; }
      return;
    }
    if !round.drains { return false, 0; }
    sink.sent := sink.sent + data;
    sink.chunks := sink.chunks + [|data|];
    assert data[..|data|] == data;
    return true, |data|;
  }

  /** Reads and forwards one chunk; an empty chunk is the end of the file. */
  method CopyChunk(file: File, sink: Sink, blocksize: Chunk, round: Round, toTransport: bool)
    returns (ok: bool, length: nat, ghost sent: nat)
    modifies file`pos, sink
    ensures sent <= blocksize && (sent > 0 ==> old(file.pos) + sent <= |file.data|)
    ensures sink.sent == old(sink.sent) + if sent > 0 then file.data[old(file.pos)..old(file.pos) + sent] else []
    ensures ok ==>
      sent == length && file.pos == old(file.pos) + length && (length == 0 <==> old(file.pos) >= |file.data|)
    ensures ok <==> Completes(LeftOf(file.data, old(file.pos)), round, blocksize, toTransport)
    ensures sent == PassedOn(LeftOf(file.data, old(file.pos)), round, blocksize, toTransport)
    ensures ok ==> length == ChunkOf(LeftOf(file.data, old(file.pos)), round, blocksize) && round.read != Fails
    ensures sink.chunks == old(sink.chunks) + (if ok && length > 0 then [length] else []) && length <= blocksize
  {
    var data := Read(file, blocksize, round.read);
    if data == None { return false, 0, 0; }
    if data.value == [] { return true, 0, 0; }
    ok, sent := Forward(sink, data.value, round, toTransport);
    return ok, |data.value|, sent;
  }

  ghost function LeftOf(data: seq<byte>, pos: nat): nat {
    if pos < |data| then |data| - pos else 0
  }

  /** The next chunk is bounded by what is left of the window, or of the file. */
  lemma SameChunk(c: Copy, total: nat, blocksize: Chunk, round: Round)
    requires total <= |Target(c)|
    requires blocksize == if c.count.Some? then Min(c.count.value - total, c.chunk) else c.chunk
    ensures var left, size := LeftOf(c.data, c.start + total), |Target(c)| - total;
      && ChunkOf(left, round, blocksize) == ChunkOf(size, round, c.chunk)
      && PassedOn(left, round, blocksize, c.toTransport) == PassedOn(size, round, c.chunk, c.toTransport)
      && (Completes(left, round, blocksize, c.toTransport) <==> Completes(size, round, c.chunk, c.toTransport))
  {
  }

  /** One round of a copy that has got `total` bytes of its window through. */
  method CopyNext(file: File, sink: Sink, blocksize: Chunk, round: Round, toTransport: bool,
                  ghost c: Copy, ghost total: nat, ghost before: seq<byte>)
    returns (ok: bool, length: nat, ghost sent: nat)
    requires file.data == c.data && file.pos == c.start + total && toTransport == c.toTransport
    requires blocksize == (if c.count.Some? then Min(c.count.value - total, c.chunk) else c.chunk)
    requires total <= |Target(c)| && Sent(before, sink.sent, Target(c), total)
    modifies file`pos, sink
    ensures Sent(before, sink.sent, Target(c), total + sent)
    ensures ok <==> Completes(|Target(c)| - total, round, c.chunk, c.toTransport)
    ensures sent == PassedOn(|Target(c)| - total, round, c.chunk, c.toTransport)
    ensures ok ==> sent == length == ChunkOf(|Target(c)| - total, round, c.chunk) && round.read != Fails
    ensures ok ==> file.pos == old(file.pos) + length && (length == 0 <==> old(file.pos) >= |file.data|)
    ensures sink.chunks == old(sink.chunks) + (if ok && length > 0 then [length] else []) && length <= blocksize
  {
    SameChunk(c, total, blocksize, round);
    assert blocksize <= if c.count.Some? then c.count.value - total else c.chunk;
    hide ChunkOf, PassedOn, Completes, LeftOf, Window, Min, Sent;
    ghost var middle := sink.sent;
    ok, length, sent := CopyChunk(file, sink, blocksize, round, toTransport);
    SentMore(c.data, c.start, c.count, total, sent, before, middle, sink.sent);
  }

  /** The same, and what it means for the copy. */
  method CopyRound(file: File, sink: Sink, blocksize: Chunk, round: Round, toTransport: bool,
                   ghost c: Copy, ghost total: nat, ghost i: nat, ghost before: seq<byte>)
    returns (ok: bool, length: nat, ghost part: nat)
    requires file.data == c.data && file.pos == c.start + total && toTransport == c.toTransport
    requires blocksize == (if c.count.Some? then Min(c.count.value - total, c.chunk) else c.chunk)
    requires round == RoundAt(c.script, i) && Sofar(c, before, sink.sent, total, i)
    modifies file`pos, sink
    ensures ok ==> file.pos == old(file.pos) + length
    ensures ok && length > 0 ==>
      Sofar(c, before, sink.sent, total + length, i + 1) && total + length <= |Target(c)|
    ensures !ok || length == 0 ==> Stopped(c, before, sink.sent, total, i, if ok then 0 else part, !ok)
    ensures ChunksFit(old(sink.chunks), sink.chunks, c.chunk)
  {
    hide ChunkOf, PassedOn, Completes, Window, RoundAt, Copies, Sent, Reached, Stopped, Sends, Clamp;
    assert blocksize <= c.chunk;
    ok, length, part := CopyNext(file, sink, blocksize, round, toTransport, c, total, before);
    if ok && length > 0 {
      RoundCompleted(c, total, i);
    } else {
      if ok { WindowEnds(c.data, c.start, c.count, total); }
      StopsHere(c, before, sink.sent, total, i, part, !ok);
    }
  }

  /** The loop of both fallbacks: copies from the file's position on, until the count, the end, or a failure. */
  method CopyChunks(file: File, sink: Sink, count: Option<nat>, chunk: Chunk, toTransport: bool, script: seq<Round>)
    returns (failed: bool, total: nat)
    modifies file`pos, sink
    ensures Copied(file.data, old(file.pos), count, old(sink.sent), sink.sent,
                   if failed then Failed(total) else Done(total))
    ensures Exactly(Copy(file.data, old(file.pos), count, chunk, toTransport, script), old(sink.sent), sink.sent,
                    if failed then Failed(total) else Done(total))
    ensures !failed ==> file.pos == old(file.pos) + total
    ensures failed ==> SomeRoundFails(script, toTransport)
    ensures FailsInFirst(Copy(file.data, old(file.pos), count, chunk, toTransport, script)) ==>
      failed && total == 0 && sink.sent == old(sink.sent)
    ensures ChunksFit(old(sink.chunks), sink.chunks, chunk)
  {
    hide Copied, Exactly, FailsInFirst, SomeRoundFails, Stopped;
    ghost var c, before := Copy(file.data, file.pos, count, chunk, toTransport, script), sink.sent;
    ghost var rounds, part;
    failed, total, rounds, part := CopyRounds(file, sink, count, chunk, toTransport, script);
    HowItStopped(c, before, sink.sent, total, rounds, part, failed);
  }

  /** Copies in `rounds` whole chunks, and passes on `part` of the one that fails. */
  method CopyRounds(file: File, sink: Sink, count: Option<nat>, chunk: Chunk, toTransport: bool, script: seq<Round>)
    returns (failed: bool, total: nat, ghost rounds: nat, ghost part: nat)
    modifies file`pos, sink
    ensures Stopped(Copy(file.data, old(file.pos), count, chunk, toTransport, script), old(sink.sent), sink.sent,
                    total, rounds, part, failed)
    ensures !failed ==> file.pos == old(file.pos) + total
    ensures ChunksFit(old(sink.chunks), sink.chunks, chunk)
  {
    hide Sofar, Stopped, Target, RoundAt, ChunksFit, Window, Sends, Copies;
    ghost var c := Copy(file.data, file.pos, count, chunk, toTransport, script);
    NoneYet(c, sink.sent);
    FitAlready(sink.chunks, chunk);
    var blocksize: int := if count.Some? then Min(count.value, chunk) else chunk;
    total := 0;
    var i := 0;
    while blocksize > 0
      invariant Sofar(c, old(sink.sent), sink.sent, total, i) && file.pos == c.start + total
      invariant blocksize == if count.Some? then Min(count.value - total, chunk) else chunk
      invariant ChunksFit(old(sink.chunks), sink.chunks, chunk)
      decreases |Target(c)| - total
    {
      ghost var chunks := sink.chunks;
      var ok, length;
      ok, length, part :=
        CopyRound(file, sink, blocksize, RoundAt(script, i), toTransport, c, total, i, old(sink.sent));
      StillFit(old(sink.chunks), chunks, sink.chunks, chunk);
      if !ok { return true, total, i, part; }
      if length == 0 { return false, total, i, 0; }
      i := i + 1;
      total := total + length;
      if count.Some? {
        blocksize := Min(count.value - total, chunk);
      }
    }
    UsedUp(c, old(sink.sent), sink.sent, total, i);
    return false, total, i, 0;
  }

  /** What either fallback is to copy. */
  ghost function Chunked(data: seq<byte>, offset: nat, pos: nat, count: Option<nat>, toTransport: bool,
                         script: seq<Round>): Copy {
    Copy(data, StartOf(offset, pos), count, if toTransport then 16384 else 262144, toTransport, script)
  }

  /** `_sock_sendfile_fallback`, or `_sendfile_fallback` when the target is a transport. */
  method Fallback(file: File, sink: Sink, offset: nat, count: Option<nat>, toTransport: bool, script: seq<Round>)
    returns (result: Result)
    modifies file`pos, sink
    ensures result == Unseekable <==> offset != 0 && !file.seekable
    ensures result.Failed? ==> SomeRoundFails(script, toTransport)
    ensures Copied(file.data, StartOf(offset, old(file.pos)), count, old(sink.sent), sink.sent, result)
    ensures result != Unseekable ==>
      Exactly(Chunked(file.data, offset, old(file.pos), count, toTransport, script), old(sink.sent), sink.sent, result)
    ensures ChunksFit(old(sink.chunks), sink.chunks, if toTransport then 16384 else 262144)
    ensures (result.Done? || result.Failed?) && result.total > 0 && file.seekable ==> file.pos == offset + result.total
    ensures result.Done? && (result.total == 0 || !file.seekable) ==>
      file.pos == StartOf(offset, old(file.pos)) + result.total
  {
    hide Exactly, SomeRoundFails, FailsInFirst, Window;
    if offset != 0 {
      if !file.seekable { return Unseekable; }
      file.pos := offset;
    }
    var chunk := if toTransport then TRANSPORT_CHUNK else SOCKET_CHUNK;
    var failed, total := CopyChunks(file, sink, count, chunk, toTransport, script);
    if total > 0 && file.seekable {
      file.pos := offset + total;
    }
    return if failed then Failed(total) else Done(total);
  }

  // ----- dispatch

  /** `sock_sendfile`, or `sendfile` to a native transport: the fallback begins only if nothing was sent natively. */
  method SendFile(file: File, sink: Sink, offset: nat, count: Option<nat>, regular: bool, fallback: bool,
                  toTransport: bool,
                  native: seq<Response>, script: seq<Round>) returns (result: Result, fellBack: bool)
    modifies file`pos, sink
    ensures fellBack <==> fallback && (!regular || FailsAtOnce(file.data, count, native))
    ensures result == Unavailable <==> !fallback && (!regular || FailsAtOnce(file.data, count, native))
    ensures !fellBack && result.Failed? ==> FailsAfter(native, result.total)
    ensures fellBack && result.Failed? ==> SomeRoundFails(script, toTransport)
    ensures NeverFails(native) && !SomeRoundFails(script, toTransport) ==>
      result.Done? || (!regular && (!fallback || (offset != 0 && !file.seekable)))
    ensures result == Unavailable ==> sink.sent == old(sink.sent) && file.pos == old(file.pos)
    ensures !fellBack && result.Done? ==>
      && result.total == |Window(file.data, offset, count)|
      && sink.sent == old(sink.sent) + Window(file.data, offset, count)
    ensures !fellBack && result.Failed? ==>
      && 0 < result.total <= |Window(file.data, offset, count)|
      && sink.sent == old(sink.sent) + Window(file.data, offset, count)[..result.total]
    ensures fellBack ==>
      && Copied(file.data, StartOf(offset, old(file.pos)), count, old(sink.sent), sink.sent, result)
      && (result == Unseekable <==> offset != 0 && !file.seekable)
    ensures result == Unseekable ==> fellBack && sink.sent == old(sink.sent)
    ensures !fellBack && regular ==> (result.Done? <==> !Breaks(file.data, offset, count, native))
    ensures !fellBack && result.Failed? ==> result.total == Sends(|Window(file.data, offset, count)|, native, 0).moved
    ensures fellBack && result != Unseekable ==>
      Exactly(Chunked(file.data, offset, old(file.pos), count, toTransport, script), old(sink.sent), sink.sent, result)
    ensures old(sink.sent) <= sink.sent
    ensures (result.Done? || result.Failed?) && result.total > 0 && file.seekable ==> file.pos == offset + result.total
  {
    result := SendfileToFd(file, sink, offset, count, regular, native);
    if result != Unavailable || !fallback { return result, false; }
    result := Fallback(file, sink, offset, count, toTransport, script);
    return result, true;
  }

  // ----- when the paths agree

  /** A fallback to a file whose position is not its beginning sends other bytes than asked for. */
  lemma FallbackIgnoresZeroOffset()
    ensures Window([1, 2], StartOf(0, 1), None) == [2] && Window([1, 2], 0, None) == [1, 2]
  {
  }

  /** The chunked paths send the same bytes as the native one, whatever the file holds, exactly on this condition. */
  lemma PathsAgree(size: nat, offset: nat, pos: nat, count: Option<nat>)
    requires count.Some? ==> count.value > 0
    ensures
      (forall data: seq<byte> :: |data| == size ==>
         Window(data, StartOf(offset, pos), count) == Window(data, offset, count))
      <==> offset != 0 || pos == 0 || size == 0
  {
    hide Window;
    if offset == 0 && pos > 0 && size > 0 {
      var data: seq<byte> := Marked(size);
      WindowsDiffer(data, pos, count);
      assert |data| == size && Window(data, StartOf(offset, pos), count) != Window(data, offset, count);
    } else if size == 0 {
      forall data: seq<byte> | |data| == size
        ensures Window(data, StartOf(offset, pos), count) == Window(data, offset, count)
      {
        WindowOfNothing(data, StartOf(offset, pos), count);
        WindowOfNothing(data, offset, count);
      }
    }
  }

  /** A file that can be told apart from every proper suffix of itself. */
  function Marked(size: nat): (data: seq<byte>)
    ensures |data| == size && forall i :: 0 <= i < size ==> data[i] == if i == 0 then 1 else 0
  {
    seq(size, i => if i == 0 then 1 else 0)
  }

  lemma WindowsDiffer(data: seq<byte>, pos: nat, count: Option<nat>)
    requires count.Some? ==> count.value > 0
    requires pos > 0 && |data| > 0 && data[0] == 1 && (pos < |data| ==> data[pos] == 0)
    ensures Window(data, pos, count) != Window(data, 0, count)
  {
    assert Window(data, 0, count)[0] == 1;
    if pos < |data| {
      assert Window(data, pos, count)[0] == 0;
    }
  }

  lemma WindowOfNothing(data: seq<byte>, start: nat, count: Option<nat>)
    requires data == []
    ensures Window(data, start, count) == []
  {
  }
}
