/** Converting a deadline to libuv's millisecond clock. Rounding of binary floats is not modelled. */
module TimerArming {

  const MAX_U64: int := 0xFFFF_FFFF_FFFF_FFFF

  function Ceil(x: real): (n: int)
    ensures n as real - 1.0 < x <= n as real
  {
    -((-x).Floor)
  }

  function TimerMilliseconds(seconds: real, guardMs: nat): (ms: nat) {
    if !(seconds > 0.0) then 0
    else
      var rounded := Ceil(seconds * 1000.0) + guardMs;
      if rounded >= MAX_U64 + 1 then MAX_U64 else rounded
  }

  /** When a timer armed at `now` for a deadline of `when` expires. */
  function Expiry(now: real, when: real): (t: real) {
    now + TimerMilliseconds(when - now, 1) as real / 1000.0
  }

  lemma Milliseconds(ms: int, x: real)
    ensures ms as real <= x * 1000.0 <==> ms as real / 1000.0 <= x
    ensures ms as real >= x * 1000.0 <==> ms as real / 1000.0 >= x
  {
  }

  /** The conversion fits the machine word: it saturates and never overflows. */
  lemma ConversionSaturates(seconds: real, guardMs: nat)
    ensures TimerMilliseconds(seconds, guardMs) <= 18446744073709551615
    ensures seconds > 0.0 && seconds * 1000.0 > 18446744073709551615.0 ==>
      TimerMilliseconds(seconds, guardMs) == 18446744073709551615
  {
  }

  /** The armed expiry is at most two milliseconds late, and early only when the conversion saturates. */
  lemma ExpiryBounds(now: real, when: real)
    ensures Expiry(now, when) <= if now <= when + 0.002 then when + 0.002 else now
    ensures Expiry(now, when) >= when <==> (when - now) * 1000.0 <= 18446744073709551615.0
    ensures Expiry(now, when) >= now
  {
    var delta := when - now;
    var ms := TimerMilliseconds(delta, 1);
    Milliseconds(ms, delta);
    Milliseconds(ms, delta + 0.002);
    if delta > 0.0 {
      var rounded := Ceil(delta * 1000.0) + 1;
      assert rounded as real < delta * 1000.0 + 2.0;
      assert ms as real <= rounded as real;
      assert (delta + 0.002) * 1000.0 == delta * 1000.0 + 2.0;
    }
  }

  /** A deadline some 585 million years away saturates and is armed too early. */
  lemma SaturatedExpiryIsEarly()
    ensures Expiry(0.0, 18446744073709552.0) < 18446744073709552.0
  {
    ExpiryBounds(0.0, 18446744073709552.0);
  }
}
