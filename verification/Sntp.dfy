/** Timestamps of the simple network time protocol, and the clock offset computed from a
    transaction (RFC 4330, sections 3 and 5). Times are counted in whole milliseconds where the
    program holds milliseconds, and in nanoseconds where it holds nanoseconds. */
module Sntp {
  import E = Endian

  const WRAP := 0x1_0000_0000
  const MAX := WRAP - 1
  const OFFSET_1900_TO_1970 := (365 * 70 + 17) * 24 * 60 * 60

  /** Division of the source's integers: the fraction is dropped. */
  function Truncated(a: int, b: int): (q: int)
    requires b > 0
    ensures a >= 0 ==> b * q <= a < b * q + b
    ensures a <= 0 ==> b * q - b < a <= b * q
  {
    if a >= 0 then a / b else -(-a / b)
  }

  // ----- The two fields of a timestamp -----

  datatype Stamp = Stamp(seconds: int, fraction: int) {
    predicate Valid() {
      0 <= seconds < WRAP && 0 <= fraction < WRAP
    }
  }

  /** Milliseconds since 1970 as a stamp. The fraction is the 32-bit product of the
      milliseconds with the largest fraction. */
  function FromMilliseconds(ts: int): (s: Stamp)
    ensures s.Valid()
  {
    var secs := Truncated(ts, 1000);
    var msecs := ts - 1000 * secs;
    Stamp((secs + OFFSET_1900_TO_1970) % WRAP, (msecs * MAX + 1 / 1000) % WRAP)
  }

  /** The product with 1000 is taken in 32 bits. */
  function ToMilliseconds(s: Stamp): int
    requires s.Valid()
  {
    1000 * (s.seconds - OFFSET_1900_TO_1970) + s.fraction * 1000 % WRAP / MAX
  }

  /** No fraction reaches a millisecond: the wrapped product is even, its divisor is not, so
      they are never equal. */
  lemma DecodesToWholeSeconds(s: Stamp)
    requires s.Valid()
    ensures ToMilliseconds(s) == 1000 * (s.seconds - OFFSET_1900_TO_1970)
    ensures ToMilliseconds(s) % 1000 == 0
  {
    ProductIsEven(s.fraction);
  }

  lemma ProductIsEven(fraction: int)
    ensures fraction * 1000 % WRAP != MAX
  {
    var q := fraction * 1000 / WRAP;
    assert fraction * 1000 % WRAP == 2 * (500 * fraction - WRAP / 2 * q);
  }

  /** Seconds since 1970 that 32 bits can count from 1900. */
  predicate InEra(secs: int) {
    -OFFSET_1900_TO_1970 <= secs < WRAP - OFFSET_1900_TO_1970
  }

  /** For every time: the way through a stamp drops the milliseconds, and shifts the seconds
      into the era that began in 1900. */
  lemma EncodedThenDecoded(ts: int)
    ensures var secs := Truncated(ts, 1000);
            var back := ToMilliseconds(FromMilliseconds(ts));
            back % 1000 == 0 && InEra(back / 1000)
            && (back / 1000 - secs) % WRAP == 0
            && (InEra(secs) <==> back == 1000 * secs)
  {
    var secs := Truncated(ts, 1000);
    var s := FromMilliseconds(ts);
    DecodesToWholeSeconds(s);
    SecondsInEra(secs);
    var wrapped := (secs + OFFSET_1900_TO_1970) % WRAP - OFFSET_1900_TO_1970;
    assert ToMilliseconds(s) == 1000 * wrapped;
  }

  lemma SecondsInEra(secs: int)
    ensures var wrapped := (secs + OFFSET_1900_TO_1970) % WRAP - OFFSET_1900_TO_1970;
      InEra(wrapped) && (wrapped - secs) % WRAP == 0 && (InEra(secs) <==> wrapped == secs)
  {
    var n := secs + OFFSET_1900_TO_1970;
    assert n % WRAP - n == -(n / WRAP) * WRAP;
  }

  /** What is sent for a time: the seconds since 1900, and for the fraction the milliseconds
      counted down from the top of the range. */
  lemma SentForATime(ts: int)
    ensures var s := FromMilliseconds(ts);
      && 0 <= ts < 1000 * (0x1_0000_0000 - 2_208_988_800) ==>
           && s.seconds == ts / 1000 + 2_208_988_800
           && s.fraction == if ts % 1000 == 0 then 0 else 0x1_0000_0000 - ts % 1000
  {
    if 0 <= ts {
      var m := ts % 1000;
      assert ts - 1000 * Truncated(ts, 1000) == m;
      assert m * MAX == (m - 1) * WRAP + (WRAP - m);
    }
  }

  /** Section 3 of RFC 4330 asks for the fraction of a second in units of 2 to the power of -32.
      What is sent is that only for whole seconds. */
  lemma FractionIsRightIffWholeSecond(ts: int)
    requires 0 <= ts < 1000 * (0x1_0000_0000 - 2_208_988_800)
    ensures FromMilliseconds(ts).fraction == ts % 1000 * 0x1_0000_0000 / 1000 <==> ts % 1000 == 0
  {
    SentForATime(ts);
    var m := ts % 1000;
    if m != 0 {
      assert m * 0x1_0000_0000 <= 999 * 0x1_0000_0000;
    }
  }

  /** From 1970 up to the limit in 2036 a time comes back rounded down to its second. */
  lemma ErrorOfTheRoundTrip(ts: int)
    requires 0 <= ts < 1000 * (WRAP - OFFSET_1900_TO_1970)
    ensures 0 <= ts - ToMilliseconds(FromMilliseconds(ts)) < 1000
  {
    EncodedThenDecoded(ts);
  }

  /** A time survives exactly when it is a whole second of the era. */
  lemma SurvivesIffWholeSecond(ts: int)
    ensures ToMilliseconds(FromMilliseconds(ts)) == ts
      <==> ts % 1000 == 0 && InEra(ts / 1000)
  {
    EncodedThenDecoded(ts);
    if ts % 1000 == 0 {
      assert Truncated(ts, 1000) == ts / 1000;
    }
  }

  /** The stamp of a packet, in the two big-endian buffers that are sent. */
  class Timestamp {
    const seconds: E.BigBuffer
    const fraction: E.BigBuffer

    ghost predicate Valid() {
      seconds.bytes != fraction.bytes
      && seconds.bytes.Length == 4 && fraction.bytes.Length == 4
      && !seconds.signed && !fraction.signed
    }

    constructor ()
      ensures Valid() && fresh(seconds.bytes) && fresh(fraction.bytes)
    {
      seconds := new E.BigBuffer(4, false);
      fraction := new E.BigBuffer(4, false);
    }

    function Value(): (s: Stamp)
      requires Valid()
      reads seconds.bytes, fraction.bytes
    {
      Stamp(seconds.Value(), fraction.Value())
    }

    /** Each field keeps the low bytes of what it is given. */
    method FromMillisecondsSinceEpoch(ts: int)
      requires Valid()
      modifies seconds.bytes, fraction.bytes
      ensures Value() == FromMilliseconds(ts)
      ensures seconds.bytes[..] == E.StoreBig(FromMilliseconds(ts).seconds, 4)
      ensures fraction.bytes[..] == E.StoreBig(FromMilliseconds(ts).fraction, 4)
    {
      var secs := Truncated(ts, 1000);
      var msecs := ts - 1000 * secs;
      AssignWord(seconds, secs + OFFSET_1900_TO_1970);
      AssignWord(fraction, msecs * MAX + 1 / 1000);
    }

    method ToMillisecondsSinceEpoch() returns (ts: int)
      requires Valid()
      ensures Value().Valid() && ts == ToMilliseconds(Value())
      ensures ts % 1000 == 0
    {
      E.LoadFits(seconds.bytes[..], false);
      E.LoadFits(fraction.bytes[..], false);
      assert E.Pow256(4) == WRAP;
      DecodesToWholeSeconds(Value());
      ts := 1000 * (seconds.Value() - OFFSET_1900_TO_1970) + fraction.Value() * 1000 % WRAP / MAX;
    }
  }

  /** A 32-bit buffer keeps what it is given up to wrap-around. */
  method AssignWord(b: E.BigBuffer, value: int)
    requires b.bytes.Length == 4 && !b.signed
    modifies b.bytes
    ensures b.Value() == value % WRAP
    ensures b.bytes[..] == E.StoreBig(value % WRAP, 4)
  {
    b.Assign(value);
    FourBytes(value);
  }

  lemma FourBytes(value: int)
    ensures E.Low(value, 4, false) == value % WRAP
    ensures E.StoreBig(value, 4) == E.StoreBig(value % WRAP, 4)
  {
    assert E.Pow256(4) == WRAP;
    E.LoadAfterStore(value, 4, false);
    E.StoreAfterLoad(E.StoreBig(value, 4), false);
  }

  // ----- A transaction -----

  const MILLI := 1_000_000
  const HALF := 500_000

  /** What the client reads from its clocks before and after: the wall clock, cut to the
      millisecond, and the ticks since boot, both in nanoseconds. */
  datatype Now = Now(time: int, ticks: int)

  datatype Response = Response(ntpTime: int, reference: int, roundTrip: int)

  /** The decoded stamps are in milliseconds, the answer too. */
  function Answer(before: Now, after: Now, originate: int, receive: int, transmit: int): Response {
    var rtt := after.ticks - before.ticks - MILLI * (transmit - receive);
    var offset := Truncated(MILLI * (receive - originate) + (MILLI * transmit - after.time), 2);
    Response(Truncated(after.time + offset, MILLI), Truncated(after.ticks, MILLI), Truncated(rtt, MILLI))
  }

  /** What happened in a transaction, in nanoseconds. All but the server's stamps is told by the
      client's clock, which the server's is ahead of by `ahead`. */
  datatype Transaction = Transaction(sent: int, outward: nat, held: nat, inward: nat, ahead: int) {
    function Arrived(): int { sent + outward + held + inward }
    function ServerReceived(): int { sent + outward + ahead }
    function ServerSent(): int { sent + outward + held + ahead }
    /** The server's clock when the answer arrives, which the client is after. */
    function Truth(): int { Arrived() + ahead }
    function Delay(): int { outward + inward }
  }

  /** A time stamped as so many milliseconds is late by less than `error`. */
  predicate Stamped(ms: int, time: int, error: nat) {
    0 <= time - MILLI * ms < error
  }

  /** The readings of the client around a transaction: its wall clock cut to a millisecond, and
      the ticks, read before the request is sent and after the answer is received. */
  ghost predicate Read(t: Transaction, before: Now, after: Now) {
    after.time % MILLI == 0 && Stamped(after.time / MILLI, t.Arrived(), MILLI)
    && after.ticks - before.ticks >= t.Arrived() - t.sent
  }

  /** The computed time lies within half the delay, the error of the stamps and a millisecond of
      the truth, and the delay shows in the reported round trip, which so bounds the error too.
      Halves are avoided by doubling. */
  ghost predicate Accurate(t: Transaction, r: Response, error: nat) {
    var twice := 2 * (MILLI * r.ntpTime - t.Truth());
    && -t.Delay() - 2 * error - 2 * MILLI < twice < t.Delay() + error + MILLI
    && MILLI * r.roundTrip > t.Delay() - error - MILLI
    && -MILLI * r.roundTrip - 3 * error - 3 * MILLI < twice < MILLI * r.roundTrip + 2 * error + 2 * MILLI
  }

  /** Whatever the offset of the server's clock, the delays and the errors of the stamps. The
      reported round trip is the delay, beside the errors and what the ticks count more. */
  lemma ErrorOfTheAnswer(t: Transaction, before: Now, after: Now,
                         originate: int, receive: int, transmit: int, error: nat)
    requires Read(t, before, after)
    requires Stamped(originate, t.sent, error)
    requires Stamped(receive, t.ServerReceived(), error)
    requires Stamped(transmit, t.ServerSent(), error)
    ensures Accurate(t, Answer(before, after, originate, receive, transmit), error)
    ensures var r, ticks := Answer(before, after, originate, receive, transmit), after.ticks - before.ticks;
      MILLI * r.roundTrip < t.Delay() + (ticks - (t.Arrived() - t.sent)) + error + MILLI
    ensures after.ticks >= 0 ==>
      Stamped(Answer(before, after, originate, receive, transmit).reference, after.ticks, MILLI)
  {
    var a := after.time / MILLI;
    var twice := receive - originate + transmit - a;
    assert MILLI * (receive - originate) + (MILLI * transmit - after.time) == MILLI * twice;
    HalfOfMillis(twice);
    HalfMillisCut(2 * a + twice);
    assert after.time == MILLI * a;
  }

  lemma HalfOfMillis(ms: int)
    ensures Truncated(MILLI * ms, 2) == HALF * ms
  {
  }

  /** Cutting half milliseconds to whole ones loses half a millisecond at most. */
  lemma HalfMillisCut(halves: int)
    ensures -HALF <= MILLI * Truncated(HALF * halves, MILLI) - HALF * halves <= HALF
  {
    var q := Truncated(halves, 2);
    assert Truncated(HALF * halves, MILLI) == q;
  }

  const SECOND := 1000 * MILLI

  /** What a server fills in: the seconds since 1900 by its clock; the fraction is of no account. */
  predicate Shows(s: Stamp, time: int) {
    s.Valid() && s.seconds == time / SECOND + OFFSET_1900_TO_1970
  }

  /** The program's own stamps are late by less than a second, which is the error of its answer. */
  lemma ErrorWithTheProgramsStamps(t: Transaction, before: Now, after: Now, receive: Stamp, transmit: Stamp)
    requires Read(t, before, after)
    requires 0 <= t.sent / MILLI < 1000 * (WRAP - OFFSET_1900_TO_1970)
    requires Shows(receive, t.ServerReceived()) && Shows(transmit, t.ServerSent())
    ensures Accurate(t, Answer(before, after, ToMilliseconds(FromMilliseconds(t.sent / MILLI)),
                               ToMilliseconds(receive), ToMilliseconds(transmit)), SECOND)
  {
    var originate := FromMilliseconds(t.sent / MILLI);
    EncodedThenDecoded(t.sent / MILLI);
    DecodesToWholeSeconds(receive);
    DecodesToWholeSeconds(transmit);
    ErrorOfTheAnswer(t, before, after,
      ToMilliseconds(originate), ToMilliseconds(receive), ToMilliseconds(transmit), SECOND);
  }

  /** Milliseconds do not survive: without any delay, and with exact stamps, the answer can be
      999 ms behind the server's clock. */
  lemma AnswerCanLagByMilliseconds()
    ensures var t := Transaction(0, 0, 0, 0, 999 * MILLI);
      var now := Now(0, 0);
      var stamp := FromMilliseconds(999);
      Read(t, now, now) && Shows(stamp, t.ServerReceived()) && Shows(stamp, t.ServerSent())
      && Answer(now, now, ToMilliseconds(FromMilliseconds(0)), ToMilliseconds(stamp), ToMilliseconds(stamp))
         == Response(0, 0, 0)
      && t.Truth() == 999 * MILLI
  {
    EncodedThenDecoded(999);
    EncodedThenDecoded(0);
  }
}
