/** Clocks and rates: monotonic to real time in 64-bit wrap-around, message stamps, periods. */
module Clock {
  import opened Wrappers
  import opened Pdos

  const TWO64: int := 0x1_0000_0000_0000_0000
  const TWO32: int := 0x1_0000_0000
  const SECOND: int := 1_000_000_000

  type U64 = x: int | 0 <= x < TWO64

  /** Conversion to an unsigned 64-bit integer: wraps, also for negative numbers. */
  function Wrap64(x: int): U64 {
    x % TWO64
  }

  /** Seconds and nanoseconds put together, every step in 64-bit arithmetic. */
  function Nanoseconds(sec: int, nsec: int): U64 {
    Wrap64(Wrap64(Wrap64(sec) * SECOND) + Wrap64(nsec))
  }

  lemma WrapMultiple(x: int, n: int)
    ensures Wrap64(x + n * TWO64) == Wrap64(x)
  {
  }

  lemma WrapAdd(x: int, y: int)
    ensures Wrap64(Wrap64(x) + y) == Wrap64(x + y)
    ensures Wrap64(x + Wrap64(y)) == Wrap64(x + y)
    ensures Wrap64(Wrap64(x) - Wrap64(y)) == Wrap64(x - y)
  {
    var m, n := x / TWO64, y / TWO64;
    WrapMultiple(x + y, -m);
    WrapMultiple(x + y, -n);
    WrapMultiple(x - y, n - m);
  }

  lemma WrapSum(x: int, y: int)
    ensures Wrap64(Wrap64(x) + Wrap64(y)) == Wrap64(x + y)
  {
    WrapAdd(x, Wrap64(y));
    WrapAdd(x, y);
  }

  lemma WrapScale(x: int)
    ensures Wrap64(Wrap64(x) * SECOND) == Wrap64(x * SECOND)
  {
    WrapMultiple(Wrap64(x) * SECOND, x / TWO64 * SECOND);
  }

  lemma NanosecondsMeaning(sec: int, nsec: int)
    ensures Nanoseconds(sec, nsec) == Wrap64(sec * SECOND + nsec)
  {
    WrapScale(sec);
    WrapAdd(Wrap64(sec * SECOND), nsec);
    WrapAdd(sec * SECOND, nsec);
  }

  class ClockOffset {
    var realtimeNs: U64
    var monotonicNs: U64
    var k: U64

    constructor ()
      ensures k == 0
    {
      realtimeNs, monotonicNs, k := 0, 0, 0;
    }

    /** Sample both clocks; the offset may wrap when real time is behind monotonic time. */
    method Init(realSec: int, realNsec: int, monoSec: int, monoNsec: int)
      modifies this
      ensures realtimeNs == (realSec * 1_000_000_000 + realNsec) % 0x1_0000_0000_0000_0000
      ensures monotonicNs == (monoSec * 1_000_000_000 + monoNsec) % 0x1_0000_0000_0000_0000
      ensures k == (realtimeNs - monotonicNs) % 0x1_0000_0000_0000_0000
    {
      NanosecondsMeaning(realSec, realNsec);
      NanosecondsMeaning(monoSec, monoNsec);
      realtimeNs := Nanoseconds(realSec, realNsec);
      monotonicNs := Nanoseconds(monoSec, monoNsec);
      k := Wrap64(realtimeNs - monotonicNs);
    }
  }

  function MonotonicToRealtime(k: U64, monoNs: U64): U64 {
    Wrap64(monoNs + k)
  }

  /** However the clocks stood when sampled, `d` nanoseconds from the sampled monotonic time are `d` nanoseconds
      from the sampled real time; the result is the true value whenever that fits. */
  lemma ConversionShifts(wall: int, mono: int, d: int)
    ensures MonotonicToRealtime(Wrap64(Wrap64(wall) - Wrap64(mono)), Wrap64(mono + d)) ==
            (wall + d) % 0x1_0000_0000_0000_0000
    ensures 0 <= wall + d < 0x1_0000_0000_0000_0000 ==>
            MonotonicToRealtime(Wrap64(Wrap64(wall) - Wrap64(mono)), Wrap64(mono + d)) == wall + d
  {
    WrapAdd(wall, mono);
    WrapSum(mono + d, wall - mono);
  }

  /** The header's stamp if there is one and it is not zero; the time of reception otherwise. */
  function ExtractTimestamp(k: U64, p: Pdo, now: U64): U64 {
    if p.header.Some? && p.header.value.stamp.Some? then
      var s := p.header.value.stamp.value;
      if Nanoseconds(s.sec, s.nsec) != 0 then MonotonicToRealtime(k, Nanoseconds(s.sec, s.nsec))
      else MonotonicToRealtime(k, now)
    else MonotonicToRealtime(k, now)
  }

  datatype Time = Time(sec: Int32, nanosec: UInt32)

  /** Conversion to a signed 32-bit integer: wraps. */
  function Wrap32(x: int): Int32 {
    var r := x % TWO32;
    if r <= INT32_MAX then r else r - TWO32
  }

  function Split(ns: U64): Time {
    Time(Wrap32(ns / SECOND), ns % SECOND)
  }

  /** The split is exact modulo 2^32 seconds, and exact outright just when the seconds fit. */
  lemma SplitIsExact(ns: U64)
    ensures Split(ns).nanosec == ns % 1_000_000_000
    ensures (Split(ns).sec - ns / 1_000_000_000) % 0x1_0000_0000 == 0
    ensures Split(ns).sec * 1_000_000_000 + Split(ns).nanosec == ns <==> ns / 1_000_000_000 <= 0x7FFF_FFFF
  {
    var s := ns / SECOND;
    var q := s / TWO32;
    assert s == q * TWO32 + s % TWO32;
    var back := if s % TWO32 <= INT32_MAX then q else q + 1;
    assert Split(ns).sec == s - TWO32 * back;
    assert back == 0 <==> s <= INT32_MAX;
  }

  /** Stamps order like the times they stand for as long as the seconds fit. */
  lemma SplitKeepsOrder(a: U64, b: U64)
    requires a / 1_000_000_000 <= 0x7FFF_FFFF && b / 1_000_000_000 <= 0x7FFF_FFFF
    ensures Split(a).sec < Split(b).sec || (Split(a).sec == Split(b).sec && Split(a).nanosec < Split(b).nanosec) <==>
            a < b
    ensures Split(a) == Split(b) <==> a == b
  {
    SplitIsExact(a);
    SplitIsExact(b);
  }

  /** From the device's stamp to the message's: with the clocks sampled at `wall` and `mono`, a stamped PDO is
      published with the real time its stamp denotes, if that has seconds that fit. */
  lemma PublishedStamps(wall: int, mono: int, p: Pdo, now: U64)
    requires p.header.Some? && p.header.value.stamp.Some?
    ensures var m := p.header.value.stamp.value.sec * 1_000_000_000 + p.header.value.stamp.value.nsec;
            var k := Wrap64(Wrap64(wall) - Wrap64(mono));
            0 < m && 0 <= wall + (m - mono) < 0x8000_0000 * 1_000_000_000 ==>
              var t := Split(ExtractTimestamp(k, p, now));
              t.sec * 1_000_000_000 + t.nanosec == wall + (m - mono) && t.nanosec < 1_000_000_000
  {
    var s := p.header.value.stamp.value;
    var m := s.sec * SECOND + s.nsec;
    NanosecondsMeaning(s.sec, s.nsec);
    ConversionShifts(wall, mono, m - mono);
    if 0 < m && 0 <= wall + (m - mono) < 0x8000_0000 * SECOND {
      assert m < TWO64 && Nanoseconds(s.sec, s.nsec) == m;
      SplitIsExact(wall + (m - mono));
    }
  }

  /** A PDO without a stamp, or stamped zero, counts as stamped on reception. */
  lemma UnstampedIsNow(wall: int, mono: int, p: Pdo, now: int)
    requires || p.header.None? || p.header.value.stamp.None?
             || p.header.value.stamp.value.sec * 1_000_000_000 + p.header.value.stamp.value.nsec == 0
    ensures ExtractTimestamp(Wrap64(Wrap64(wall) - Wrap64(mono)), p, Wrap64(now)) ==
            (wall + (now - mono)) % 0x1_0000_0000_0000_0000
  {
    ConversionShifts(wall, mono, now - mono);
    if p.header.Some? && p.header.value.stamp.Some? {
      NanosecondsMeaning(p.header.value.stamp.value.sec, p.header.value.stamp.value.nsec);
    }
  }

  // ---- rates --------------------------------------------------------------------------------------

  const MICROS: int := 1_000_000

  /** The period in microseconds; an error outside 1 to 10^6 Hz. */
  function PeriodFromRate(hz: UInt32): (r: Result<nat, string>)
    ensures r.Ok? <==> 1 <= hz <= 1_000_000
    ensures r.Ok? ==> 1 <= r.value <= 1_000_000 && r.value * hz <= 1_000_000 < (r.value + 1) * hz
  {
    if hz == 0 || hz > MICROS then Err("rate: must be between 1 and 1000000 Hz")
    else
      Quotient(MICROS, hz);
      AtLeast(MICROS, hz, 1);
      Ok(MICROS / hz)
  }

  /** What the worker reports as its rate. */
  function ReportedRate(period: nat): int
    requires period > 0
  {
    MICROS / period
  }

  lemma Quotient(a: nat, b: nat)
    requires 0 < b
    ensures (a / b) * b <= a < (a / b + 1) * b
  {
    assert a == b * (a / b) + a % b;
    assert (a / b + 1) * b == b * (a / b) + b;
  }

  lemma AtLeast(a: nat, b: nat, q: nat)
    requires 0 < b
    ensures q <= a / b <==> q * b <= a
  {
    Quotient(a, b);
    var r := a / b;
    if q <= r {
      Scale(q, r, b);
    } else {
      Scale(r + 1, q, b);
    }
  }

  lemma Scale(x: int, y: int, b: nat)
    requires x <= y
    ensures x * b <= y * b
  {
  }

  /** The reported rate is never below the requested one. It is the requested one exactly if the remainder of
      10^6 by it is less than the quotient, and so for every rate up to 1000 Hz. */
  lemma ReportedRateIff(hz: UInt32)
    requires 1 <= hz <= 1_000_000
    ensures var reported := ReportedRate(PeriodFromRate(hz).value);
            && reported == 1_000_000 / PeriodFromRate(hz).value && reported >= hz
            && (reported == hz <==> 1_000_000 % hz < 1_000_000 / hz)
            && (hz <= 1000 ==> reported == hz)
  {
    var q := PeriodFromRate(hz).value;
    AtLeast(MICROS, q, hz);
    AtLeast(MICROS, q, hz + 1);
    Expand(q, hz);
    assert MICROS == hz * q + MICROS % hz;
    if hz <= 1000 {
      AtLeast(MICROS, hz, 1000);
    }
  }

  lemma Expand(q: nat, hz: nat)
    ensures (hz + 1) * q == q * hz + q && (q + 1) * hz == q * hz + hz
  {
  }

  /** Above that it need not: 1500 Hz runs at 666 microseconds, reported as 1501. */
  lemma ReportedRateExceeds()
    ensures PeriodFromRate(1500) == Ok(666) && ReportedRate(666) == 1501
    ensures 1_000_000 % 1500 == 1000
  {
  }
}
