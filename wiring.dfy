/** The Wiring/Arduino platform primitives the driver calls, abstracted: every
    pin operation and delay becomes an event appended to a trace, and the
    microsecond counter is an oracle of readings supplied from outside. */
module Wiring {
  import opened MachineInt

  datatype Level = Low | High

  datatype Mode = Input | Output

  /** One call into the platform, as recorded on the board's trace. */
  datatype Event =
    | Configured(pin: uint8, mode: Mode)          // pinMode(pin, mode)
    | DigitalWritten(pin: uint8, level: Level)    // digitalWrite(pin, level)
    | AnalogWritten(pin: uint8, value: uint32)    // analogWrite(pin, value)
    | Delayed(us: uint32)                         // delayMicroseconds(us)

  /** Absolute time never goes backwards. */
  ghost predicate Monotone(time: seq<nat>)
  {
    forall i, j :: 0 <= i <= j < |time| ==> time[i] <= time[j]
  }

  /** The 32-bit microsecond counter shows the absolute time modulo 2^32. */
  ghost predicate CounterOf(time: seq<nat>, counter: seq<uint32>)
  {
    |counter| == |time| && forall n :: 0 <= n < |time| ==> counter[n] == time[n] % TWO_32
  }

  /** The hardware: what has been issued to the pins so far, and the clock. */
  class Board {
    var trace: seq<Event>
    /** `time[n]` is the absolute time, in microseconds, of the `n`-th clock reading. */
    const time: seq<nat>
    /** `counter[n]` is what `micros()` returns at its `n`-th reading. */
    const counter: seq<uint32>
    /** How many times the clock has been read. */
    var readings: nat

    constructor (time: seq<nat>)
      requires Monotone(time)
      ensures this.time == time && CounterOf(time, counter)
      ensures trace == [] && readings == 0
    {
      this.time := time;
      this.counter := seq(|time|, n requires 0 <= n < |time| => time[n] % TWO_32);
      trace := [];
      readings := 0;
    }

    method PinMode(pin: uint8, mode: Mode)
      modifies this`trace
      ensures trace == old(trace) + [Configured(pin, mode)]
    {
      trace := trace + [Configured(pin, mode)];
    }

    method DigitalWrite(pin: uint8, level: Level)
      modifies this`trace
      ensures trace == old(trace) + [DigitalWritten(pin, level)]
    {
      trace := trace + [DigitalWritten(pin, level)];
    }

    method AnalogWrite(pin: uint8, value: uint32)
      modifies this`trace
      ensures trace == old(trace) + [AnalogWritten(pin, value)]
    {
      trace := trace + [AnalogWritten(pin, value)];
    }

    method DelayMicroseconds(us: uint32)
      modifies this`trace
      ensures trace == old(trace) + [Delayed(us)]
    {
      trace := trace + [Delayed(us)];
    }

    /** `micros()`: takes the next reading, of which there must be one left. */
    method Micros() returns (t: uint32)
      requires readings < |counter|
      modifies this`readings
      ensures readings == old(readings) + 1
      ensures t == counter[old(readings)]
    {
      t := counter[readings];
      readings := readings + 1;
    }
  }

  /** Wiring's `map`: carries `x` linearly from [inMin, inMax] onto
      [outMin, outMax] in integer arithmetic, with C's truncating division. */
  function Map(x: int, inMin: int, inMax: int, outMin: int, outMax: int): (r: int)
    requires inMin != inMax
    ensures inMin <= x <= inMax && outMin <= outMax ==> outMin <= r <= outMax
    ensures x == inMin ==> r == outMin
    ensures x == inMax ==> r == outMax
  {
    var q := TruncDiv((x - inMin) * (outMax - outMin), inMax - inMin);
    MapQuotient(x - inMin, outMax - outMin, inMax - inMin, q);
    q + outMin
  }

  /** What `map` needs of the truncated quotient `q` of `k * c` by `d`. */
  lemma MapQuotient(k: int, c: int, d: int, q: int)
    requires d != 0
    requires 0 <= k * c ==> 0 <= k * c - q * d < Abs(d)
    requires k * c < 0 ==> -Abs(d) < k * c - q * d <= 0
    ensures 0 <= k <= d && 0 <= c ==> 0 <= q <= c
    ensures k == 0 ==> q == 0
    ensures k == d ==> q == c
  {
    if 0 <= k <= d && 0 <= c {
      QuotientWithin(k, c, d, q);
    }
    if k == d {
      ExactQuotient(c, d, q);
    }
    if k == 0 {
      ExactQuotient(0, d, q);
    }
  }

  /** For `0 <= k <= d` and `0 <= c`, the truncated quotient of `k * c` by `d` lies in [0, c]. */
  lemma QuotientWithin(k: int, c: int, d: int, q: int)
    requires 0 <= k <= d && 0 < d && 0 <= c
    requires 0 <= k * c - q * d < d
    ensures 0 <= q <= c
  {
    ProductSign(d - k, c);
    ProductSign(k, c);
    assert (c - q) * d == (d - k) * c + (k * c - q * d);
    assert (q + 1) * d == q * d + d;
    FactorSign(c - q, d);
    FactorSign(q + 1, d);
  }

  /** A product of non-negative factors is non-negative. */
  lemma ProductSign(a: int, b: int)
    requires 0 <= a && 0 <= b
    ensures 0 <= a * b
  {
  }

  /** Multiplying by a positive `d` keeps the sign. */
  lemma FactorSign(x: int, d: int)
    requires 0 < d
    ensures x * d >= 0 ==> x >= 0
    ensures x * d > 0 ==> x > 0
  {
    assert x <= 0 ==> x * d == -((-x) * d);
    if x <= 0 {
      ProductSign(-x, d);
    }
  }

  /** Dividing `c * d` by `d` is exact, whatever the signs. */
  lemma ExactQuotient(c: int, d: int, q: int)
    requires d != 0
    requires -Abs(d) < c * d - q * d < Abs(d)
    ensures q == c
  {
    var e := if d < 0 then q - c else c - q;
    assert c * d - q * d == e * Abs(d);
    SmallMultiple(e, Abs(d));
  }

  /** The only multiple of a positive `n` strictly between `-n` and `n` is zero. */
  lemma SmallMultiple(e: int, n: int)
    requires 0 < n && -n < e * n < n
    ensures e == 0
  {
    assert e >= 1 ==> e * n == n + (e - 1) * n;
    assert e <= -1 ==> e * n == -n + (e + 1) * n;
  }

  /** The level last written to `pin`, if any was. */
  function LastLevel(trace: seq<Event>, pin: uint8): (l: Option<Level>)
    ensures l.Some? ==> DigitalWritten(pin, l.value) in trace
    ensures l.None? ==> forall e :: e in trace ==> !(e.DigitalWritten? && e.pin == pin)
  {
    if trace == [] then None
    else
      var e := trace[|trace| - 1];
      if e.DigitalWritten? && e.pin == pin then Some(e.level)
      else LastLevel(trace[..|trace| - 1], pin)
  }

  datatype Option<T> = None | Some(value: T)

  /** The analog writes of a trace, in the order they were issued. */
  function AnalogWrites(trace: seq<Event>): (w: seq<Event>)
    ensures |w| <= |trace|
    ensures forall e :: e in w ==> e.AnalogWritten? && e in trace
  {
    if trace == [] then []
    else
      var e := trace[|trace| - 1];
      AnalogWrites(trace[..|trace| - 1]) + (if e.AnalogWritten? then [e] else [])
  }

  /** Events that leave the level of `pin` as it was. */
  predicate KeepsLevel(e: Event, pin: uint8)
  {
    !(e.DigitalWritten? && e.pin == pin)
  }

  lemma {:induction false} LastLevelAppend(p: seq<Event>, q: seq<Event>, pin: uint8)
    requires forall e :: e in q ==> KeepsLevel(e, pin)
    ensures LastLevel(p + q, pin) == LastLevel(p, pin)
  {
    if q != [] {
      var q' := q[..|q| - 1];
      assert (p + q)[..|p + q| - 1] == p + q';
      assert q[|q| - 1] in q;
      LastLevelAppend(p, q', pin);
    } else {
      assert p + q == p;
    }
  }

  lemma {:induction false} AnalogWritesAppend(p: seq<Event>, q: seq<Event>)
    ensures AnalogWrites(p + q) == AnalogWrites(p) + AnalogWrites(q)
  {
    if q == [] {
      assert p + q == p;
    } else {
      var q' := q[..|q| - 1];
      assert (p + q)[..|p + q| - 1] == p + q';
      AnalogWritesAppend(p, q');
    }
  }
}
