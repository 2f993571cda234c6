/** What the driver promises about the traces it issues, proved of the
    functions that specify `init` and `playSound`. */
module SfxProperties {
  import opened MachineInt
  import opened Wiring
  import opened Sfx

  // ---------------------------------------------------------------------------
  // The 8-to-12-bit rescale

  /** The driver's `map(s, 0, 255, 0, 4095)` is exactly Rescale: the quotient is
      non-negative, so C's truncating division rounds it down. */
  lemma RescaleIsMap(s: uint8)
    ensures Map(s, 0, 255, 0, 4095) == Rescale(s)
  {
    var q := TruncDiv(s * 4095, 255);
    assert Map(s, 0, 255, 0, 4095) == q;
    FloorUnique(s * 4095, 255, q, Rescale(s));
  }

  /** The quotient that leaves a remainder in [0, d) is unique. */
  lemma FloorUnique(n: int, d: int, q: int, q': int)
    requires 0 < d
    requires 0 <= n - q * d < d && 0 <= n - q' * d < d
    ensures q == q'
  {
    assert (q - q') * d == (n - q' * d) - (n - q * d);
    SmallMultiple(q - q', d);
  }

  /** The ends of the ranges meet, and the middle truncates: 128 * 4095 / 255 is 2055.5. */
  lemma RescaleEndpoints()
    ensures Rescale(0) == 0 && Rescale(255) == 4095
    ensures Rescale(128) == 2055
  {
  }

  /** Rescale is strictly increasing, with a step of at least 16 between
      neighbouring samples: no two samples collapse onto one output level. */
  lemma RescaleIncreasing(a: uint8, b: uint8)
    requires a < b
    ensures Rescale(a) + 16 <= Rescale(b)
  {
    assert Rescale(b) * 255 > Rescale(a) * 255 + 3840;
  }

  // ---------------------------------------------------------------------------
  // The 32-bit clock difference

  /** `now - lastWrite` on the 32-bit counter is the elapsed absolute time modulo
      2^32; so, across a counter wrap-around too, it is the elapsed time itself
      whenever less than 2^32 microseconds have passed. */
  lemma ElapsedOnCounter(time: seq<nat>, counter: seq<uint32>, i: nat, j: nat)
    requires Monotone(time) && CounterOf(time, counter)
    requires i <= j < |time|
    ensures Sub32(counter[j], counter[i]) == (time[j] - time[i]) % TWO_32
    ensures time[j] - time[i] < TWO_32 ==> Sub32(counter[j], counter[i]) == time[j] - time[i]
  {
    var qi, qj := time[i] / TWO_32, time[j] / TWO_32;
    assert time[i] == qi * TWO_32 + counter[i];
    assert time[j] == qj * TWO_32 + counter[j];
    Sub32IsModular(counter[j], counter[i]);
    var d := counter[j] as int - counter[i] as int;
    ModuloShift(d, qj - qi);
    assert time[j] - time[i] == d + (qj - qi) * TWO_32;
  }

  /** Adding a multiple of 2^32 leaves the remainder as it was. */
  lemma ModuloShift(x: int, m: int)
    ensures (x + m * TWO_32) % TWO_32 == x % TWO_32
  {
    var r := x % TWO_32;
    assert x + m * TWO_32 == (x / TWO_32 + m) * TWO_32 + r;
  }

  // ---------------------------------------------------------------------------
  // One pass of the loop

  /** A pass issues its write last, preceded by a wait exactly when the elapsed
      counter difference is short of `timing`; the wait lies in (0, timing] and
      tops the difference up to `timing`. */
  lemma SampleStepShape(speaker: uint8, timing: uint8, s: uint8, last: uint32, now: uint32)
    ensures var step := SampleStep(speaker, timing, s, last, now);
      && 1 <= |step| <= 2
      && step[|step| - 1] == AnalogWritten(speaker, Rescale(s))
      && (|step| == 2 <==> Sub32(now, last) < timing)
      && (|step| == 2 ==> step[0].Delayed? && 0 < step[0].us <= timing
                          && step[0].us + Sub32(now, last) == timing)
  {
  }

  /** With the counter showing absolute time and less than 2^32 microseconds
      between the two readings of pass `k`, the pass waits exactly when the
      elapsed time `e` since the previous write is below `timing`, and then for
      `timing - e`. */
  lemma PassWaitMatchesElapsed(time: seq<nat>, counter: seq<uint32>, speaker: uint8, timing: uint8,
                               sound: seq<uint8>, base: nat, k: nat)
    requires Monotone(time) && CounterOf(time, counter)
    requires k < |sound| && base + 2 * k + 1 < |counter|
    requires time[base + 2 * k + 1] - time[base + 2 * k] < TWO_32
    ensures var step, elapsed := SampleAt(speaker, timing, sound, counter, base, k), time[base + 2 * k + 1] - time[base + 2 * k];
      && (elapsed < timing ==> step == [Delayed(timing - elapsed), AnalogWritten(speaker, Rescale(sound[k]))])
      && (elapsed >= timing ==> step == [AnalogWritten(speaker, Rescale(sound[k]))])
  {
    ElapsedOnCounter(time, counter, base + 2 * k, base + 2 * k + 1);
  }

  // ---------------------------------------------------------------------------
  // The stream of samples

  /** What the loop may issue: a write of a 12-bit value to the speaker, or a
      wait that is positive and at most `timing`. */
  predicate StreamEvent(e: Event, speaker: uint8, timing: uint8)
  {
    || (e.AnalogWritten? && e.pin == speaker && e.value <= 4095)
    || (e.Delayed? && 0 < e.us <= timing)
  }

  /** The loop issues nothing but speaker writes and bounded waits, at most one
      wait per sample. */
  lemma {:induction false} StreamEventsBounded(speaker: uint8, timing: uint8, sound: seq<uint8>, counter: seq<uint32>, base: nat, n: nat)
    requires n <= |sound| && base + 2 * n <= |counter|
    ensures var events := StreamEvents(speaker, timing, sound, counter, base, n);
      && n <= |events| <= 2 * n
      && forall e :: e in events ==> StreamEvent(e, speaker, timing)
  {
    if n > 0 {
      StreamEventsBounded(speaker, timing, sound, counter, base, n - 1);
      SampleStepShape(speaker, timing, sound[n - 1], counter[base + 2 * (n - 1)], counter[base + 2 * (n - 1) + 1]);
    }
  }

  /** `writes` are the first `n` samples of `sound`, rescaled, written to the
      speaker one after another. */
  predicate WritesInOrder(writes: seq<Event>, speaker: uint8, sound: seq<uint8>, n: nat)
    requires n <= |sound|
  {
    |writes| == n && forall k :: 0 <= k < n ==> writes[k] == AnalogWritten(speaker, Rescale(sound[k]))
  }

  /** The writes of the loop are the table, rescaled, in order: the k-th write
      carries sample k, none skipped and none repeated, whatever the clock shows. */
  lemma {:induction false} StreamWrites(speaker: uint8, timing: uint8, sound: seq<uint8>, counter: seq<uint32>, base: nat, n: nat)
    requires n <= |sound| && base + 2 * n <= |counter|
    ensures WritesInOrder(AnalogWrites(StreamEvents(speaker, timing, sound, counter, base, n)), speaker, sound, n)
  {
    if n > 0 {
      StreamWrites(speaker, timing, sound, counter, base, n - 1);
      PassWrites(speaker, timing, sound, counter, base, n - 1);
      WritesStep(StreamEvents(speaker, timing, sound, counter, base, n - 1), SampleAt(speaker, timing, sound, counter, base, n - 1),
                 StreamEvents(speaker, timing, sound, counter, base, n), speaker, sound, n);
    } else {
      assert AnalogWrites([]) == [];
    }
  }

  /** Appending a pass that writes sample `n - 1` extends the writes in order. */
  lemma WritesStep(prev: seq<Event>, step: seq<Event>, stream: seq<Event>, speaker: uint8, sound: seq<uint8>, n: nat)
    requires 0 < n <= |sound| && stream == prev + step
    requires WritesInOrder(AnalogWrites(prev), speaker, sound, n - 1)
    requires AnalogWrites(step) == [AnalogWritten(speaker, Rescale(sound[n - 1]))]
    ensures WritesInOrder(AnalogWrites(stream), speaker, sound, n)
  {
    AnalogWritesAppend(prev, step);
    var before := AnalogWrites(prev);
    assert AnalogWrites(stream) == before + [AnalogWritten(speaker, Rescale(sound[n - 1]))];
  }

  /** Pass `k` writes sample `k`. */
  lemma PassWrites(speaker: uint8, timing: uint8, sound: seq<uint8>, counter: seq<uint32>, base: nat, k: nat)
    requires k < |sound| && base + 2 * k + 1 < |counter|
    ensures AnalogWrites(SampleAt(speaker, timing, sound, counter, base, k)) == [AnalogWritten(speaker, Rescale(sound[k]))]
  {
    StepWrites(speaker, timing, sound[k], counter[base + 2 * k], counter[base + 2 * k + 1]);
  }

  /** A trace without analog writes has no analog writes to list. */
  lemma NoAnalogWrites(trace: seq<Event>)
    requires forall e :: e in trace ==> !e.AnalogWritten?
    ensures AnalogWrites(trace) == []
  {
  }

  /** A pass writes its one sample. */
  lemma StepWrites(speaker: uint8, timing: uint8, s: uint8, last: uint32, now: uint32)
    ensures AnalogWrites(SampleStep(speaker, timing, s, last, now)) == [AnalogWritten(speaker, Rescale(s))]
  {
    var w := AnalogWritten(speaker, Rescale(s));
    if Sub32(now, last) < timing {
      var d := Delayed(Sub32(timing, Sub32(now, last)));
      assert SampleStep(speaker, timing, s, last, now) == [d, w];
      assert [d, w][..1] == [d];
      assert [d][..0] == [];
    } else {
      assert SampleStep(speaker, timing, s, last, now) == [w];
      assert [w][..0] == [];
    }
  }

  /** When every pass overran its interval, nothing is waited for and every
      sample is still written: the loop never catches up by dropping any. */
  lemma {:induction false} OverrunNeverWaits(speaker: uint8, timing: uint8, sound: seq<uint8>, counter: seq<uint32>, base: nat, n: nat)
    requires n <= |sound| && base + 2 * n <= |counter|
    requires forall k :: 0 <= k < n ==> Sub32(counter[base + 2 * k + 1], counter[base + 2 * k]) >= timing
    ensures var events := StreamEvents(speaker, timing, sound, counter, base, n);
      && |events| == n
      && forall k :: 0 <= k < n ==> events[k] == AnalogWritten(speaker, Rescale(sound[k]))
  {
    if n > 0 {
      OverrunNeverWaits(speaker, timing, sound, counter, base, n - 1);
      assert Sub32(counter[base + 2 * (n - 1) + 1], counter[base + 2 * (n - 1)]) >= timing;
    }
  }

  // ---------------------------------------------------------------------------
  // The whole of playSound

  /** The amplifier is switched on and given the guard delay before anything
      else, and given the guard delay and switched off after everything else;
      in between come only speaker writes and waits in (0, timing]. */
  lemma PlaySoundFraming(amp: uint8, speaker: uint8, timing: uint8, len: uint16, sound: seq<uint8>, counter: seq<uint32>, base: nat)
    requires len as int <= |sound| && base + 2 * len as int <= |counter|
    ensures var t := PlaySoundTrace(amp, speaker, timing, len, sound, counter, base);
      && 4 + len as int <= |t| <= 4 + 2 * len as int
      && t[0] == DigitalWritten(amp, High) && t[1] == Delayed(GUARD_DELAY)
      && t[|t| - 2] == Delayed(GUARD_DELAY) && t[|t| - 1] == DigitalWritten(amp, Low)
      && forall k :: 2 <= k < |t| - 2 ==> StreamEvent(t[k], speaker, timing)
  {
    var stream := StreamEvents(speaker, timing, sound, counter, base, len as int);
    StreamEventsBounded(speaker, timing, sound, counter, base, len as int);
    var t := PlaySoundTrace(amp, speaker, timing, len, sound, counter, base);
    forall k | 2 <= k < |t| - 2
      ensures StreamEvent(t[k], speaker, timing)
    {
      assert t[k] == stream[k - 2];
    }
  }

  /** `playSound` issues exactly `len` analog writes, the k-th carrying the
      rescaled k-th sample, to the speaker pin. */
  lemma PlaySoundWrites(amp: uint8, speaker: uint8, timing: uint8, len: uint16, sound: seq<uint8>, counter: seq<uint32>, base: nat)
    requires len as int <= |sound| && base + 2 * len as int <= |counter|
    ensures WritesInOrder(AnalogWrites(PlaySoundTrace(amp, speaker, timing, len, sound, counter, base)), speaker, sound, len as int)
  {
    var head := [DigitalWritten(amp, High), Delayed(GUARD_DELAY)];
    var stream := StreamEvents(speaker, timing, sound, counter, base, len as int);
    var tail := [Delayed(GUARD_DELAY), DigitalWritten(amp, Low)];
    AnalogWritesAppend(head + stream, tail);
    AnalogWritesAppend(head, stream);
    NoAnalogWrites(head);
    NoAnalogWrites(tail);
    StreamWrites(speaker, timing, sound, counter, base, len as int);
  }

  /** Which samples are written, and in what order, does not depend on the clock. */
  lemma PlaySoundWritesIgnoreClock(amp: uint8, speaker: uint8, timing: uint8, len: uint16, sound: seq<uint8>,
                                   counter: seq<uint32>, base: nat, counter': seq<uint32>, base': nat)
    requires len as int <= |sound|
    requires base + 2 * len as int <= |counter| && base' + 2 * len as int <= |counter'|
    ensures AnalogWrites(PlaySoundTrace(amp, speaker, timing, len, sound, counter, base))
         == AnalogWrites(PlaySoundTrace(amp, speaker, timing, len, sound, counter', base'))
  {
    PlaySoundWrites(amp, speaker, timing, len, sound, counter, base);
    PlaySoundWrites(amp, speaker, timing, len, sound, counter', base');
  }

  /** With no samples, the amplifier is pulsed on and off around the two guard delays. */
  lemma PlaySoundEmpty(amp: uint8, speaker: uint8, timing: uint8, sound: seq<uint8>, counter: seq<uint32>, base: nat)
    requires base <= |counter|
    ensures PlaySoundTrace(amp, speaker, timing, 0, sound, counter, base)
         == [DigitalWritten(amp, High), Delayed(GUARD_DELAY), Delayed(GUARD_DELAY), DigitalWritten(amp, Low)]
  {
  }

  /** Whatever was issued before, the amplifier is on at every sample write of
      `playSound`. */
  lemma AmplifierOnDuringSamples(prefix: seq<Event>, amp: uint8, speaker: uint8, timing: uint8, len: uint16,
                                 sound: seq<uint8>, counter: seq<uint32>, base: nat)
    requires len as int <= |sound| && base + 2 * len as int <= |counter|
    ensures var t := prefix + PlaySoundTrace(amp, speaker, timing, len, sound, counter, base);
      forall k :: |prefix| <= k < |t| && t[k].AnalogWritten? ==> LastLevel(t[..k], amp) == Some(High)
  {
    var head := [DigitalWritten(amp, High), Delayed(GUARD_DELAY)];
    var stream := StreamEvents(speaker, timing, sound, counter, base, len as int);
    var t := prefix + PlaySoundTrace(amp, speaker, timing, len, sound, counter, base);
    StreamEventsBounded(speaker, timing, sound, counter, base, len as int);
    assert t == prefix + head + stream + [Delayed(GUARD_DELAY), DigitalWritten(amp, Low)];
    assert LastLevel(prefix + head, amp) == Some(High) by {
      assert (prefix + head)[..|prefix + head| - 1] == prefix + [DigitalWritten(amp, High)];
    }
    forall k | |prefix| <= k < |t| && t[k].AnalogWritten?
      ensures LastLevel(t[..k], amp) == Some(High)
    {
      var m := k - |prefix| - 2;
      assert 0 <= m < |stream|;
      assert t[..k] == prefix + head + stream[..m];
      forall e | e in stream[..m] ensures KeepsLevel(e, amp) {
        assert e in stream;
      }
      LastLevelAppend(prefix + head, stream[..m], amp);
    }
  }

  /** Whatever was issued before, after `playSound` the amplifier-enable pin was
      last driven low. */
  lemma AmplifierOffAfterPlay(prefix: seq<Event>, amp: uint8, speaker: uint8, timing: uint8, len: uint16,
                              sound: seq<uint8>, counter: seq<uint32>, base: nat)
    requires len as int <= |sound| && base + 2 * len as int <= |counter|
    ensures LastLevel(prefix + PlaySoundTrace(amp, speaker, timing, len, sound, counter, base), amp) == Some(Low)
  {
    var t := prefix + PlaySoundTrace(amp, speaker, timing, len, sound, counter, base);
    assert t[|t| - 1] == DigitalWritten(amp, Low);
  }

  // ---------------------------------------------------------------------------
  // init

  /** `init` makes both pins outputs, writes nothing to the speaker and leaves
      the amplifier off, whatever was issued before. */
  lemma InitLeavesAmplifierOff(prefix: seq<Event>, amp: uint8, speaker: uint8)
    ensures var t := InitTrace(amp, speaker);
      && Configured(amp, Output) in t && Configured(speaker, Output) in t
      && AnalogWrites(t) == []
      && LastLevel(prefix + t, amp) == Some(Low)
  {
    var t := InitTrace(amp, speaker);
    NoAnalogWrites(t);
    assert (prefix + t)[|prefix + t| - 1] == DigitalWritten(amp, Low);
  }

  // ---------------------------------------------------------------------------
  // Scenarios

  /** Two samples 0 and 255 at 100 microseconds: the counter shows 55 when the
      first sample is due, so the loop waits 45; the write is read back at 101
      and the second sample is due at 110, so it waits 91. */
  lemma ScenarioShortTable(amp: uint8, speaker: uint8)
    ensures PlaySoundTrace(amp, speaker, 100, 2, [0, 255], [0, 55, 101, 110, 202], 0)
         == [DigitalWritten(amp, High), Delayed(50),
             Delayed(45), AnalogWritten(speaker, 0),
             Delayed(91), AnalogWritten(speaker, 4095),
             Delayed(50), DigitalWritten(amp, Low)]
  {
    var counter: seq<uint32> := [0, 55, 101, 110, 202];
    var sound: seq<uint8> := [0, 255];
    assert SampleAt(speaker, 100, sound, counter, 0, 0) == [Delayed(45), AnalogWritten(speaker, 0)];
    assert SampleAt(speaker, 100, sound, counter, 0, 1) == [Delayed(91), AnalogWritten(speaker, 4095)];
    assert StreamEvents(speaker, 100, sound, counter, 0, 1) == SampleAt(speaker, 100, sound, counter, 0, 0);
  }

  /** The counter wraps between the two readings of the first pass, which the
      guard delay keeps at least 50 microseconds apart: from 2^32 - 10 to 60 is
      70 microseconds, so the loop waits the remaining 30. The second pass reads
      300 microseconds elapsed and writes at once. */
  lemma ScenarioCounterWraps(amp: uint8, speaker: uint8)
    ensures PlaySoundTrace(amp, speaker, 100, 2, [17, 34], [TWO_32 - 10, 60, 65, 365, 370], 0)
         == [DigitalWritten(amp, High), Delayed(50),
             Delayed(30), AnalogWritten(speaker, 273),
             AnalogWritten(speaker, 546),
             Delayed(50), DigitalWritten(amp, Low)]
  {
    var counter: seq<uint32> := [TWO_32 - 10, 60, 65, 365, 370];
    var sound: seq<uint8> := [17, 34];
    assert Sub32(60, TWO_32 - 10) == 70;
    assert SampleAt(speaker, 100, sound, counter, 0, 0) == [Delayed(30), AnalogWritten(speaker, 273)];
    assert SampleAt(speaker, 100, sound, counter, 0, 1) == [AnalogWritten(speaker, 546)];
    assert StreamEvents(speaker, 100, sound, counter, 0, 1) == SampleAt(speaker, 100, sound, counter, 0, 0);
  }
}
