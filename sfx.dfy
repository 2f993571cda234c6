/** The sound-effect driver: an amplifier-enable pin, a speaker pin driven by a
    12-bit analog output, and a playback loop over 8-bit sample tables. */
module Sfx {
  import opened MachineInt
  import opened Wiring

  /** The guard delay around playback, in microseconds. */
  const GUARD_DELAY: uint32 := 50

  /** A sound effect: the interval between samples in microseconds, the number
      of samples to play and the sample table. */
  datatype SoundTable = SoundTable(timing: uint8, len: uint16, samples: seq<uint8>)
  {
    predicate WellFormed()
    {
      len as int <= |samples|
    }
  }

  /** An 8-bit sample carried onto the 12-bit output range: the exact ratio
      s * 4095 / 255, rounded down. */
  function Rescale(s: uint8): (r: uint32)
    ensures r <= 4095
    ensures r * 255 <= s * 4095 < (r + 1) * 255
  {
    s * 4095 / 255
  }

  /** What one pass of the playback loop issues, given the reading `last` taken
      after the previous write and the reading `now`: a wait of `timing` less the
      elapsed `now - last` (on 32 bits), only when that is short of `timing`,
      then the rescaled sample. */
  function SampleStep(speaker: uint8, timing: uint8, s: uint8, last: uint32, now: uint32): seq<Event>
  {
    var diff := Sub32(now, last);
    (if diff < timing then [Delayed(Sub32(timing, diff))] else []) + [AnalogWritten(speaker, Rescale(s))]
  }

  /** Pass `k` of the loop whose first clock reading is `counter[base]`: every
      pass takes two readings, one before its write and one after it. */
  function SampleAt(speaker: uint8, timing: uint8, sound: seq<uint8>, counter: seq<uint32>, base: nat, k: nat): seq<Event>
    requires k < |sound| && base + 2 * k + 1 < |counter|
  {
    SampleStep(speaker, timing, sound[k], counter[base + 2 * k], counter[base + 2 * k + 1])
  }

  /** The events of the first `n` passes of the playback loop. */
  function StreamEvents(speaker: uint8, timing: uint8, sound: seq<uint8>, counter: seq<uint32>, base: nat, n: nat): seq<Event>
    requires n <= |sound| && base + 2 * n <= |counter|
  {
    if n == 0 then []
    else StreamEvents(speaker, timing, sound, counter, base, n - 1) + SampleAt(speaker, timing, sound, counter, base, n - 1)
  }

  /** The whole trace of `playSound` whose first clock reading is `counter[base]`:
      amplifier on, guard delay, the samples, guard delay, amplifier off. */
  function PlaySoundTrace(amp: uint8, speaker: uint8, timing: uint8, len: uint16, sound: seq<uint8>,
                          counter: seq<uint32>, base: nat): seq<Event>
    requires len as int <= |sound| && base + 2 * len as int <= |counter|
  {
    [DigitalWritten(amp, High), Delayed(GUARD_DELAY)]
    + StreamEvents(speaker, timing, sound, counter, base, len as int)
    + [Delayed(GUARD_DELAY), DigitalWritten(amp, Low)]
  }

  /** The trace of `init`. */
  function InitTrace(amp: uint8, speaker: uint8): seq<Event>
  {
    [Configured(amp, Output), Configured(speaker, Output), DigitalWritten(amp, Low)]
  }

  /** One pass of the loop extends the stream: after the events of passes
      0 .. k-1, the optional wait of pass `k` and its write. */
  lemma PassExtendsStream(primed: seq<Event>, passStart: seq<Event>, waited: seq<Event>,
                          speaker: uint8, timing: uint8, sound: seq<uint8>, counter: seq<uint32>, base: nat, k: nat)
    requires k < |sound| && base + 2 * k + 1 < |counter|
    requires passStart == primed + StreamEvents(speaker, timing, sound, counter, base, k)
    requires var diff := Sub32(counter[base + 2 * k + 1], counter[base + 2 * k]);
             if diff < timing then waited == passStart + [Delayed(Sub32(timing, diff))] else waited == passStart
    ensures waited + [AnalogWritten(speaker, Rescale(sound[k]))]
         == primed + StreamEvents(speaker, timing, sound, counter, base, k + 1)
  {
  }

  class SFX {
    var ampEnablePin: uint8
    var speakerPin: uint8

    constructor (ampEnablePin: uint8, speakerPin: uint8)
      ensures this.ampEnablePin == ampEnablePin && this.speakerPin == speakerPin
    {
      this.ampEnablePin := ampEnablePin;
      this.speakerPin := speakerPin;
    }

    /** Both pins become outputs and the amplifier is left off. */
    method Init(board: Board) returns (ok: bool)
      modifies board
      ensures ok
      ensures board.trace == old(board.trace) + InitTrace(ampEnablePin, speakerPin)
      ensures board.readings == old(board.readings)
    {
      board.PinMode(ampEnablePin, Output);
      board.PinMode(speakerPin, Output);
      board.DigitalWrite(ampEnablePin, Low);
      return true;
    }

    method PlayBeeps(board: Board, beeps: SoundTable) returns (ok: bool)
      requires beeps.WellFormed()
      requires board.readings + 1 + 2 * beeps.len as int <= |board.counter|
      modifies board
      ensures ok
      ensures board.readings == old(board.readings) + 1 + 2 * beeps.len as int
      ensures board.trace == old(board.trace)
        + PlaySoundTrace(ampEnablePin, speakerPin, beeps.timing, beeps.len, beeps.samples, board.counter, old(board.readings))
    {
      ok := PlaySound(board, beeps.timing, beeps.len, beeps.samples);
    }

    method PlayAlert(board: Board, alert: SoundTable) returns (ok: bool)
      requires alert.WellFormed()
      requires board.readings + 1 + 2 * alert.len as int <= |board.counter|
      modifies board
      ensures ok
      ensures board.readings == old(board.readings) + 1 + 2 * alert.len as int
      ensures board.trace == old(board.trace)
        + PlaySoundTrace(ampEnablePin, speakerPin, alert.timing, alert.len, alert.samples, board.counter, old(board.readings))
    {
      ok := PlaySound(board, alert.timing, alert.len, alert.samples);
    }

    /** Plays the first `len` samples of `sound`, at most one every `timing`
        microseconds by the counter, between the two guard delays. */
    method PlaySound(board: Board, timing: uint8, len: uint16, sound: seq<uint8>) returns (ok: bool)
      requires len as int <= |sound|
      requires board.readings + 1 + 2 * len as int <= |board.counter|
      modifies board
      ensures ok
      ensures board.readings == old(board.readings) + 1 + 2 * len as int
      ensures board.trace == old(board.trace)
        + PlaySoundTrace(ampEnablePin, speakerPin, timing, len, sound, board.counter, old(board.readings))
    {
      ghost var base := board.readings;
      var lastWrite := board.Micros();
      var now: uint32, diff: uint32;
      var i: uint16 := 0;
      var value: uint32;

      board.DigitalWrite(ampEnablePin, High);
      board.DelayMicroseconds(GUARD_DELAY);
      ghost var primed := board.trace;

      while i < len
        invariant i <= len
        invariant board.readings == base + 1 + 2 * i as int
        invariant lastWrite == board.counter[base + 2 * i as int]
        invariant board.trace == primed + StreamEvents(speakerPin, timing, sound, board.counter, base, i as int)
      {
        ghost var k, passStart := i as int, board.trace;
        value := Rescale(sound[i]);
        i := i + 1;

        now := board.Micros();
        diff := Sub32(now, lastWrite);
        if diff < timing {
          board.DelayMicroseconds(Sub32(timing, diff));
        }
        PassExtendsStream(primed, passStart, board.trace, speakerPin, timing, sound, board.counter, base, k);

        board.AnalogWrite(speakerPin, value);
        lastWrite := board.Micros();
      }

      board.DelayMicroseconds(GUARD_DELAY);
      board.DigitalWrite(ampEnablePin, Low);
      return true;
    }
  }
}
