# SFX: a sound-effect driver for a 12-bit analog output

The driver controls two pins: an amplifier-enable pin and a speaker pin fed by a 12-bit analog output.
It plays a sound effect stored as a table of 8-bit samples with a fixed interval between samples.
Playback runs in four stages:
- The amplifier is switched on and given a 50 microsecond guard delay.
- Each sample is rescaled to 12 bits and written. Before each write the driver reads the 32-bit microsecond counter. When less than the interval has passed since the previous write, it waits out the rest of the interval.
- A second 50 microsecond guard delay follows.
- The amplifier is switched off.

`init` configures both pins as outputs and leaves the amplifier off. `playBeeps` and `playAlert` play two fixed tables.

The model is in four modules:
- `MachineInt` (machine_int.dfy) holds the C integer types, `uint32_t` subtraction (which wraps around) and C's signed division (which truncates).
- `Wiring` (wiring.dfy) holds the platform:
  - The `Board` class records every `pinMode`, `digitalWrite`, `analogWrite` and `delayMicroseconds` call as an `Event` on its `trace`.
  - `Board` also supplies the readings of `micros()`. `time[n]` is the absolute time of the n-th reading, and `counter[n]` is the 32-bit value `micros()` shows then, that is `time[n]` modulo 2^32.
  - `Map` is the platform's `map`, in integer arithmetic with truncating division.
- `Sfx` (sfx.dfy) holds the `SFX` class. Its methods follow the driver's code statement by statement and are proved against functions that give the whole trace they issue: `InitTrace` and `PlaySoundTrace`, built from `StreamEvents` and `SampleStep`.
  - One statement differs in form: where the code calls `map(sound[sound_i++], 0, 255, 0, 4095)`, the loop computes `Rescale(sound[i])`. `RescaleIsMap` proves the two equal for every 8-bit sample.
- `SfxProperties` (sfx_properties.dfy) proves what the driver promises about those traces, for every table and every sequence of clock readings.

Three consequences of the code are worth spelling out:
- `map` truncates, so sample 128 becomes 2055 (`RescaleEndpoints`), not the rounded 2064.
- `lastWrite` is read (sfx.cpp:56) before the amplifier goes high and before the guard delay. So the guard delay counts toward the first interval, and the first write waits only for whatever is left of it.
- The interval is a `uint8_t` (sfx.cpp:54), so it is at most 255 microseconds.

## Model

| member | source | states |
|---|---|---|
| MachineInt.Sub32 | sfx.cpp:70 | `now - lastWrite` on `uint32_t`: the result added to `lastWrite` gives `now`, or gives it after one wrap-around; with no wrap it is the plain difference |
| MachineInt.Sub32IsModular | sfx.cpp:70 | the 32-bit difference is the difference modulo 2^32 |
| MachineInt.TruncDiv | sfx.cpp:67 | C's `/`: the remainder is smaller than the divisor in magnitude and takes the dividend's sign |
| Wiring.Map | sfx.cpp:67 | `map` carries an input in range onto the output range, the lower bound onto the lower bound and the upper onto the upper |
| Wiring.Board.PinMode | sfx.cpp:35-36 | `pinMode` appends exactly one configuration event and changes nothing else |
| Wiring.Board.DigitalWrite | sfx.cpp:61 | `digitalWrite` appends exactly one level event and changes nothing else |
| Wiring.Board.AnalogWrite | sfx.cpp:75 | `analogWrite` appends exactly one analog write event and changes nothing else |
| Wiring.Board.DelayMicroseconds | sfx.cpp:72 | `delayMicroseconds` appends exactly one wait event and changes nothing else |
| Wiring.Board.Micros | sfx.cpp:69 | `micros()` returns the next counter reading and consumes it |
| Sfx.Rescale | sfx.cpp:66-67 | the 12-bit value of a sample is in [0, 4095] and is s·4095/255 rounded down |
| Sfx.SampleStep | sfx.cpp:69-75 | one pass of the loop: a wait of `timing - diff` when the 32-bit `diff = now - lastWrite` is below `timing`, then the analog write of the rescaled sample |
| Sfx.StreamEvents | sfx.cpp:64-77 | the events of the first n passes, each pass using its own two clock readings |
| Sfx.PlaySoundTrace | sfx.cpp:54-83 | the whole trace of `playSound`: amplifier high, guard delay, the passes, guard delay, amplifier low |
| Sfx.InitTrace | sfx.cpp:35-39 | the trace of `init`: both pins made outputs, then the amplifier driven low |
| Sfx.SFX.constructor | sfx.cpp:26-30 | the driver stores the two pin numbers and nothing else |
| Sfx.SFX.Init | sfx.cpp:32-42 | `init` issues exactly: amplifier pin output, speaker pin output, amplifier low; it returns true and reads no clock |
| Sfx.SFX.PlaySound | sfx.cpp:54-83 | `playSound` returns true; it issues exactly the trace of `PlaySoundTrace` for the clock readings it consumes, one before the loop and two per sample |
| Sfx.SFX.PlayBeeps | sfx.cpp:44-47 | `playBeeps` is `playSound` on its table |
| Sfx.SFX.PlayAlert | sfx.cpp:49-52 | `playAlert` is `playSound` on its table |
| SfxProperties.RescaleIsMap | sfx.cpp:67 | the driver's `map(s, 0, 255, 0, 4095)` equals `Rescale(s)` for every 8-bit sample |
| SfxProperties.RescaleEndpoints | sfx.cpp:67 | 0 ↦ 0, 255 ↦ 4095 and 128 ↦ 2055 |
| SfxProperties.RescaleIncreasing | sfx.cpp:67 | a larger sample gives an output at least 16 levels higher, so the rescale is strictly increasing |
| SfxProperties.ElapsedOnCounter | sfx.cpp:69-70 | the 32-bit `diff` is the elapsed absolute time modulo 2^32; it is the elapsed time itself across a counter wrap-around, as long as less than 2^32 microseconds passed |
| SfxProperties.SampleStepShape | sfx.cpp:69-75 | one pass ends with the write of its sample; it waits first exactly when `diff < timing`, and the wait is positive, at most `timing`, and equal to `timing - diff` |
| SfxProperties.PassWaitMatchesElapsed | sfx.cpp:69-76 | on a counter that shows absolute time, a pass waits exactly when the real time since the previous write is below `timing`, and then for the rest of the interval |
| SfxProperties.StreamEventsBounded | sfx.cpp:64-77 | the loop issues only speaker writes of 12-bit values and waits in (0, timing], between n and 2n events for n samples |
| SfxProperties.StreamWrites | sfx.cpp:64-77 | the loop's writes are the table's samples, rescaled, in table order, none skipped or repeated |
| SfxProperties.OverrunNeverWaits | sfx.cpp:69-75 | when every pass has already overrun its interval, the loop never waits, and it still writes every sample |
| SfxProperties.PlaySoundFraming | sfx.cpp:61-80 | the trace starts with amplifier high and the guard delay, and ends with the guard delay and amplifier low; in between come only speaker writes and bounded waits |
| SfxProperties.PlaySoundWrites | sfx.cpp:54-83 | `playSound` issues exactly `len` analog writes, all to the speaker pin, the k-th carrying sample k rescaled |
| SfxProperties.PlaySoundWritesIgnoreClock | sfx.cpp:64-77 | which values are written, and in what order, does not depend on the clock readings |
| SfxProperties.PlaySoundEmpty | sfx.cpp:61-80 | an empty table gives exactly amplifier high, guard delay, guard delay, amplifier low |
| SfxProperties.AmplifierOnDuringSamples | sfx.cpp:61-75 | whatever came before, the amplifier-enable pin was last driven high at every sample write |
| SfxProperties.AmplifierOffAfterPlay | sfx.cpp:79-80 | whatever came before, the amplifier-enable pin was last driven low once `playSound` returns |
| SfxProperties.InitLeavesAmplifierOff | sfx.cpp:35-39 | `init` configures both pins as outputs, writes nothing to the speaker and leaves the amplifier low |
| SfxProperties.ScenarioShortTable | sfx.cpp:54-83 | two samples [0, 255] at 100 µs with counter readings 0, 55, 101, 110, 202 give high, 50, wait 45, write 0, wait 91, write 4095, 50, low |
| SfxProperties.ScenarioCounterWraps | sfx.cpp:69-72 | a counter that wraps from 2^32 - 10 to 60 still counts 70 µs elapsed, so the pass waits the remaining 30; a pass 300 µs late writes at once |

## Left out

- Real time: a wait does not advance the counter. The counter readings are an input to the model, one per `micros()` call, and any sequence of readings is allowed. So the model proves what the driver waits for, given what the counter shows. It does not prove how long playback lasts.
- Sfx.SFX.PlaySound: requires that the board still holds the 1 + 2·len counter readings the call will take. The hardware counter never runs out. The model needs the readings as a finite input.
- The contents of `BEEPS`, `ALERT`, their lengths and their intervals, which come from the driver's header `sfx.h`: sfx.h is not part of this model. `PlayBeeps` and `PlayAlert` take their table as a `SoundTable` parameter.
- Wiring.Map: requires `inMin != inMax`. The platform's `map` source is not part of this model, and the driver only calls it with 0 and 255.
- `Map` uses unbounded integers. For the driver's arguments the largest product, 255·4095, fits in 32 bits, so no overflow is left out.
- Blocking and concurrency: playback is a blocking call on a single thread, and the model has no scheduler.
- The electrical behaviour of the amplifier and the analog output.
