# High-Pass-Filter: a verified model of the generator core

The program synthesises 1024 frames of two-channel audio and writes them after
a 44-byte RIFF/WAVE PCM header. Each channel runs its own part of the pipeline:

- a sine oscillator reads a 1024-entry lookup table, interpolating linearly
  between entries, with a wrapping phase accumulator;
- a second-order biquad filter, whose coefficients are recomputed from the
  cutoff before every sample;
- a gain in dB, converted to a linear factor.

The result is stored channel-interleaved in one buffer.

This project models that core in Dafny:

- **`Config`** (`config.dfy`): the `#define` constants of DSP.h, C's
  truncating float-to-int conversion, and the bitwise AND used for the table
  index wrap. It proves the mask agrees with the modulus on every index
  exactly when the table length is a power of two. It also holds the packet
  offsets of the packetised driver.
- **`WavHeader`** (`wav_header.dfy`): the `WavHeader` struct as a datatype,
  with a pure little-endian encoder and decoder proved mutually inverse. Also
  the header `setupWavFormat` fills in, and the arithmetic claims of DSP.h's
  comments.
- **`MathLib`** (`math_lib.dfy`): `sin`, `tan`, `pow` and `M_PI`, passed
  around as the fields of one value, so nothing depends on their actual
  values.
- **`Biquad`** (`filter.dfy`): the pure side is the coefficient design, the
  difference equation and a run of the filter over a signal. `FilterState` is
  a class whose methods (`filterReset`, `setFilter`, `processFilter`) change
  its fields in place and are proved against those functions.
- **`Oscillator`** (`oscillator.dfy`): `lookupSine` as a loop filling an
  array, and `linearInterpolation`. Also the phase accumulator and its single
  conditional subtraction, proved to be a reduction modulo the table length.
- **`Gain`** (`gain.dfy`): `setVolume` and its one `static` state, as a class
  with one field. The field stores the dB argument, as the code does. Because
  of that, the ramp never engages for the non-positive volumes used.
- **`Generator`** (`generator.dfy`): `setupAudioStream` and `setup`.
  - The loop nest is split into three methods:
    - `ChannelSample` is the body for one channel;
    - `GenerateFrame` is the channel loop;
    - `GenerateFrames` is the sample loop.
  - Each is proved against `Generated`, the channel state after n samples.
  - Lemmas relate `Generated` to an independent reference definition,
    `SampleValue`. That definition is the oscillator's first samples, run
    through the reset filter, scaled by the channel's gain.
  - `Generated` and `Advanced` are mutually recursive. This keeps the real
    arithmetic of one step from being unfolded where only the loop structure
    matters.

Two points where the code does something other than its names and
declarations suggest; the model follows the code:

- **Filter type.** The repository is called High-Pass-Filter, and the
  coefficient formulas of `setFilter` (DSP.c:117-144) do give a high-pass
  filter: `a0 + a1 + a2 == 0` (a zero at DC) with unity gain at the Nyquist
  frequency. `Biquad.Design` proves both facts.
- **Gain state.** DSP.h declares a per-channel `float gainState[NUM_CHANNELS]`
  in `AudioState` (DSP.h:123) and a `setVolume(float, float *gainState)` that
  takes one channel's state (DSP.h:144). In DSP.c the state is one
  `static double` shared by both channels (DSP.c:97), and it holds the last
  dB argument, not a linear gain (DSP.c:111). `Gain.GainMemory` is shared the
  same way. `Gain.NonPositiveGainsNeverRamp` proves the consequence.

DSP.c and DSP.h are different variants of the program, and the two disagree:

- **`setup` and `setVolume`.** DSP.h declares `setup(header, audioData)`, a
  per-channel `setVolume(float, float*)`, `AudioState` and the packetised
  `setupAudioStream`. The model follows the definitions in DSP.c.
- **Byte layout.** It comes from the `WavHeader` struct of DSP.h, which has
  no `data` pointer.

## Model

| member | source | states |
|---|---|---|
| Config.And | DSP.c:155 | definition: C's `&` on non-negative integers, bit by bit from the lowest; its properties are MaskIsMod and MaskIsModIff |
| Config.TruncateTowardZero | DSP.c:73 | the C conversion drops the fraction toward zero: non-negative inputs give the floor, non-positive ones the ceiling |
| Config.MaskIsMod | DSP.c:155 | for a power of two n, `x & (n - 1)` equals `x % n` for every x |
| Config.MaskNeedsPowerOfTwo | DSP.c:155 | for every table length n ≥ 1 that is not a power of two, the mask sends index n elsewhere than n % n = 0 |
| Config.MaskIsModIff | DSP.c:155 | `x & (n - 1)` equals `x % n` for every index x if and only if n is a power of two |
| Config.NumSamplesIsPowerOfTwo | DSP.h:42 | NUM_SAMPLES = 1024 is a power of two, as the wrap at DSP.c:155 requires |
| Config.PacketOffsets | main.c:19 | definition: the offsets the packet loop visits from a start offset, stepping by PACKET_SIZE while below NUM_SAMPLES; its properties are PacketOffsetsFrom and PacketsTileSamples |
| Config.PacketOffsetsFrom | main.c:19 | the packet loop from offset k·64 visits exactly (k + i)·64 for the remaining i |
| Config.PacketsTileSamples | DSP.h:36 | 64 divides 1024; the offsets are 0, 64, …, 960; every sample lies in exactly one packet, s / 64; offsets stay in `u_int16_t` |
| WavHeader.FromToLittleEndian | DSP.h:58-100 | decoding the little-endian bytes of a fixed-width field gives the value back |
| WavHeader.ToFromLittleEndian | DSP.h:58-100 | encoding the value of any byte string of a width gives the bytes back |
| WavHeader.Encode | DSP.h:58-100 | the serialised header is 44 bytes with the four tags at offsets 0, 8, 12 and 36 |
| WavHeader.Decode | DSP.h:58-100 | a string decodes to a header exactly when it is 44 bytes long |
| WavHeader.DecodeEncode | DSP.h:58-100 | decoding an encoded header gives back every field |
| WavHeader.EncodeDecode | DSP.h:58-100 | every 44-byte string is the encoding of the header it decodes to |
| WavHeader.SetupWavFormat | DSP.c:19-37 | format tag 1; block align = channels · bits/8; byte rate = rate · block align; data size = samples · block align = samples · channels · 4; chunk size = 4 + (8 + fmt size) + (8 + data size) |
| WavHeader.WavFileSize | DSP.h:16-31 | header plus payload is CHUNK_SIZE + 8 = 8236 bytes; the encoded header carries 8192 at offset 40 and CHUNK_SIZE at offset 4 |
| WavHeader.WavTags | DSP.c:21-24 | the bytes of "RIFF", "WAVE", "fmt " and "data" sit at offsets 0, 8, 12 and 36 of the written header |
| Biquad.NormPositive | DSP.c:125-134 | when `pow(x, 2)` is x·x, the normaliser is ω² + 135744·ω + (2·fs)², which has no real root, so it is positive and `setFilter` never divides by zero |
| Biquad.Design | DSP.c:117-144 | a2 = a0 and a1 = -2·a0, so the taps sum to 0 (zero at DC); numerator and denominator agree at the Nyquist frequency (unity gain) |
| Biquad.Output | DSP.c:171-178 | definition: the difference equation a0·in + a1·x1 + a2·x2 − b1·y1 − b2·y2 of `processFilter`; ProcessFilter, RunSnoc and SettledOutput state its properties |
| Biquad.Shift | DSP.c:171-178 | definition: the history update of `processFilter` (x2 = x1, x1 = in, y2 = y1, y1 = out); ProcessFilter and RunSnoc state its use |
| Biquad.Run | DSP.c:170-180 | a run over n inputs yields n outputs |
| Biquad.RunSnoc | DSP.c:170-180 | one more input extends the outputs by the difference equation and shifts the history |
| Biquad.RunAppend | DSP.c:170-180 | filtering xs then ys from the history xs left equals filtering xs + ys: the history carries all state |
| Biquad.SilenceStaysSilent | DSP.c:163-180 | a reset filter fed n zeros outputs n zeros and stays reset |
| Biquad.ConstantInputRejected | DSP.c:134-144 | with taps summing to zero, a filter settled on a constant input outputs 0 for as long as the input stays constant |
| Biquad.SettledOutput | DSP.c:171-172 | on the settled history of a constant input, zero-sum taps output 0 |
| Biquad.FilterState.constructor | DSP.c:7 | `= {0}`: every coefficient and history slot is zero |
| Biquad.FilterState.FilterReset | DSP.c:163-168 | the four history slots become 0; the coefficients are unchanged |
| Biquad.FilterState.SetFilter | DSP.c:117-144 | the coefficients become Design(frequency); the history is unchanged |
| Biquad.FilterState.ProcessFilter | DSP.c:170-180 | returns a0·in + a1·x1 + a2·x2 − b1·y1 − b2·y2; then x2 = old x1, x1 = in, y2 = old y1, y1 = output; the coefficients are unchanged |
| Oscillator.SineTable | DSP.c:150 | definition: the 1024 entries mainVol · sin(2π·i / 1024) that `lookupSine` stores; LookupSine is proved against it |
| Oscillator.LookupSine | DSP.c:147-152 | the array becomes the table mainVol · sin(2π·i / 1024), i = 0 … 1023 |
| Oscillator.NextIndex | DSP.c:155 | the masked successor index is (phaseInt + 1) mod 1024 |
| Oscillator.LinearInterpolation | DSP.c:154-161 | at fraction 0 the entry, at 1 its wrapping successor, at 0.5 their mean; for a fraction in [0, 1] the result lies between the two neighbours |
| Oscillator.InterpolationWithin | DSP.c:158 | c + f·(n − c) lies between c and n for f in [0, 1] |
| Oscillator.PhaseIncrement | DSP.c:67 | below the sample rate, the increment is in [0, 1024) |
| Oscillator.WrapToTable | DSP.c:86-88 | the reduction modulo the table length lands in [0, 1024) |
| Oscillator.AdvancePhase | DSP.c:86-88 | from a phase and an increment in [0, 1024) the advanced phase is again in [0, 1024) and equals (phase + increment) mod 1024 |
| Oscillator.SubtractOnceIsWrap | DSP.c:86-88 | below twice the table length, one conditional subtraction is the modulus |
| Oscillator.WrapShift | DSP.c:86-88 | adding whole table lengths does not change the wrapped phase |
| Oscillator.WrapAdd | DSP.c:86-88 | wrapping before adding the increment gives the same phase as wrapping after |
| Oscillator.PhaseAt | DSP.c:86-88 | after any number of advances the phase stays in [0, 1024) |
| Oscillator.AccumulatedIsProduct | DSP.c:86 | n unwrapped additions of the increment total n · increment |
| Oscillator.PhaseAtIsWrapped | DSP.c:86-88 | after n advances the phase is exactly n · increment mod 1024: the single subtraction loses nothing |
| Oscillator.SplitPhase | DSP.c:73-75 | for a phase in the table, the integer part is a valid index, the fraction is in [0, 1), and they add up to the phase |
| Gain.LinearGain | DSP.c:101 | definition: the dB-to-linear conversion 10^(gain/20) |
| Gain.InterpGain | DSP.c:108-110 | definition: the ramp start·(end/start)^VOLUME_INTERPOLATION when the state is positive, else the linear gain; SetVolume and NonPositiveGainsNeverRamp state its properties |
| Gain.Volumes | DSP.c:95-114 | successive calls return one result per call |
| Gain.NonPositiveGainsNeverRamp | DSP.c:97-113 | from a non-positive state, calls with non-positive dB arguments all return exactly 10^(gain/20): the ramp branch is unreachable |
| Gain.RepeatedTarget | DSP.c:108-111 | two calls with the same non-positive target both return its linear gain |
| Gain.GainMemory.constructor | DSP.c:97 | the static state starts at 0 |
| Gain.GainMemory.SetVolume | DSP.c:95-114 | returns the ramped gain of the old state (the plain linear gain when the old state is ≤ 0) and stores the dB argument |
| Generator.VolumeFor | DSP.c:64 | definition: channel 0 takes VOLUME1, the other channel VOLUME2 |
| Generator.PcmSample | DSP.c:83 | definition: the filtered value, scaled by the channel's gain and INT32_MAX, truncated toward zero as the `(int32_t)` cast does |
| Generator.SampleValue | DSP.c:73-83 | definition, the independent reference: channel c's oscillator samples 0 … s run through the reset filter with the cutoff's coefficients, the last output scaled and truncated; StoredIsSampleValue and InterleavedIsSampleValue tie the loop's values to it |
| Generator.FrequencyFor | DSP.c:65 | each channel's frequency is in [0, SAMPLE_RATE) |
| Generator.InterleaveIndex | DSP.c:70 | the `u_int16_t` index is below NUM_SAMPLES·NUM_CHANNELS and gives back sample and channel by division and remainder, so it is injective |
| Generator.InterleaveIsOnto | DSP.c:70 | every buffer slot is the index of the (sample, channel) pair it decodes to |
| Generator.IncrementFor | DSP.c:67 | each channel's increment is in [0, 1024) |
| Generator.ChannelInputs | DSP.c:73-79 | the filter inputs of a channel for n samples are n values |
| Generator.ChannelInputsSnoc | DSP.c:73-79 | the inputs for n + 1 samples are those for n plus the oscillator's sample n |
| Generator.Advance | DSP.c:60-88 | one loop-body step keeps the phase in [0, 1024) and records the filter output as the newest history output |
| Generator.Generated | DSP.c:57-91 | after n steps from phase 0 and a reset filter, the phase is in [0, 1024) |
| Generator.Advanced | DSP.c:57-91 | the state after step n keeps the phase in [0, 1024) |
| Generator.GeneratedIsRun | DSP.c:57-91 | after n steps the phase is the accumulator after n advances and the history is that of the filter run over the channel's first n oscillator samples |
| Generator.StoredIsSampleValue | DSP.c:83 | the value stored for (sample, channel) is SampleValue: the reference run's output at that sample, scaled by the channel's linear gain and truncated |
| Generator.Interleaved | DSP.c:45 | the buffer holds NUM_SAMPLES·NUM_CHANNELS values |
| Generator.InterleavedIsSampleValue | DSP.c:70-83 | every (sample, channel) pair finds SampleValue at its interleave index |
| Generator.ChannelSample | DSP.c:60-89 | one channel moves from its state after `sample` samples to its state after `sample + 1`; its coefficients are the cutoff's; the gain state is the channel's dB gain; its increment is set; only its own phase and its own slot change, and the slot holds the stored value |
| Generator.GenerateFrame | DSP.c:59-90 | both channels advance by one sample; the frame's two consecutive slots are written in channel order and no other; the gain state ends at VOLUME2 |
| Generator.GenerateFrames | DSP.c:57-91 | both channels end after NUM_SAMPLES samples; the slots are written once each in the order 0, 1, …, 2047, and every slot holds Interleaved |
| Generator.SetupAudioStream | DSP.c:39-92 | fresh buffer of NUM_SAMPLES·NUM_CHANNELS values, all written once in sample-major order; slot k holds Interleaved; each filter has the cutoff's coefficients and the history of its full reference run; the gain state ends at VOLUME2 |
| Generator.Setup | DSP.c:5-17 | the header is SetupWavFormat's, its data size matches the payload's bytes, and every (sample, channel) slot holds SampleValue |

## Left out

- `writeWavFile` (DSP.c:182-197) is file I/O, playback through `system` and `free`. It is not modelled; `WavHeader.Encode` gives the header bytes it would write.
- Byte order: `fwrite` (DSP.c:187-189) writes the header fields and samples in the host's byte order. `WavHeader.Encode` is little-endian, as RIFF requires, so it matches the written file only on a little-endian host; the `afplay` call (DSP.c:193) points to macOS, whose current hosts are little-endian. The sample payload's bytes are not modelled.
- main.c does process entry and `malloc`. The bodies of the packetised `setupAudioStream` and `audioStateReset` are not part of this model. Only the offset tiling of the packet loop is.
- `sin`, `tan`, `pow` and `M_PI` are fields of `MathLib.Libm` with no fixed values, so no claim depends on the numbers they produce.
- Floating point: every `float` and `double` is a Dafny `real`. This leaves out the `(float)` casts on the filter input (DSP.c:79) and the `float` fields of `FilterState`. All rounding is left out.
- Generator.PcmSample: the `(int32_t)` conversion is modelled as truncation toward zero on an unbounded integer. The model does not show that the scaled value fits in 32 bits.
- Biquad.FilterState.SetFilter: requires the normaliser z0 + z1 + z2 to be non-zero. The requires exists only because `pow` is uninterpreted: with `pow(x, 2)` equal to x·x the normaliser is always positive, as `Biquad.NormPositive` proves.
- Gain.GainMemory.SetVolume: when the stored state is positive, it requires 10^(gain/20) to be non-zero. `pow` is uninterpreted, and the ramp branch divides by it.
- The unused `inputX3` history slot and the fixed `A0`…`B2` coefficient macros of DSP.h are not modelled.
- The `data` pointer that DSP.c stores in the header is the returned array of `Generator.SetupAudioStream`, not a header field. With the pointer inside the struct, `fwrite(header, sizeof(WavHeader), …)` would emit more than 44 bytes.
- The stack arrays `sineWave`, `phaseIncrement` and `phase` of `setupAudioStream` are fresh Dafny arrays. The call to `lookupSine` is `Oscillator.LookupSine`. The loop nest is split across `Generator.ChannelSample`, `Generator.GenerateFrame` and `Generator.GenerateFrames`, in the source's statement order.
