/** The generation pipeline of DSP.c: `setupAudioStream` runs the oscillator,
    the filter and the gain for each sample and each channel, in that order,
    and stores the result in the channel-interleaved buffer; `setup` wires it
    to the header. */
module Generator {
  import opened Config
  import opened MathLib
  import opened Biquad
  import opened Oscillator
  import opened Gain
  import opened WavHeader

  /** The dB gain of a channel: `channel == 0 ? VOLUME1 : VOLUME2`. */
  function VolumeFor(channel: nat): real
  {
    if channel == 0 then Volume1 else Volume2
  }

  /** The frequency of a channel: `channel == 0 ? FREQUENCY1 : FREQUENCY2`. */
  function FrequencyFor(channel: nat): (f: real)
    ensures 0.0 <= f < SampleRate as real
  {
    if channel == 0 then Frequency1 else Frequency2
  }

  /** `interIndex = (sample * NUM_CHANNELS) + channel`, stored in a
      `u_int16_t`. Over the loop ranges it does not wrap, stays below the
      buffer length `NUM_SAMPLES * NUM_CHANNELS`, and gives back sample and
      channel by division and remainder, so distinct (sample, channel) pairs
      get distinct slots. */
  function InterleaveIndex(sample: nat, channel: nat): (k: uint16)
    requires sample < NumSamples && channel < NumChannels
    ensures k < NumSamples * NumChannels
    ensures k / NumChannels == sample && k % NumChannels == channel
  {
    DivModUnique(sample * NumChannels + channel, NumChannels, sample, channel);
    (sample * NumChannels + channel) % U16Limit
  }

  /** Every buffer slot is the interleave index of exactly one (sample,
      channel) pair. */
  lemma InterleaveIsOnto(k: nat)
    requires k < NumSamples * NumChannels
    ensures k / NumChannels < NumSamples && InterleaveIndex(k / NumChannels, k % NumChannels) == k
  {
  }

  /** `(int32_t) ((vol * filteredValue) * INT32_MAX)`. */
  function PcmSample(vol: real, filteredValue: real): int
  {
    TruncateTowardZero((vol * filteredValue) * Int32Max as real)
  }

  /** The table-index increment of a channel. */
  function IncrementFor(channel: nat): (inc: real)
    ensures 0.0 <= inc < TableLength
  {
    PhaseIncrement(FrequencyFor(channel))
  }

  /** The filter inputs of a channel for its first n samples. */
  function ChannelInputs(m: Libm, mainVol: real, channel: nat, n: nat): (xs: seq<real>)
    ensures |xs| == n
  {
    seq(n, i requires 0 <= i => OscillatorSample(m, mainVol, IncrementFor(channel), i))
  }

  lemma ChannelInputsSnoc(m: Libm, mainVol: real, channel: nat, n: nat)
    ensures ChannelInputs(m, mainVol, channel, n + 1)
         == ChannelInputs(m, mainVol, channel, n) + [OscillatorSample(m, mainVol, IncrementFor(channel), n)]
  {
  }

  /** The value generation stores for one sample of one channel, stated
      independently of the loop: the channel's oscillator over its first
      sample + 1 samples, filtered from a reset history by the cutoff's
      coefficients, scaled by the channel's unramped linear gain. */
  function SampleValue(m: Libm, mainVol: real, cutoffFreq: real, sample: nat, channel: nat): int
    requires Norm(m, cutoffFreq) != 0.0
    requires sample < NumSamples && channel < NumChannels
  {
    var filtered := Run(Design(m, cutoffFreq), Silent, ChannelInputs(m, mainVol, channel, sample + 1));
    PcmSample(LinearGain(m, VolumeFor(channel)), filtered.outputs[sample])
  }

  // ------- One channel, sample by sample, as the loop sees it -------

  /** What the loop keeps per channel between samples: `phase[channel]` and
      the filter history of `state[channel]`. */
  datatype Channel = Channel(phase: real, history: History)

  /** The interpolated table value at the channel's current phase. */
  function TableValue(m: Libm, mainVol: real, ch: Channel): real
    requires 0.0 <= ch.phase < TableLength
  {
    var split := SplitPhase(ch.phase);
    LinearInterpolation(split.1, split.0, SineTable(m, mainVol))
  }

  /** The filter output for the channel's current sample. */
  function Filtered(m: Libm, mainVol: real, cutoffFreq: real, ch: Channel): real
    requires Norm(m, cutoffFreq) != 0.0
    requires 0.0 <= ch.phase < TableLength
  {
    Output(Design(m, cutoffFreq), ch.history, TableValue(m, mainVol, ch))
  }

  /** One iteration of the channel loop body for this channel: the history
      shifts by the table value and the filter output, the phase advances
      and wraps. */
  function Advance(m: Libm, mainVol: real, cutoffFreq: real, channel: nat, ch: Channel): (next: Channel)
    requires Norm(m, cutoffFreq) != 0.0
    requires 0.0 <= ch.phase < TableLength
    ensures 0.0 <= next.phase < TableLength
    ensures next.history.y1 == Filtered(m, mainVol, cutoffFreq, ch)
  {
    var x := TableValue(m, mainVol, ch);
    Channel(AdvancePhase(ch.phase, IncrementFor(channel)),
            Shift(ch.history, x, Filtered(m, mainVol, cutoffFreq, ch)))
  }

  /** The channel after n iterations, from phase 0 and a reset filter. */
  function Generated(m: Libm, mainVol: real, cutoffFreq: real, channel: nat, n: nat): (ch: Channel)
    requires Norm(m, cutoffFreq) != 0.0
    ensures 0.0 <= ch.phase < TableLength
    decreases n, 0
  {
    if n == 0 then Channel(0.0, Silent) else Advanced(m, mainVol, cutoffFreq, channel, n - 1)
  }

  /** The channel after iteration n, that is, Advance applied to the channel
      after n iterations. */
  function Advanced(m: Libm, mainVol: real, cutoffFreq: real, channel: nat, n: nat): (ch: Channel)
    requires Norm(m, cutoffFreq) != 0.0
    ensures 0.0 <= ch.phase < TableLength
    decreases n, 1
  {
    Advance(m, mainVol, cutoffFreq, channel, Generated(m, mainVol, cutoffFreq, channel, n))
  }

  /** The loop's channel state agrees with the reference definitions: its
      phase is the accumulator after n advances, and its history is that of
      the filter run over the channel's first n oscillator samples. */
  lemma {:induction false} GeneratedIsRun(m: Libm, mainVol: real, cutoffFreq: real, channel: nat, n: nat)
    requires Norm(m, cutoffFreq) != 0.0
    ensures Generated(m, mainVol, cutoffFreq, channel, n)
         == Channel(PhaseAt(IncrementFor(channel), n),
                    Run(Design(m, cutoffFreq), Silent, ChannelInputs(m, mainVol, channel, n)).state)
  {
    if n > 0 {
      GeneratedIsRun(m, mainVol, cutoffFreq, channel, n - 1);
      ChannelInputsSnoc(m, mainVol, channel, n - 1);
      RunSnoc(Design(m, cutoffFreq), Silent, ChannelInputs(m, mainVol, channel, n - 1),
              OscillatorSample(m, mainVol, IncrementFor(channel), n - 1));
    }
  }

  /** The value the loop stores for a sample of a channel: the scaled filter
      output, which the history of the next state keeps as its last output. */
  function Stored(m: Libm, mainVol: real, cutoffFreq: real, sample: nat, channel: nat): int
    requires Norm(m, cutoffFreq) != 0.0
  {
    PcmSample(LinearGain(m, VolumeFor(channel)), Generated(m, mainVol, cutoffFreq, channel, sample + 1).history.y1)
  }

  /** The value the loop stores for a sample is SampleValue. */
  lemma StoredIsSampleValue(m: Libm, mainVol: real, cutoffFreq: real, sample: nat, channel: nat)
    requires Norm(m, cutoffFreq) != 0.0
    requires sample < NumSamples && channel < NumChannels
    ensures Stored(m, mainVol, cutoffFreq, sample, channel) == SampleValue(m, mainVol, cutoffFreq, sample, channel)
  {
    GeneratedIsRun(m, mainVol, cutoffFreq, channel, sample);
    ChannelInputsSnoc(m, mainVol, channel, sample);
    RunSnoc(Design(m, cutoffFreq), Silent, ChannelInputs(m, mainVol, channel, sample),
            OscillatorSample(m, mainVol, IncrementFor(channel), sample));
    assert Generated(m, mainVol, cutoffFreq, channel, sample + 1)
        == Advance(m, mainVol, cutoffFreq, channel, Generated(m, mainVol, cutoffFreq, channel, sample));
  }

  /** The whole interleaved buffer: slot k holds sample k / NUM_CHANNELS of
      channel k % NUM_CHANNELS. */
  function Interleaved(m: Libm, mainVol: real, cutoffFreq: real): (e: seq<int>)
    requires Norm(m, cutoffFreq) != 0.0
    ensures |e| == NumSamples * NumChannels
  {
    seq(NumSamples * NumChannels, k requires 0 <= k => Stored(m, mainVol, cutoffFreq, k / NumChannels, k % NumChannels))
  }

  /** Each (sample, channel) pair finds SampleValue at its interleave index. */
  lemma InterleavedIsSampleValue(m: Libm, mainVol: real, cutoffFreq: real)
    requires Norm(m, cutoffFreq) != 0.0
    ensures forall s, c :: 0 <= s < NumSamples && 0 <= c < NumChannels ==>
              Interleaved(m, mainVol, cutoffFreq)[InterleaveIndex(s, c)] == SampleValue(m, mainVol, cutoffFreq, s, c)
  {
    forall s, c | 0 <= s < NumSamples && 0 <= c < NumChannels
      ensures Interleaved(m, mainVol, cutoffFreq)[InterleaveIndex(s, c)] == SampleValue(m, mainVol, cutoffFreq, s, c)
    {
      StoredIsSampleValue(m, mainVol, cutoffFreq, s, c);
    }
  }

  /** A channel that has produced n samples: its phase and its filter history
      are those of Generated, and (once it has run) its coefficients are the
      cutoff's. */
  ghost predicate ChannelAfter(states: array<FilterState>, phase: array<real>, m: Libm, mainVol: real,
                               cutoffFreq: real, channel: nat, n: nat)
    requires channel < states.Length && channel < phase.Length
    requires Norm(m, cutoffFreq) != 0.0
    reads states, states[channel], phase
  {
    && Channel(phase[channel], states[channel].Delays()) == Generated(m, mainVol, cutoffFreq, channel, n)
    && (n > 0 ==> states[channel].Coefficients() == Design(m, cutoffFreq))
  }

  /** One pass of the channel loop body of `setupAudioStream`: re-designs the
      channel's filter, takes the channel's gain, interpolates the table at
      the channel's phase, filters, stores the scaled value at the interleave
      index, and advances the phase. The channel moves from its state after
      `sample` samples to its state after `sample + 1`; of the other
      channel's phase and of the buffer, only its own slot changes. */
  method ChannelSample(st: FilterState, gain: GainMemory, m: Libm, mainVol: real, cutoffFreq: real,
                       sampleDuration: real, sineWave: array<real>, phaseIncrement: array<real>,
                       phase: array<real>, data: array<int>, sample: uint16, channel: uint16)
    returns (interIndex: uint16)
    requires Norm(m, cutoffFreq) != 0.0
    requires sample < NumSamples && channel < NumChannels
    requires sampleDuration == NumSamples as real / SampleRate as real
    requires sineWave.Length == NumSamples && sineWave[..] == SineTable(m, mainVol)
    requires phaseIncrement.Length == NumChannels && phase.Length == NumChannels && phase != phaseIncrement
    requires data.Length == NumSamples * NumChannels
    requires gain.gainState <= 0.0
    requires Channel(phase[channel], st.Delays()) == Generated(m, mainVol, cutoffFreq, channel as nat, sample as nat)
    modifies st, gain, phaseIncrement, phase, data
    ensures Channel(phase[channel], st.Delays()) == Generated(m, mainVol, cutoffFreq, channel as nat, sample as nat + 1)
    ensures st.Coefficients() == Design(m, cutoffFreq)
    ensures gain.gainState == VolumeFor(channel as nat)
    ensures forall i :: 0 <= i < NumChannels && i != channel as int ==> phase[i] == old(phase[i])
    ensures phaseIncrement[channel] == IncrementFor(channel as nat)
    ensures interIndex == InterleaveIndex(sample as nat, channel as nat)
    ensures data[interIndex] == Stored(m, mainVol, cutoffFreq, sample as nat, channel as nat)
    ensures forall k :: 0 <= k < data.Length && k != interIndex as int ==> data[k] == old(data[k])
  {
    ghost var ch := Generated(m, mainVol, cutoffFreq, channel as nat, sample as nat);

    // Set state for each filter channel
    st.SetFilter(m, cutoffFreq);

    var vol := gain.SetVolume(m, if channel == 0 then Volume1 else Volume2);
    var freq := if channel == 0 then Frequency1 else Frequency2;

    phaseIncrement[channel] := sampleDuration * freq;

    interIndex := ((sample * NumChannels) + channel) % U16Limit;
    assert interIndex == InterleaveIndex(sample as nat, channel as nat);

    var phaseInt: uint16 := TruncateTowardZero(phase[channel]);
    var phaseFrac := phase[channel] - phaseInt as real;
    var value := LinearInterpolation(phaseFrac, phaseInt, sineWave[..]);
    assert value == TableValue(m, mainVol, ch);
    var filteredValue := st.ProcessFilter(value);

    assert vol == LinearGain(m, VolumeFor(channel as nat));
    assert filteredValue == Filtered(m, mainVol, cutoffFreq, ch);
    // Scale and store the data
    data[interIndex] := PcmSample(vol, filteredValue);
    ghost var next := Advanced(m, mainVol, cutoffFreq, channel as nat, sample as nat);
    assert next == Generated(m, mainVol, cutoffFreq, channel as nat, sample as nat + 1);
    assert data[interIndex] == Stored(m, mainVol, cutoffFreq, sample as nat, channel as nat);

    phase[channel] := phase[channel] + phaseIncrement[channel];
    if phase[channel] >= TableLength {
      phase[channel] := phase[channel] - TableLength;
    }
  }

  /** One pass of the sample loop of `setupAudioStream`: the channel loop runs
      ChannelSample for channel 0 and then channel 1, so both channels advance
      by one sample and the frame's NUM_CHANNELS consecutive slots are
      written, in channel order; the shared gain state ends at the last
      channel's dB gain. */
  method GenerateFrame(states: array<FilterState>, gain: GainMemory, m: Libm, mainVol: real, cutoffFreq: real,
                       sampleDuration: real, sineWave: array<real>, phaseIncrement: array<real>,
                       phase: array<real>, data: array<int>, sample: uint16)
    returns (ghost slots: seq<nat>)
    requires states.Length == NumChannels && states[0] != states[1]
    requires Norm(m, cutoffFreq) != 0.0
    requires sample < NumSamples
    requires sampleDuration == NumSamples as real / SampleRate as real
    requires sineWave.Length == NumSamples && sineWave[..] == SineTable(m, mainVol)
    requires phaseIncrement.Length == NumChannels && phase.Length == NumChannels
    requires phase != phaseIncrement && sineWave != phase && sineWave != phaseIncrement
    requires data.Length == NumSamples * NumChannels
    requires gain.gainState <= 0.0
    requires ChannelAfter(states, phase, m, mainVol, cutoffFreq, 0, sample)
    requires ChannelAfter(states, phase, m, mainVol, cutoffFreq, 1, sample)
    modifies states[0], states[1], gain, phaseIncrement, phase, data
    ensures ChannelAfter(states, phase, m, mainVol, cutoffFreq, 0, sample as nat + 1)
    ensures ChannelAfter(states, phase, m, mainVol, cutoffFreq, 1, sample as nat + 1)
    ensures gain.gainState == Volume2
    ensures |slots| == NumChannels && forall j :: 0 <= j < NumChannels ==> slots[j] == sample * NumChannels + j
    ensures forall k :: sample * NumChannels <= k < sample * NumChannels + NumChannels ==>
              data[k] == Interleaved(m, mainVol, cutoffFreq)[k]
    ensures forall k :: 0 <= k < data.Length && !(sample * NumChannels <= k < sample * NumChannels + NumChannels) ==>
              data[k] == old(data[k])
  {
    slots := [];
    var channel: uint16 := 0;
    while channel < NumChannels
      invariant 0 <= channel <= NumChannels
      invariant ChannelAfter(states, phase, m, mainVol, cutoffFreq, 0, if 0 < channel then sample + 1 else sample)
      invariant ChannelAfter(states, phase, m, mainVol, cutoffFreq, 1, if 1 < channel then sample + 1 else sample)
      invariant gain.gainState <= 0.0
      invariant channel > 0 ==> gain.gainState == VolumeFor(channel - 1)
      invariant |slots| == channel as int && forall j :: 0 <= j < channel ==> slots[j] == sample * NumChannels + j
      invariant forall k :: sample * NumChannels <= k < sample * NumChannels + channel ==>
                  data[k] == Interleaved(m, mainVol, cutoffFreq)[k]
      invariant forall k :: 0 <= k < data.Length && !(sample * NumChannels <= k < sample * NumChannels + channel) ==>
                  data[k] == old(data[k])
    {
      var interIndex := ChannelSample(states[channel], gain, m, mainVol, cutoffFreq, sampleDuration,
                                      sineWave, phaseIncrement, phase, data, sample, channel);
      slots := slots + [interIndex as nat];
      channel := channel + 1;
    }
  }

  /** The sample loop of `setupAudioStream`: GenerateFrame for sample 0, 1, …,
      NUM_SAMPLES - 1, from both channels reset at phase 0, so that every
      slot of the buffer is written once, in sample-major order. */
  method GenerateFrames(states: array<FilterState>, gain: GainMemory, m: Libm, mainVol: real, cutoffFreq: real,
                        sampleDuration: real, sineWave: array<real>, phaseIncrement: array<real>,
                        phase: array<real>, data: array<int>)
    returns (ghost written: seq<nat>)
    requires states.Length == NumChannels && states[0] != states[1]
    requires Norm(m, cutoffFreq) != 0.0
    requires sampleDuration == NumSamples as real / SampleRate as real
    requires sineWave.Length == NumSamples && sineWave[..] == SineTable(m, mainVol)
    requires phaseIncrement.Length == NumChannels && phase.Length == NumChannels
    requires phase != phaseIncrement && sineWave != phase && sineWave != phaseIncrement
    requires data.Length == NumSamples * NumChannels
    requires gain.gainState <= 0.0
    requires ChannelAfter(states, phase, m, mainVol, cutoffFreq, 0, 0)
    requires ChannelAfter(states, phase, m, mainVol, cutoffFreq, 1, 0)
    modifies states[0], states[1], gain, phaseIncrement, phase, data
    ensures ChannelAfter(states, phase, m, mainVol, cutoffFreq, 0, NumSamples)
    ensures ChannelAfter(states, phase, m, mainVol, cutoffFreq, 1, NumSamples)
    ensures gain.gainState == Volume2
    ensures |written| == NumSamples * NumChannels && forall k :: 0 <= k < |written| ==> written[k] == k
    ensures forall k :: 0 <= k < data.Length ==> data[k] == Interleaved(m, mainVol, cutoffFreq)[k]
  {
    written := [];
    var sample: uint16 := 0;
    while sample < NumSamples
      invariant 0 <= sample <= NumSamples
      invariant sineWave[..] == SineTable(m, mainVol)
      invariant ChannelAfter(states, phase, m, mainVol, cutoffFreq, 0, sample)
      invariant ChannelAfter(states, phase, m, mainVol, cutoffFreq, 1, sample)
      invariant gain.gainState <= 0.0 && (sample > 0 ==> gain.gainState == Volume2)
      invariant |written| == sample * NumChannels && forall k :: 0 <= k < |written| ==> written[k] == k
      invariant forall k :: 0 <= k < sample * NumChannels ==> data[k] == Interleaved(m, mainVol, cutoffFreq)[k]
    {
      var slots := GenerateFrame(states, gain, m, mainVol, cutoffFreq, sampleDuration,
                                 sineWave, phaseIncrement, phase, data, sample);
      written := written + slots;
      sample := sample + 1;
    }
  }

  /** `setupAudioStream` of DSP.c: resets both filters, allocates and fills the
      interleaved buffer (the `malloc` of `header->data`), and leaves the
      shared gain state at the last channel's dB gain. The slots are written
      once each, in sample-major order (`written` lists them as written), and
      slot k holds Interleaved, which InterleavedIsSampleValue relates to
      SampleValue; each filter ends with the cutoff's coefficients and the
      history of its whole run. */
  method SetupAudioStream(states: array<FilterState>, gain: GainMemory, m: Libm, mainVol: real, cutoffFreq: real)
    returns (data: array<int>, ghost written: seq<nat>)
    requires states.Length == NumChannels && states[0] != states[1]
    requires Norm(m, cutoffFreq) != 0.0
    requires gain.gainState <= 0.0
    modifies states[0], states[1], gain
    ensures fresh(data) && data.Length == NumSamples * NumChannels
    ensures |written| == NumSamples * NumChannels && forall k :: 0 <= k < |written| ==> written[k] == k
    ensures forall k :: 0 <= k < data.Length ==> data[k] == Interleaved(m, mainVol, cutoffFreq)[k]
    ensures states[0].Coefficients() == Design(m, cutoffFreq) == states[1].Coefficients()
    ensures states[0].Delays() == Run(Design(m, cutoffFreq), Silent, ChannelInputs(m, mainVol, 0, NumSamples)).state
    ensures states[1].Delays() == Run(Design(m, cutoffFreq), Silent, ChannelInputs(m, mainVol, 1, NumSamples)).state
    ensures gain.gainState == Volume2
  {
    states[0].FilterReset();
    states[1].FilterReset();

    data := new int[NumSamples * NumChannels];

    var sampleDuration := NumSamples as real / SampleRate as real;

    var sineWave := new real[NumSamples];
    var phaseIncrement := new real[NumChannels];
    var phase := new real[NumChannels];
    phase[0], phase[1] := 0.0, 0.0;

    LookupSine(sineWave, m, mainVol);

    written := GenerateFrames(states, gain, m, mainVol, cutoffFreq, sampleDuration, sineWave, phaseIncrement, phase, data);
    GeneratedIsRun(m, mainVol, cutoffFreq, 0, NumSamples);
    GeneratedIsRun(m, mainVol, cutoffFreq, 1, NumSamples);
  }

  /** `setup` of DSP.c: zero-initialised filters for both channels, the PCM
      header, and the generated stream. The header announces exactly the
      payload the stream holds, and every (sample, channel) slot holds
      SampleValue. Writing the file is not part of this model. */
  method Setup(gain: GainMemory, m: Libm, mainVol: real, cutoffFreq: real)
    returns (header: Header, data: array<int>)
    requires Norm(m, cutoffFreq) != 0.0
    requires gain.gainState <= 0.0
    modifies gain
    ensures header == SetupWavFormat()
    ensures fresh(data) && data.Length * (BitsPerSample / 8) == header.subChunk2Size
    ensures forall s, c :: 0 <= s < NumSamples && 0 <= c < NumChannels ==>
              data[InterleaveIndex(s, c)] == SampleValue(m, mainVol, cutoffFreq, s, c)
    ensures gain.gainState == Volume2
  {
    var left := new FilterState();
    var right := new FilterState();
    var state := new FilterState[NumChannels] [left, right];

    header := SetupWavFormat();

    ghost var written;
    data, written := SetupAudioStream(state, gain, m, mainVol, cutoffFreq);
    InterleavedIsSampleValue(m, mainVol, cutoffFreq);
  }
}
