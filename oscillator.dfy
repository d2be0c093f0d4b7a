/** The sine oscillator of DSP.c: the lookup table `lookupSine` fills, the
    `linearInterpolation` between neighbouring entries, and the phase
    accumulator of the generation loop, which advances by a fixed increment
    and wraps with one conditional subtraction. */
module Oscillator {
  import opened Config
  import opened MathLib

  // ------- Sine table (lookupSine) -------

  /** The angle of table entry i, 2π·i / NUM_SAMPLES. */
  function Angle(m: Libm, i: int): real
  {
    2.0 * m.pi * i as real / NumSamples as real
  }

  /** Table entry i: mainVol · sin(2π·i / NUM_SAMPLES). */
  function SineEntry(m: Libm, mainVol: real, i: int): real
  {
    mainVol * m.sin(Angle(m, i))
  }

  /** The whole table, one period of the sine. */
  function SineTable(m: Libm, mainVol: real): seq<real>
  {
    seq(NumSamples, i => SineEntry(m, mainVol, i))
  }

  /** Fills the table one entry per iteration. */
  method LookupSine(sineWave: array<real>, m: Libm, mainVol: real)
    requires sineWave.Length == NumSamples
    modifies sineWave
    ensures sineWave[..] == SineTable(m, mainVol)
  {
    var sample: uint16 := 0;
    while sample < NumSamples
      invariant 0 <= sample <= NumSamples
      invariant forall i :: 0 <= i < sample ==> sineWave[i] == SineEntry(m, mainVol, i)
    {
      var angle := 2.0 * m.pi * sample as real / NumSamples as real;
      assert angle == Angle(m, sample);
      assert m.sin(angle) == m.sin(Angle(m, sample));
      sineWave[sample] := mainVol * m.sin(angle);
      sample := sample + 1;
    }
  }

  // ------- Table lookup (linearInterpolation) -------

  /** `(phaseInt + 1) & (NUM_SAMPLES - 1)`, stored in a `u_int16_t`: because
      the table length is a power of two, the successor index modulo the table
      length. */
  function NextIndex(phaseInt: uint16): (r: uint16)
    ensures r == (phaseInt + 1) % NumSamples
  {
    NumSamplesIsPowerOfTwo();
    MaskIsMod(phaseInt + 1, NumSamples);
    And(phaseInt + 1, NumSamples - 1) % U16Limit
  }

  function Min(x: real, y: real): real
  {
    if x <= y then x else y
  }

  function Max(x: real, y: real): real
  {
    if x <= y then y else x
  }

  /** The table value at fractional index phaseInt + phaseFrac, interpolated
      linearly between entry phaseInt and its (wrapping) successor. At fraction
      0 and 1 it is exactly the entry and its successor, at 0.5 their mean, and
      for a fraction in [0, 1] it lies between the two. */
  function LinearInterpolation(phaseFrac: real, phaseInt: uint16, sineTable: seq<real>): (r: real)
    requires |sineTable| == NumSamples && phaseInt < NumSamples
    ensures phaseFrac == 0.0 ==> r == sineTable[phaseInt]
    ensures phaseFrac == 1.0 ==> r == sineTable[(phaseInt + 1) % NumSamples]
    ensures phaseFrac == 0.5 ==> r == (sineTable[phaseInt] + sineTable[(phaseInt + 1) % NumSamples]) / 2.0
    ensures 0.0 <= phaseFrac <= 1.0 ==>
              Min(sineTable[phaseInt], sineTable[(phaseInt + 1) % NumSamples]) <= r
              <= Max(sineTable[phaseInt], sineTable[(phaseInt + 1) % NumSamples])
  {
    InterpolationWithin(phaseFrac, sineTable[phaseInt], sineTable[NextIndex(phaseInt)]);
    sineTable[phaseInt] + phaseFrac * (sineTable[NextIndex(phaseInt)] - sineTable[phaseInt])
  }

  lemma MulNonNegative(a: real, b: real)
    requires 0.0 <= a && 0.0 <= b
    ensures 0.0 <= a * b
  {
  }

  lemma InterpolationWithin(f: real, c: real, n: real)
    ensures 0.0 <= f <= 1.0 ==> Min(c, n) <= c + f * (n - c) <= Max(c, n)
  {
    if 0.0 <= f <= 1.0 {
      var d := n - c;
      if 0.0 <= d {
        MulNonNegative(f, d);
        MulNonNegative(1.0 - f, d);
        assert (1.0 - f) * d == d - f * d;
      } else {
        MulNonNegative(f, -d);
        MulNonNegative(1.0 - f, -d);
        assert f * (-d) == -(f * d);
        assert (1.0 - f) * (-d) == f * d - d;
      }
    }
  }

  // ------- The phase accumulator -------

  const TableLength: real := NumSamples as real

  /** The increment in table entries per output sample,
      `(NUM_SAMPLES / SAMPLE_RATE) * freq`; below the sample rate it stays
      below the table length, as the single-subtraction wrap needs. */
  function PhaseIncrement(freq: real): (r: real)
    ensures 0.0 <= freq < SampleRate as real ==> 0.0 <= r < TableLength
    ensures 0.0 <= freq ==> 0.0 <= r
  {
    (NumSamples as real / SampleRate as real) * freq
  }

  /** x reduced into [0, NUM_SAMPLES): what a modulus by the table length
      would give. */
  function WrapToTable(x: real): (r: real)
    ensures 0.0 <= r < TableLength
  {
    x - TableLength * (x / TableLength).Floor as real
  }

  /** One step of the accumulator: add the increment, and subtract the table
      length once if the phase reached it. For a phase in the table and an
      increment shorter than the table this is the modulus, so the phase
      never leaves [0, NUM_SAMPLES). */
  function AdvancePhase(phase: real, increment: real): (r: real)
    ensures 0.0 <= phase < TableLength && 0.0 <= increment < TableLength ==>
              0.0 <= r < TableLength && r == WrapToTable(phase + increment)
  {
    var next := phase + increment;
    SubtractOnceIsWrap(next);
    if next >= TableLength then next - TableLength else next
  }

  lemma SubtractOnceIsWrap(x: real)
    ensures 0.0 <= x < 2.0 * TableLength ==>
              WrapToTable(x) == if x >= TableLength then x - TableLength else x
  {
    if 0.0 <= x < 2.0 * TableLength {
      if x >= TableLength {
        WrapShift(x - TableLength, 1);
      } else {
        WrapShift(x, 0);
      }
    }
  }

  /** Adding k table lengths does not change the wrapped value; a value
      already in the table wraps to itself. */
  lemma WrapShift(x: real, k: int)
    requires 0.0 <= x < TableLength
    ensures WrapToTable(x + TableLength * k as real) == x
  {
    var y := x + TableLength * k as real;
    assert y / TableLength == x / TableLength + k as real;
    assert (y / TableLength).Floor == k;
  }

  lemma WrapAdd(x: real, y: real)
    ensures WrapToTable(WrapToTable(x) + y) == WrapToTable(x + y)
  {
    var k := (x / TableLength).Floor;
    var s := WrapToTable(x) + y;
    assert s == x + y - TableLength * k as real;
    var w := WrapToTable(x + y);
    var j := ((x + y) / TableLength).Floor;
    assert x + y == w + TableLength * j as real;
    var shifted := w + TableLength * (j - k) as real;
    assert s == shifted;
    WrapShift(w, j - k);
    assert WrapToTable(s) == WrapToTable(shifted) == w;
  }

  /** The phase of a channel after n samples, starting from 0. */
  function PhaseAt(increment: real, n: nat): (p: real)
    ensures 0.0 <= increment < TableLength ==> 0.0 <= p < TableLength
  {
    if n == 0 then 0.0 else AdvancePhase(PhaseAt(increment, n - 1), increment)
  }

  /** The increment added n times, with no wrapping. */
  function Accumulated(increment: real, n: nat): real
  {
    if n == 0 then 0.0 else Accumulated(increment, n - 1) + increment
  }

  lemma {:induction false} AccumulatedIsProduct(increment: real, n: nat)
    ensures Accumulated(increment, n) == n as real * increment
  {
    if n > 0 {
      AccumulatedIsProduct(increment, n - 1);
      OneMoreStep(n, increment);
    }
  }

  lemma OneMoreStep(n: nat, increment: real)
    requires n >= 1
    ensures (n - 1) as real * increment + increment == n as real * increment
  {
    var k := (n - 1) as real;
    assert k + 1.0 == n as real;
    assert k * increment + 1.0 * increment == (k + 1.0) * increment;
  }

  /** The accumulated phase is exactly n · increment reduced modulo the table
      length: the single conditional subtraction loses nothing, for any number
      of consecutive advances. */
  lemma {:induction false} PhaseAtIsWrapped(increment: real, n: nat)
    requires 0.0 <= increment < TableLength
    ensures PhaseAt(increment, n) == WrapToTable(Accumulated(increment, n))
    ensures Accumulated(increment, n) == n as real * increment
  {
    AccumulatedIsProduct(increment, n);
    if n == 0 {
      WrapShift(0.0, 0);
      assert 0.0 + TableLength * 0 as real == 0.0;
    } else {
      PhaseAtIsWrapped(increment, n - 1);
      WrapAdd(Accumulated(increment, n - 1), increment);
    }
  }

  /** `phaseInt = (u_int16_t) phase` and `phaseFrac = phase - phaseInt`: for a
      phase inside the table, a valid table index and a fraction in [0, 1). */
  function SplitPhase(phase: real): (r: (uint16, real))
    requires 0.0 <= phase < TableLength
    ensures r.0 < NumSamples && 0.0 <= r.1 < 1.0 && r.0 as real + r.1 == phase
  {
    var phaseInt: uint16 := TruncateTowardZero(phase);
    (phaseInt, phase - phaseInt as real)
  }

  /** The oscillator's output at sample n: the table interpolated at the phase
      reached after n advances. */
  function OscillatorSample(m: Libm, mainVol: real, increment: real, n: nat): real
    requires 0.0 <= increment < TableLength
  {
    var split := SplitPhase(PhaseAt(increment, n));
    LinearInterpolation(split.1, split.0, SineTable(m, mainVol))
  }
}
