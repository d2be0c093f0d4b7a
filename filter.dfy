/** The biquad filter of DSP.c: a `FilterState` record of four history slots
    and five coefficients, changed in place by `filterReset`, `setFilter` and
    `processFilter`. The coefficient design, the difference equation and a run
    of the filter over a signal are pure functions; the class methods are
    proved against them. */
module Biquad {
  import opened Config
  import opened MathLib

  datatype Coeffs = Coeffs(a0: real, a1: real, a2: real, b1: real, b2: real)

  /** The history slots x[n-1], x[n-2], y[n-1], y[n-2]. */
  datatype History = History(x1: real, x2: real, y1: real, y2: real)

  const Silent: History := History(0.0, 0.0, 0.0, 0.0)

  /** The fixed design constant of the z^1 term of the denominator. */
  const DenominatorZ1Factor: real := 135744.0

  // ------- Coefficient design (setFilter) -------

  /** The cutoff as an angle per sample, 2π·f/fs. */
  function NormFreq(m: Libm, frequency: real): real
  {
    2.0 * m.pi * frequency / SampleRate as real
  }

  /** The pre-warped analogue cutoff, 2·fs·tan(π·f/fs). */
  function OmegaC(m: Libm, frequency: real): real
  {
    2.0 * SampleRate as real * m.tan(NormFreq(m, frequency) / 2.0)
  }

  function Z0(m: Libm, frequency: real): real
  {
    m.pow(OmegaC(m, frequency), 2.0)
  }

  function Z1(m: Libm, frequency: real): real
  {
    DenominatorZ1Factor * OmegaC(m, frequency)
  }

  function Z2(m: Libm): real
  {
    m.pow(2.0 * SampleRate as real, 2.0)
  }

  /** The normaliser z0 + z1 + z2 that every coefficient is divided by. */
  function Norm(m: Libm, frequency: real): real
  {
    Z0(m, frequency) + Z1(m, frequency) + Z2(m)
  }

  /** When `pow(x, 2)` is the square x·x, the normaliser is
      ω² + 135744·ω + (2·fs)², a quadratic in ω with no real root
      (135744² < 4·(2·fs)²), so it is positive whatever `tan` returns and
      `setFilter` never divides by zero. */
  lemma NormPositive(m: Libm, frequency: real)
    requires m.pow(OmegaC(m, frequency), 2.0) == OmegaC(m, frequency) * OmegaC(m, frequency)
    requires m.pow(2.0 * SampleRate as real, 2.0) == (2.0 * SampleRate as real) * (2.0 * SampleRate as real)
    ensures Norm(m, frequency) > 0.0
  {
    var w := OmegaC(m, frequency);
    var v := w + DenominatorZ1Factor / 2.0;
    assert Norm(m, frequency) == w * w + DenominatorZ1Factor * w + 9216000000.0;
    assert w * w + DenominatorZ1Factor * w + 9216000000.0 == v * v + 4609391616.0;
    assert v * v >= 0.0;
  }

  /** The coefficients `setFilter` computes. The numerator is a0·(1 - z^-1)^2:
      its taps sum to zero, so a constant input is rejected (a zero at DC), and
      at the Nyquist frequency numerator and denominator agree (unity gain). */
  function Design(m: Libm, frequency: real): (c: Coeffs)
    requires Norm(m, frequency) != 0.0
    ensures c.a2 == c.a0 && c.a1 == -2.0 * c.a0
    ensures c.a0 + c.a1 + c.a2 == 0.0
    ensures c.a0 - c.a1 + c.a2 == 1.0 - c.b1 + c.b2
  {
    var z0, z1, z2 := Z0(m, frequency), Z1(m, frequency), Z2(m);
    var norm := Norm(m, frequency);
    var a0 := z2 / norm;
    NyquistTerms(z0, z1, z2, norm);
    Coeffs(a0, (z2 * -2.0) / norm, a0, (2.0 * z0 - 2.0 * z2) / norm, (z0 - z1 + z2) / norm)
  }

  lemma NyquistTerms(z0: real, z1: real, z2: real, norm: real)
    requires norm == z0 + z1 + z2 && norm != 0.0
    ensures z2 / norm - (z2 * -2.0) / norm + z2 / norm
         == 1.0 - (2.0 * z0 - 2.0 * z2) / norm + (z0 - z1 + z2) / norm
  {
    var a, d := z2 / norm, (z2 * -2.0) / norm;
    var b, c := (2.0 * z0 - 2.0 * z2) / norm, (z0 - z1 + z2) / norm;
    assert a * norm == z2 && d * norm == z2 * -2.0;
    assert b * norm == 2.0 * z0 - 2.0 * z2 && c * norm == z0 - z1 + z2;
    var lhs, rhs := a - d + a, 1.0 - b + c;
    assert lhs * norm == 2.0 * (a * norm) - d * norm == 4.0 * z2;
    assert rhs * norm == norm - b * norm + c * norm == 4.0 * z2;
    assert (lhs - rhs) * norm == 0.0;
    assert lhs - rhs == ((lhs - rhs) * norm) / norm;
  }

  // ------- The difference equation (processFilter) -------

  function Output(c: Coeffs, h: History, input: real): real
  {
    c.a0 * input + c.a1 * h.x1 + c.a2 * h.x2 - c.b1 * h.y1 - c.b2 * h.y2
  }

  /** The history after one sample: x2 ← x1, x1 ← input, y2 ← y1, y1 ← output. */
  function Shift(h: History, input: real, output: real): History
  {
    History(input, h.x1, output, h.y1)
  }

  /** The outputs of a run of the filter and the history it leaves behind. */
  datatype Trace = Trace(outputs: seq<real>, state: History)

  /** Processing the samples xs one at a time, in temporal order, from history h. */
  function Run(c: Coeffs, h: History, xs: seq<real>): (t: Trace)
    ensures |t.outputs| == |xs|
    decreases |xs|
  {
    if xs == [] then Trace([], h)
    else
      var t := Run(c, h, xs[..|xs| - 1]);
      var y := Output(c, t.state, xs[|xs| - 1]);
      Trace(t.outputs + [y], Shift(t.state, xs[|xs| - 1], y))
  }

  /** One more sample extends the run by the difference equation. */
  lemma RunSnoc(c: Coeffs, h: History, xs: seq<real>, x: real)
    ensures Run(c, h, xs + [x]).outputs
         == Run(c, h, xs).outputs + [Output(c, Run(c, h, xs).state, x)]
    ensures Run(c, h, xs + [x]).state
         == Shift(Run(c, h, xs).state, x, Output(c, Run(c, h, xs).state, x))
  {
    assert (xs + [x])[..|xs|] == xs;
  }

  /** The history carries everything: running xs then, from where it stopped,
      ys produces the same outputs and final history as running xs + ys. This is
      why a stream may be filtered in packets with the state kept between them. */
  lemma {:induction false} RunAppend(c: Coeffs, h: History, xs: seq<real>, ys: seq<real>)
    ensures Run(c, h, xs + ys).outputs
         == Run(c, h, xs).outputs + Run(c, Run(c, h, xs).state, ys).outputs
    ensures Run(c, h, xs + ys).state == Run(c, Run(c, h, xs).state, ys).state
    decreases |ys|
  {
    if ys == [] {
      assert xs + ys == xs;
    } else {
      var ys' := ys[..|ys| - 1];
      var y := ys[|ys| - 1];
      assert ys == ys' + [y];
      assert xs + ys == (xs + ys') + [y];
      RunAppend(c, h, xs, ys');
      RunSnoc(c, h, xs + ys', y);
      RunSnoc(c, Run(c, h, xs).state, ys', y);
    }
  }

  function Zeros(n: nat): (z: seq<real>)
  {
    seq(n, _ => 0.0)
  }

  /** A reset filter fed silence stays silent, for any number of samples. */
  lemma {:induction false} SilenceStaysSilent(c: Coeffs, n: nat)
    ensures Run(c, Silent, Zeros(n)) == Trace(Zeros(n), Silent)
  {
    if n > 0 {
      SilenceStaysSilent(c, n - 1);
      assert Zeros(n) == Zeros(n - 1) + [0.0];
      RunSnoc(c, Silent, Zeros(n - 1), 0.0);
    }
  }

  /** A filter whose taps sum to zero, settled on a constant input x, keeps
      producing 0 for as long as the input stays x. */
  lemma {:induction false} ConstantInputRejected(c: Coeffs, x: real, n: nat)
    requires c.a0 + c.a1 + c.a2 == 0.0
    ensures Run(c, History(x, x, 0.0, 0.0), seq(n, _ => x))
         == Trace(Zeros(n), History(x, x, 0.0, 0.0))
  {
    if n > 0 {
      var settled := History(x, x, 0.0, 0.0);
      ConstantInputRejected(c, x, n - 1);
      assert seq(n, _ => x) == seq(n - 1, _ => x) + [x];
      assert Zeros(n) == Zeros(n - 1) + [0.0];
      RunSnoc(c, settled, seq(n - 1, _ => x), x);
      SettledOutput(c, x);
      assert Shift(settled, x, 0.0) == settled;
    }
  }

  /** On the settled history of a constant input, a zero-sum filter outputs 0. */
  lemma SettledOutput(c: Coeffs, x: real)
    requires c.a0 + c.a1 + c.a2 == 0.0
    ensures Output(c, History(x, x, 0.0, 0.0), x) == 0.0
  {
    assert Output(c, History(x, x, 0.0, 0.0), x) == (c.a0 + c.a1 + c.a2) * x;
  }

  /** One channel's filter: the `FilterState` struct with its fields updated in
      place (the unused `inputX3` slot is left out). */
  class FilterState {
    var inputX1: real
    var inputX2: real
    var outputY1: real
    var outputY2: real
    var b1: real
    var b2: real
    var a0: real
    var a1: real
    var a2: real

    function Coefficients(): Coeffs
      reads this
    {
      Coeffs(a0, a1, a2, b1, b2)
    }

    function Delays(): History
      reads this
    {
      History(inputX1, inputX2, outputY1, outputY2)
    }

    /** `FilterState state[NUM_CHANNELS] = {0}`: every field zero. */
    constructor ()
      ensures Coefficients() == Coeffs(0.0, 0.0, 0.0, 0.0, 0.0)
      ensures Delays() == Silent
    {
      inputX1, inputX2, outputY1, outputY2 := 0.0, 0.0, 0.0, 0.0;
      b1, b2, a0, a1, a2 := 0.0, 0.0, 0.0, 0.0, 0.0;
    }

    /** Zeroes the history and leaves the coefficients as they are. */
    method FilterReset()
      modifies this
      ensures Delays() == Silent
      ensures Coefficients() == old(Coefficients())
    {
      inputX2 := 0.0;
      inputX1 := 0.0;
      outputY2 := 0.0;
      outputY1 := 0.0;
    }

    /** Writes the coefficients for a cutoff frequency and leaves the history
        as it is. */
    method SetFilter(m: Libm, frequency: real)
      requires Norm(m, frequency) != 0.0
      modifies this
      ensures Coefficients() == Design(m, frequency)
      ensures Delays() == old(Delays())
      ensures a2 == a0 && a1 == -2.0 * a0 && a0 + a1 + a2 == 0.0
    {
      var normFreq := 2.0 * m.pi * frequency / SampleRate as real;
      var omegaC := 2.0 * SampleRate as real * m.tan(normFreq / 2.0);
      var z0 := m.pow(omegaC, 2.0);
      var z1 := DenominatorZ1Factor * omegaC;
      var z2 := m.pow(2.0 * SampleRate as real, 2.0);
      var norm := z0 + z1 + z2;
      assert normFreq == NormFreq(m, frequency);
      var a0' := z2 / norm;
      a0 := a0';
      a1 := (z2 * -2.0) / norm;
      a2 := a0';
      b1 := (2.0 * z0 - 2.0 * z2) / norm;
      b2 := (z0 - z1 + z2) / norm;
    }

    /** Evaluates the difference equation on one input, then shifts the
        history; the coefficients stay. */
    method ProcessFilter(input: real) returns (output: real)
      modifies this
      ensures output == Output(old(Coefficients()), old(Delays()), input)
      ensures Delays() == Shift(old(Delays()), input, output)
      ensures Coefficients() == old(Coefficients())
    {
      output := a0 * input + a1 * inputX1 + a2 * inputX2 - b1 * outputY1 - b2 * outputY2;
      inputX2 := inputX1;
      inputX1 := input;
      outputY2 := outputY1;
      outputY1 := output;
    }
  }
}
