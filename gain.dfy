/** `setVolume` of DSP.c: converts a gain in dB to a linear factor and ramps
    logarithmically from a remembered state. The state is one `static double
    gainState`, shared by every caller, and what it remembers is the dB
    argument of the last call, not a linear gain. */
module Gain {
  import opened Config
  import opened MathLib

  /** The linear factor of a gain in dB, 10^(dB/20). */
  function LinearGain(m: Libm, gain: real): real
  {
    m.pow(10.0, gain / 20.0)
  }

  /** What `setVolume(gain)` returns when the stored state is gainState: the
      logarithmic interpolation linearGain · (gainState / linearGain)^0.5 when
      the state is positive, and the plain linear gain otherwise. */
  function InterpGain(m: Libm, gainState: real, gain: real): real
    requires gainState > 0.0 ==> LinearGain(m, gain) != 0.0
  {
    if gainState > 0.0
    then LinearGain(m, gain) * m.pow(gainState / LinearGain(m, gain), VolumeInterpolation)
    else LinearGain(m, gain)
  }

  /** The results of successive calls `setVolume(gains[0])`, `setVolume(gains[1])`,
      …, starting from the stored state gainState. A call that ramps divides by
      its linear gain, which must not be 0 (10^x never is). */
  function Volumes(m: Libm, gainState: real, gains: seq<real>): (r: seq<real>)
    requires gainState > 0.0 && |gains| > 0 ==> LinearGain(m, gains[0]) != 0.0
    requires forall i :: 1 <= i < |gains| && gains[i - 1] > 0.0 ==> LinearGain(m, gains[i]) != 0.0
    ensures |r| == |gains|
    decreases |gains|
  {
    if gains == [] then []
    else [InterpGain(m, gainState, gains[0])] + Volumes(m, gains[0], gains[1..])
  }

  /** Because the state holds the last dB argument, a run of calls whose dB
      arguments are all non-positive, from a non-positive state (the initial 0
      among them), never ramps: every call returns exactly 10^(gain/20). */
  lemma {:induction false} NonPositiveGainsNeverRamp(m: Libm, gainState: real, gains: seq<real>)
    requires gainState <= 0.0
    requires forall i :: 0 <= i < |gains| ==> gains[i] <= 0.0
    ensures forall i :: 0 <= i < |gains| ==> Volumes(m, gainState, gains)[i] == LinearGain(m, gains[i])
    decreases |gains|
  {
    if gains != [] {
      var rest := gains[1..];
      NonPositiveGainsNeverRamp(m, gains[0], rest);
      assert Volumes(m, gainState, gains)
          == [LinearGain(m, gains[0])] + Volumes(m, gains[0], rest);
    }
  }

  /** Called twice in succession with the same non-positive dB target, the
      second call returns exactly the target's linear gain. (For a positive
      target the stored dB figure makes the second call ramp.) */
  lemma RepeatedTarget(m: Libm, gain: real)
    requires gain <= 0.0
    ensures Volumes(m, 0.0, [gain, gain]) == [LinearGain(m, gain), LinearGain(m, gain)]
  {
    NonPositiveGainsNeverRamp(m, 0.0, [gain, gain]);
  }

  /** The `static double gainState` of setVolume. One object is shared by both
      channels, as the one static variable is. */
  class GainMemory {
    var gainState: real

    /** `static double gainState = 0`. */
    constructor ()
      ensures gainState == 0.0
    {
      gainState := 0.0;
    }

    /** Returns the ramped gain for a dB argument and stores that dB argument. */
    method SetVolume(m: Libm, gain: real) returns (interpGain: real)
      requires gainState > 0.0 ==> LinearGain(m, gain) != 0.0
      modifies this
      ensures interpGain == InterpGain(m, old(gainState), gain)
      ensures old(gainState) <= 0.0 ==> interpGain == LinearGain(m, gain)
      ensures gainState == gain
    {
      var linearGain := m.pow(10.0, gain / 20.0);
      interpGain := if gainState > 0.0
                    then linearGain * m.pow(gainState / linearGain, VolumeInterpolation)
                    else linearGain;
      gainState := gain;
    }
  }
}
