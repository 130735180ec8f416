/** The shared low-frequency oscillator of the modulated effects (Common/Utils.cpp).
    `sinf` is the platform sine; it is a parameter because the model does not
    interpret it. */
module Lfo {

  datatype Waveform = Sine | Triangle | Sawtooth | InverseSawtooth

  /** The index of each waveform in the "LFO waveform" choice parameter. */
  function WaveformIndex(w: Waveform): (i: int)
    ensures 0 <= i <= 3
  {
    match w
    case Sine => 0
    case Triangle => 1
    case Sawtooth => 2
    case InverseSawtooth => 3
  }

  const TwoPi: real := 2.0 * 3.1415926535

  /** The piecewise waveform. It does not wrap its phase; callers must. */
  function Lfo(phase: real, waveform: Waveform, sinf: real -> real): (r: real)
    ensures waveform != Sine && 0.0 <= phase < 1.0 ==> 0.0 <= r <= 1.0
    ensures waveform == Sine && -1.0 <= sinf(TwoPi * phase) <= 1.0 ==> 0.0 <= r <= 1.0
    ensures waveform != Sine && 0.0 <= phase < 1.75 ==> -0.25 <= r < 2.0
  {
    match waveform
    case Sine => 0.5 + 0.5 * sinf(TwoPi * phase)
    case Triangle =>
      if phase < 0.25 then 0.5 + 2.0 * phase
      else if phase < 0.75 then 1.0 - 2.0 * (phase - 0.25)
      else 2.0 * (phase - 0.75)
    case Sawtooth =>
      if phase < 0.5 then 0.5 + phase else phase - 0.5
    case InverseSawtooth =>
      if phase < 0.5 then 0.5 - phase else 1.5 - phase
  }

  /** Every waveform starts at its mid value. */
  lemma StartsAtHalf(waveform: Waveform, sinf: real -> real)
    requires waveform == Sine ==> sinf(0.0) == 0.0
    ensures Lfo(0.0, waveform, sinf) == 0.5
  {
  }

  /** The triangle peaks at a quarter period, bottoms at three quarters, and
      the branch on each side of both breakpoints meets the other. */
  lemma TriangleBreakpoints(sinf: real -> real)
    ensures Lfo(0.25, Triangle, sinf) == 1.0 == 0.5 + 2.0 * 0.25
    ensures Lfo(0.75, Triangle, sinf) == 0.0 == 1.0 - 2.0 * (0.75 - 0.25)
  {
  }

  /** The two sawtooths are mirror images: they always add up to one. */
  lemma SawtoothsComplement(phase: real, sinf: real -> real)
    ensures Lfo(phase, Sawtooth, sinf) + Lfo(phase, InverseSawtooth, sinf) == 1.0
  {
  }

  /** Without wrapping, the triangle leaves the unit interval past 1.25. */
  lemma TriangleUnwrapped(phase: real, sinf: real -> real)
    requires phase > 1.25
    ensures Lfo(phase, Triangle, sinf) > 1.0
  {
  }
}
