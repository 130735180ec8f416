/** The Chorus effect (Chorus/PluginProcessor.cpp): every input channel runs
    through its own circular delay line, read by up to four voices whose read
    points sweep with the LFO at staggered phase offsets; each voice's delayed
    sample is added to the input with the depth and a per-channel weight (or,
    for a stereo pair of voices, replaces it on the second channel). The line
    receives the dry input only. */
module Chorus {
  import opened DelayLine
  import opened Block
  import opened AudioBuffer
  import opened Lfo

  /** Upper ends of the "Delay" and "Width" sliders as they are stored, in
      milliseconds. */
  const MaxDelayMs: real := 50.0
  const MaxWidthMs: real := 50.0

  /** The same upper ends after the slider callback `value * 0.001`, in seconds. */
  const MaxDelaySeconds: real := 0.05
  const MaxWidthSeconds: real := 0.05

  /** The longest delay a voice reads with its LFO phase wrapped: delay plus width. */
  const MaxSweepSeconds: real := MaxDelaySeconds + MaxWidthSeconds

  /** The longest delay a voice reads with its phase left unwrapped: the LFO
      can then return up to 2, so the width counts twice. */
  const MaxReachSeconds: real := MaxDelaySeconds + 2.0 * MaxWidthSeconds

  /** prepareToPlay's delay-line length: the two raw maxima (milliseconds) times
      the sample rate, truncated, plus one, raised to one. */
  function Capacity(sampleRate: real): (n: int)
    requires sampleRate > 0.0
    ensures n >= 1
    ensures (MaxDelayMs + MaxWidthMs) * sampleRate < n as real <= (MaxDelayMs + MaxWidthMs) * sampleRate + 1.0
  {
    var n := Trunc((MaxDelayMs + MaxWidthMs) * sampleRate) + 1;
    if n < 1 then 1 else n
  }

  /** The line prepareToPlay allocates holds every delay a voice can ask for. */
  lemma CapacityHoldsReach(sampleRate: real)
    requires sampleRate > 0.0
    ensures MaxReachSeconds * sampleRate <= Capacity(sampleRate) as real
  {
    MulLe(MaxReachSeconds, MaxDelayMs + MaxWidthMs, sampleRate);
  }

  /** The line is a thousand times longer than the sweep: at 48 kHz it has
      4 800 001 slots while delay plus width is at most 4 800 samples. */
  lemma CapacityIsThousandfold()
    ensures Capacity(48000.0) == 4800001
    ensures MaxSweepSeconds * 48000.0 == 4800.0
  {
  }

  /** The length the sizing evidently means: delay plus width in seconds times
      the sample rate, truncated, plus one slot. */
  function SizedCapacity(sampleRate: real): (n: int)
    requires sampleRate > 0.0
    ensures MaxSweepSeconds * sampleRate < n as real
    ensures n as real <= MaxSweepSeconds * sampleRate + 1.0
  {
    Trunc(MaxSweepSeconds * sampleRate) + 1
  }

  /** The "Number of Voices" choice: the callback `value + 2` turns the choice
      index of "2", "3", "4", "5" into the voice count. */
  function NumVoices(choice: int): (n: int)
    requires 0 <= choice <= 3
    ensures 2 <= n <= 5
    ensures n - 1 == choice + 1
  {
    choice + 2
  }

  /** All slider values a block reads; delay and width in seconds. */
  datatype Params = Params(delay: real, width: real, depth: real, numVoices: int, frequency: real,
                           waveform: Waveform, interpolation: Interpolation, stereo: bool)

  /** The conditions under which every voice reads inside the line: a positive
      sample rate, delay and width within their sliders, a voice count the
      choice allows, and a bounded sine. */
  ghost predicate Reaches(p: Params, sampleRate: real, sinf: real -> real)
  {
    sampleRate > 0.0 &&
    0.0 <= p.delay <= MaxDelaySeconds && 0.0 <= p.width <= MaxWidthSeconds &&
    2 <= p.numVoices <= 5 &&
    forall x :: -1.0 <= sinf(x) <= 1.0
  }

  /** How far `phaseOffset` moves on from one voice to the next. */
  function OffsetStep(numVoices: int): (r: real)
  {
    if numVoices == 3 then 0.25
    else if numVoices > 3 then 1.0 / (numVoices - 1) as real
    else 0.0
  }

  /** The phase offset of voice v: it starts at 0 and moves on by OffsetStep per voice. */
  function VoiceOffset(numVoices: int, v: nat): real
  {
    v as real * OffsetStep(numVoices)
  }

  /** The offset after one more voice. */
  lemma NextOffset(numVoices: int, v: nat)
    ensures VoiceOffset(numVoices, v) + OffsetStep(numVoices) == VoiceOffset(numVoices, v + 1)
  {
  }

  /** The voice offsets stay within [0, 0.75]: the phase the LFO is given is
      below 1.75, but can reach past 1. */
  lemma OffsetBelow(numVoices: int, v: nat)
    requires 2 <= numVoices <= 5 && v < numVoices - 1
    ensures 0.0 <= VoiceOffset(numVoices, v) <= 0.75
  {
    if numVoices == 4 {
      assert OffsetStep(4) == 1.0 / 3.0;
      assert v == 0 || v == 1 || v == 2;
    } else if numVoices == 5 {
      assert OffsetStep(5) == 0.25;
    }
  }

  /** Beyond three voices the voices are spread evenly over one LFO cycle; with
      three the second voice is a quarter cycle behind; with two there is one
      voice at offset 0. */
  lemma OffsetsSpread(numVoices: int, v: nat)
    requires 2 <= numVoices
    ensures numVoices > 3 ==> VoiceOffset(numVoices, v) == v as real / (numVoices - 1) as real
    ensures numVoices == 3 ==> VoiceOffset(numVoices, v) == 0.25 * v as real
    ensures numVoices == 2 ==> VoiceOffset(numVoices, v) == 0.0
    ensures VoiceOffset(numVoices, 0) == 0.0
  {
  }

  /** Voice v's weight on a channel: in stereo with more than two voices the
      voices pan across the channels, v/(numVoices-2) on channel 0 and the
      rest on the others; otherwise every voice counts fully. */
  function Weight(p: Params, channel: int, v: nat): real
  {
    if p.stereo && p.numVoices > 2 then
      var w := v as real / (p.numVoices - 2) as real;
      if channel != 0 then 1.0 - w else w
    else 1.0
  }

  /** The panning in stereo: the first voice is entirely on the other
      channels, the last entirely on channel 0, each voice's weights on channel
      0 and any other channel add up to one, and every weight is in [0, 1]. */
  lemma WeightsPan(p: Params, channel: int, v: nat)
    requires p.stereo && p.numVoices > 2 && channel != 0 && v <= p.numVoices - 2
    ensures Weight(p, 0, 0) == 0.0 && Weight(p, channel, 0) == 1.0
    ensures Weight(p, 0, p.numVoices - 2) == 1.0 && Weight(p, channel, p.numVoices - 2) == 0.0
    ensures Weight(p, 0, v) + Weight(p, channel, v) == 1.0
    ensures 0.0 <= Weight(p, 0, v) <= 1.0 && 0.0 <= Weight(p, channel, v) <= 1.0
  {
    var m := (p.numVoices - 2) as real;
    assert v as real <= m;
    DivBelowOne(v as real, m);
  }

  /** A fraction of a nonnegative value over a larger one is in [0, 1]. */
  lemma DivBelowOne(a: real, b: real)
    requires 0.0 <= a <= b && b > 0.0
    ensures 0.0 <= a / b <= 1.0
  {
    var inv := 1.0 / b;
    MulLe(a, b, inv);
    ScaleNonnegative(a, inv);
    assert b * inv == 1.0 && a * inv == a / b;
  }

  /** Outside stereo mode every voice counts fully on every channel. */
  lemma MonoWeights(p: Params, channel: int, v: nat)
    requires !p.stereo || p.numVoices <= 2
    ensures Weight(p, channel, v) == 1.0
  {
  }

  /** A delay of `delay` seconds swept by `width` seconds times the LFO value
      l, in samples: `(delay + width * l) * sampleRate`. */
  function SweptDelay(delay: real, width: real, l: real, sampleRate: real): real
  {
    (delay + width * l) * sampleRate
  }

  /** Voice v's delay in samples at LFO phase `phase`, with the sum of phase
      and offset passed to the LFO as it is. */
  function VoiceDelay(p: Params, phase: real, v: nat, sampleRate: real, sinf: real -> real): real
  {
    SweptDelay(p.delay, p.width, Lfo.Lfo(phase + VoiceOffset(p.numVoices, v), p.waveform, sinf), sampleRate)
  }

  /** With an LFO value of at most 2 the swept delay stays within the reach. */
  lemma ReachBound(delay: real, width: real, l: real, sampleRate: real)
    requires 0.0 <= delay <= MaxDelaySeconds && 0.0 <= width <= MaxWidthSeconds && l <= 2.0 && sampleRate > 0.0
    ensures SweptDelay(delay, width, l, sampleRate) <= MaxReachSeconds * sampleRate
  {
    ScaleNonnegative(2.0 - l, width);
    assert (2.0 - l) * width == 2.0 * width - width * l;
    var seconds := delay + width * l;
    MulLe(seconds, MaxReachSeconds, sampleRate);
  }

  /** Every voice's delay, for a wrapped phase, stays below the reach the line is sized for. */
  lemma VoiceInLine(p: Params, phase: real, v: nat, sampleRate: real, sinf: real -> real)
    requires Reaches(p, sampleRate, sinf) && 0.0 <= phase < 1.0 && v < p.numVoices - 1
    ensures VoiceDelay(p, phase, v, sampleRate, sinf) <= MaxReachSeconds * sampleRate
  {
    OffsetBelow(p.numVoices, v);
    var l := Lfo.Lfo(phase + VoiceOffset(p.numVoices, v), p.waveform, sinf);
    assert l <= 2.0;
    ReachBound(p.delay, p.width, l, sampleRate);
  }

  /** As written, voice 3 of five at phase 0.75 hands the triangle the phase
      1.5, where it returns 1.5: with delay and width at their maxima the voice
      reads 6000 samples back at 48 kHz, further than delay plus width (4800
      samples) and further than a line sized for delay plus width holds. */
  lemma UnwrappedVoiceOvershoots(sinf: real -> real)
    ensures var p := Params(0.05, 0.05, 1.0, 5, 1.0, Triangle, Interpolation.Linear, false);
            VoiceDelay(p, 0.75, 3, 48000.0, sinf) == 6000.0 &&
            VoiceDelay(p, 0.75, 3, 48000.0, sinf) > (p.delay + p.width) * 48000.0 &&
            VoiceDelay(p, 0.75, 3, 48000.0, sinf) > SizedCapacity(48000.0) as real
  {
    assert VoiceOffset(5, 3) == 0.75;
    assert Lfo.Lfo(1.5, Triangle, sinf) == 1.5;
  }

  /** As written, the inverse sawtooth goes negative past phase 1.5: voice 3
      of five at phase 0.99, with a 10 ms delay and a 50 ms width, gets a
      delay of -96 samples at 48 kHz, a read point ahead of the cursor. */
  lemma UnwrappedVoiceReadsAhead(sinf: real -> real)
    ensures var p := Params(0.01, 0.05, 1.0, 5, 1.0, InverseSawtooth, Interpolation.Linear, false);
            VoiceDelay(p, 0.99, 3, 48000.0, sinf) == -96.0 < 0.0
  {
    assert VoiceOffset(5, 3) == 0.75;
    assert Lfo.Lfo(1.74, InverseSawtooth, sinf) == -0.24;
  }

  /** The phase handed to the LFO brought back into one cycle, as the LFO
      phase itself is after every sample. */
  function WrapPhase(x: real): (r: real)
    requires 0.0 <= x < 2.0
    ensures 0.0 <= r < 1.0
    ensures r == x || r == x - 1.0
  {
    if x >= 1.0 then x - 1.0 else x
  }

  /** The wrap is fmodf(x, 1). */
  lemma WrapPhaseIsFmod(x: real)
    requires 0.0 <= x < 2.0
    ensures WrapPhase(x) == Fmod(x, 1.0)
  {
    TruncQuotientBelowTwo(x, 1.0);
    assert x / 1.0 == x;
  }

  /** Voice v's delay with the LFO phase wrapped, as the sweep evidently intends. */
  function WrappedVoiceDelay(p: Params, phase: real, v: nat, sampleRate: real, sinf: real -> real): real
    requires 0.0 <= phase < 1.0 && 2 <= p.numVoices <= 5 && v < p.numVoices - 1
  {
    OffsetBelow(p.numVoices, v);
    SweptDelay(p.delay, p.width, Lfo.Lfo(WrapPhase(phase + VoiceOffset(p.numVoices, v)), p.waveform, sinf),
               sampleRate)
  }

  /** With the phase wrapped every voice stays in its sweep: at least the
      delay and at most delay plus width, so inside a line sized for the sweep. */
  lemma WrappedVoiceInSweep(p: Params, phase: real, v: nat, sampleRate: real, sinf: real -> real)
    requires Reaches(p, sampleRate, sinf) && 0.0 <= phase < 1.0 && v < p.numVoices - 1
    ensures p.delay * sampleRate <= WrappedVoiceDelay(p, phase, v, sampleRate, sinf)
    ensures WrappedVoiceDelay(p, phase, v, sampleRate, sinf) <= (p.delay + p.width) * sampleRate
    ensures WrappedVoiceDelay(p, phase, v, sampleRate, sinf) < SizedCapacity(sampleRate) as real
  {
    OffsetBelow(p.numVoices, v);
    var x := WrapPhase(phase + VoiceOffset(p.numVoices, v));
    assert -1.0 <= sinf(TwoPi * x) <= 1.0;
    SweepBounds(p.delay, p.width, Lfo.Lfo(x, p.waveform, sinf), sampleRate);
  }

  /** For an LFO value in [0, 1] the swept delay lies between the delay and
      delay plus width, below the sized capacity. */
  lemma SweepBounds(delay: real, width: real, l: real, sampleRate: real)
    requires 0.0 <= delay <= MaxDelaySeconds && 0.0 <= width <= MaxWidthSeconds
    requires 0.0 <= l <= 1.0 && sampleRate > 0.0
    ensures delay * sampleRate <= SweptDelay(delay, width, l, sampleRate) <= (delay + width) * sampleRate
    ensures SweptDelay(delay, width, l, sampleRate) < SizedCapacity(sampleRate) as real
  {
    var swing := Scale(width, l);
    ScaleNonnegative(l, width);
    ScaleBelow(l, width);
    assert 0.0 <= swing <= width;
    MulLe(delay, delay + swing, sampleRate);
    MulLe(delay + swing, delay + width, sampleRate);
    MulLe(delay + width, MaxSweepSeconds, sampleRate);
  }

  /** The sample voice v reads: `fmodf(w - D + N, N)`, read with the chosen
      kernel as Chorus writes it (its LINEAR kernel drops the base sample). */
  function VoiceSample(line: seq<real>, w: int, phase: real, p: Params, sampleRate: real, sinf: real -> real,
                       v: nat): real
    requires 0 <= w < |line| && 0.0 <= phase < 1.0 && v < p.numVoices - 1
    requires Reaches(p, sampleRate, sinf) && MaxReachSeconds * sampleRate <= |line| as real
  {
    VoiceInLine(p, phase, v, sampleRate, sinf);
    var n := |line| as real;
    ChorusInterpolate(p.interpolation, line, Fmod(w as real - VoiceDelay(p, phase, v, sampleRate, sinf) + n, n))
  }

  /** A voice's contribution to the output sample, `out * depth * weight`. */
  function Contribution(out: real, depth: real, weight: real): (r: real)
    ensures out == 0.0 || depth == 0.0 || weight == 0.0 ==> r == 0.0
  {
    out * depth * weight
  }

  /** The first m voices' contributions. */
  function VoiceSum(line: seq<real>, w: int, phase: real, p: Params, sampleRate: real, sinf: real -> real,
                    channel: int, m: nat): real
    requires 0 <= w < |line| && 0.0 <= phase < 1.0 && m <= p.numVoices - 1
    requires Reaches(p, sampleRate, sinf) && MaxReachSeconds * sampleRate <= |line| as real
  {
    if m == 0 then 0.0
    else VoiceSum(line, w, phase, p, sampleRate, sinf, channel, m - 1)
         + Contribution(VoiceSample(line, w, phase, p, sampleRate, sinf, m - 1), p.depth, Weight(p, channel, m - 1))
  }

  /** One output sample: in stereo with two voices channel 0 keeps the dry
      input and the other channels carry the voice times the depth; otherwise
      the input plus every voice's contribution. */
  function Chorused(line: seq<real>, w: int, phase: real, x: real, p: Params, sampleRate: real, sinf: real -> real,
                    channel: int): real
    requires 0 <= w < |line| && 0.0 <= phase < 1.0
    requires Reaches(p, sampleRate, sinf) && MaxReachSeconds * sampleRate <= |line| as real
  {
    if p.stereo && p.numVoices == 2 then
      if channel == 0 then x else Scale(p.depth, VoiceSample(line, w, phase, p, sampleRate, sinf, 0))
    else x + VoiceSum(line, w, phase, p, sampleRate, sinf, channel, p.numVoices - 1)
  }

  /** With no depth the output is the dry input, except on the second channel
      of a stereo pair of voices, which is then silent. */
  lemma DepthZeroIsDry(line: seq<real>, w: int, phase: real, x: real, p: Params, sampleRate: real,
                       sinf: real -> real, channel: int)
    requires 0 <= w < |line| && 0.0 <= phase < 1.0
    requires Reaches(p, sampleRate, sinf) && MaxReachSeconds * sampleRate <= |line| as real
    requires p.depth == 0.0
    ensures Chorused(line, w, phase, x, p, sampleRate, sinf, channel)
            == if p.stereo && p.numVoices == 2 && channel != 0 then 0.0 else x
  {
    if !(p.stereo && p.numVoices == 2) {
      NoDepthNoVoices(line, w, phase, p, sampleRate, sinf, channel, p.numVoices - 1);
    }
  }

  /** With no depth the voices contribute nothing. */
  lemma {:induction false} NoDepthNoVoices(line: seq<real>, w: int, phase: real, p: Params, sampleRate: real,
                                          sinf: real -> real, channel: int, m: nat)
    requires 0 <= w < |line| && 0.0 <= phase < 1.0 && m <= p.numVoices - 1
    requires Reaches(p, sampleRate, sinf) && MaxReachSeconds * sampleRate <= |line| as real
    requires p.depth == 0.0
    ensures VoiceSum(line, w, phase, p, sampleRate, sinf, channel, m) == 0.0
  {
    if m > 0 {
      NoDepthNoVoices(line, w, phase, p, sampleRate, sinf, channel, m - 1);
    }
  }

  /** On a silent line every voice reads silence. */
  lemma {:induction false} SilentVoices(line: seq<real>, w: int, phase: real, p: Params, sampleRate: real,
                                       sinf: real -> real, channel: int, m: nat)
    requires 0 <= w < |line| && 0.0 <= phase < 1.0 && m <= p.numVoices - 1
    requires Reaches(p, sampleRate, sinf) && MaxReachSeconds * sampleRate <= |line| as real
    requires Silent(line, 0.0)
    ensures VoiceSum(line, w, phase, p, sampleRate, sinf, channel, m) == 0.0
  {
    if m > 0 {
      SilentVoices(line, w, phase, p, sampleRate, sinf, channel, m - 1);
      SilentRead(line, w, phase, p, sampleRate, sinf, m - 1);
    }
  }

  /** One voice on a silent line reads silence. */
  lemma SilentRead(line: seq<real>, w: int, phase: real, p: Params, sampleRate: real, sinf: real -> real, v: nat)
    requires 0 <= w < |line| && 0.0 <= phase < 1.0 && v < p.numVoices - 1
    requires Reaches(p, sampleRate, sinf) && MaxReachSeconds * sampleRate <= |line| as real
    requires Silent(line, 0.0)
    ensures VoiceSample(line, w, phase, p, sampleRate, sinf, v) == 0.0
  {
    VoiceInLine(p, phase, v, sampleRate, sinf);
    var n := |line| as real;
    SilentBufferReadsSilence(p.interpolation, line, Fmod(w as real - VoiceDelay(p, phase, v, sampleRate, sinf) + n, n));
  }

  /** Without the stereo option every channel gets the same output. */
  lemma MonoChannelsAgree(line: seq<real>, w: int, phase: real, x: real, p: Params, sampleRate: real,
                          sinf: real -> real, channel: int)
    requires 0 <= w < |line| && 0.0 <= phase < 1.0
    requires Reaches(p, sampleRate, sinf) && MaxReachSeconds * sampleRate <= |line| as real
    requires !p.stereo
    ensures Chorused(line, w, phase, x, p, sampleRate, sinf, channel) == Chorused(line, w, phase, x, p, sampleRate, sinf, 0)
  {
    MonoSums(line, w, phase, p, sampleRate, sinf, channel, p.numVoices - 1);
  }

  /** Without the stereo option the voice sums agree across channels. */
  lemma {:induction false} MonoSums(line: seq<real>, w: int, phase: real, p: Params, sampleRate: real,
                                   sinf: real -> real, channel: int, m: nat)
    requires 0 <= w < |line| && 0.0 <= phase < 1.0 && m <= p.numVoices - 1
    requires Reaches(p, sampleRate, sinf) && MaxReachSeconds * sampleRate <= |line| as real
    requires !p.stereo
    ensures VoiceSum(line, w, phase, p, sampleRate, sinf, channel, m) == VoiceSum(line, w, phase, p, sampleRate, sinf, 0, m)
  {
    if m > 0 {
      MonoSums(line, w, phase, p, sampleRate, sinf, channel, m - 1);
    }
  }

  /** The sample after the first m voices of the voice loop. */
  function Mixed(line: seq<real>, w: int, phase: real, x: real, p: Params, sampleRate: real, sinf: real -> real,
                 channel: int, m: nat): real
    requires 0 <= w < |line| && 0.0 <= phase < 1.0 && m <= p.numVoices - 1
    requires Reaches(p, sampleRate, sinf) && MaxReachSeconds * sampleRate <= |line| as real
  {
    if p.stereo && p.numVoices == 2 && m > 0
    then if channel == 0 then x else Scale(p.depth, VoiceSample(line, w, phase, p, sampleRate, sinf, 0))
    else x + VoiceSum(line, w, phase, p, sampleRate, sinf, channel, m)
  }

  /** One more voice: a stereo pair of voices sets the sample, otherwise the
      voice's contribution is added. */
  lemma MixedStep(line: seq<real>, w: int, phase: real, x: real, p: Params, sampleRate: real, sinf: real -> real,
                  channel: int, m: nat)
    requires 0 <= w < |line| && 0.0 <= phase < 1.0 && m < p.numVoices - 1
    requires Reaches(p, sampleRate, sinf) && MaxReachSeconds * sampleRate <= |line| as real
    ensures Mixed(line, w, phase, x, p, sampleRate, sinf, channel, m + 1)
            == if p.stereo && p.numVoices == 2
               then if channel == 0 then x else Scale(p.depth, VoiceSample(line, w, phase, p, sampleRate, sinf, m))
               else Mixed(line, w, phase, x, p, sampleRate, sinf, channel, m)
                    + Contribution(VoiceSample(line, w, phase, p, sampleRate, sinf, m), p.depth, Weight(p, channel, m))
  {
  }

  /** The voice loop of processBlock on one sample, in place: `weight` and
      `phaseOffset` are recomputed voice by voice, and each voice either
      overwrites the sample (a stereo pair of voices) or adds its
      contribution to it. */
  method MixVoices(channelData: array<real>, sample: int, line: seq<real>, w: int, phase: real, p: Params,
                   sampleRate: real, sinf: real -> real, channel: int)
    requires 0 <= sample < channelData.Length && 0 <= w < |line| && 0.0 <= phase < 1.0
    requires Reaches(p, sampleRate, sinf) && MaxReachSeconds * sampleRate <= |line| as real
    modifies channelData
    ensures channelData[sample] == Chorused(line, w, phase, old(channelData[sample]), p, sampleRate, sinf, channel)
    ensures forall j | 0 <= j < channelData.Length && j != sample :: channelData[j] == old(channelData[j])
  {
    var inData := channelData[sample];
    var phaseOffset := 0.0;
    var weight := 0.0;
    var voice := 0;
    while voice < p.numVoices - 1
      invariant 0 <= voice <= p.numVoices - 1
      invariant phaseOffset == VoiceOffset(p.numVoices, voice)
      invariant channelData[sample] == Mixed(line, w, phase, inData, p, sampleRate, sinf, channel, voice)
      invariant forall j | 0 <= j < channelData.Length && j != sample :: channelData[j] == old(channelData[j])
    {
      if p.stereo && p.numVoices > 2 {
        weight := voice as real / (p.numVoices - 2) as real;
        if channel != 0 {
          weight := 1.0 - weight;
        }
      } else {
        weight := 1.0;
      }
      assert weight == Weight(p, channel, voice);
      VoiceInLine(p, phase, voice, sampleRate, sinf);
      var n := |line| as real;
      var localDelayTime := SweptDelay(p.delay, p.width, Lfo.Lfo(phase + phaseOffset, p.waveform, sinf), sampleRate);
      var readPosition := Fmod(w as real - localDelayTime + n, n);
      var out := ChorusInterpolate(p.interpolation, line, readPosition);
      assert out == VoiceSample(line, w, phase, p, sampleRate, sinf, voice);
      if p.stereo && p.numVoices == 2 {
        channelData[sample] := if channel == 0 then inData else Scale(p.depth, out);
      } else {
        channelData[sample] := channelData[sample] + Contribution(out, p.depth, weight);
      }
      MixedStep(line, w, phase, inData, p, sampleRate, sinf, channel, voice);
      NextOffset(p.numVoices, voice);
      if p.numVoices == 3 {
        phaseOffset := phaseOffset + 0.25;
      } else if p.numVoices > 3 {
        phaseOffset := phaseOffset + 1.0 / (p.numVoices - 1) as real;
      }
      voice := voice + 1;
    }
  }

  /** Chorus's per-sample kernel on channel `channel`: the voices mix into the
      sample; the cursor slot receives the dry input. */
  function Tap(p: Params, sampleRate: real, sinf: real -> real, channel: int): Kernel<real>
  {
    (l: seq<real>, c: int, phase: real, x: real)
      requires 0 <= c < |l| && 0.0 <= phase < 1.0
      requires Reaches(p, sampleRate, sinf) && MaxReachSeconds * sampleRate <= |l| as real =>
      (Chorused(l, c, phase, x, p, sampleRate, sinf, channel), l[c := x])
  }

  /** On a line that holds the reach the kernel is defined for every cursor and
      phase and stores exactly the dry input at the cursor. */
  lemma TapStoresDry(p: Params, sampleRate: real, sinf: real -> real, channel: int, n: int)
    requires Reaches(p, sampleRate, sinf) && MaxReachSeconds * sampleRate <= n as real
    ensures StoresDry(Tap(p, sampleRate, sinf, channel), n)
    ensures WritesCursor(Tap(p, sampleRate, sinf, channel), n)
  {
  }

  /** One channel's pass through a block from cursor w and LFO phase `phase`. */
  function ChorusPass(line: seq<real>, w: int, phase: real, xs: seq<real>, p: Params, sampleRate: real,
                      increment: real, sinf: real -> real, channel: int): Pass<real>
    requires 0 <= w < |line| && 0.0 <= phase < 1.0 && 0.0 <= increment < 1.0
    requires Reaches(p, sampleRate, sinf) && MaxReachSeconds * sampleRate <= |line| as real
  {
    TapStoresDry(p, sampleRate, sinf, channel, |line|);
    Run(Tap(p, sampleRate, sinf, channel), increment, line, w, phase, xs)
  }

  /** There is no feedback path: after a block the line holds the block's dry
      input from the first cursor on, and its old content elsewhere. */
  lemma LineHoldsDryInput(line: seq<real>, w: int, phase: real, xs: seq<real>, p: Params, sampleRate: real,
                          increment: real, sinf: real -> real, channel: int)
    requires 0 <= w < |line| && 0.0 <= phase < 1.0 && 0.0 <= increment < 1.0
    requires Reaches(p, sampleRate, sinf) && MaxReachSeconds * sampleRate <= |line| as real
    requires |xs| <= |line|
    ensures forall j | 0 <= j < |line| ::
              ChorusPass(line, w, phase, xs, p, sampleRate, increment, sinf, channel).line[j]
              == if Offset(w, j, |line|) < |xs| then xs[Offset(w, j, |line|)] else line[j]
  {
    TapStoresDry(p, sampleRate, sinf, channel, |line|);
    DryLine(Tap(p, sampleRate, sinf, channel), increment, line, w, phase, xs);
  }

  /** A silent block through a silent line stays silent and leaves the line silent. */
  lemma QuietInQuietOut(line: seq<real>, w: int, phase: real, xs: seq<real>, p: Params, sampleRate: real,
                        increment: real, sinf: real -> real, channel: int)
    requires 0 <= w < |line| && 0.0 <= phase < 1.0 && 0.0 <= increment < 1.0
    requires Reaches(p, sampleRate, sinf) && MaxReachSeconds * sampleRate <= |line| as real
    requires Silent(line, 0.0) && Silent(xs, 0.0)
    ensures Silent(ChorusPass(line, w, phase, xs, p, sampleRate, increment, sinf, channel).out, 0.0)
    ensures Silent(ChorusPass(line, w, phase, xs, p, sampleRate, increment, sinf, channel).line, 0.0)
  {
    var k := Tap(p, sampleRate, sinf, channel);
    TapStoresDry(p, sampleRate, sinf, channel, |line|);
    forall l: seq<real>, c: int, ph: real | |l| == |line| && 0 <= c < |l| && 0.0 <= ph < 1.0 && Silent(l, 0.0)
      ensures k(l, c, ph, 0.0).0 == 0.0 && Silent(k(l, c, ph, 0.0).1, 0.0)
    {
      if p.stereo && p.numVoices == 2 {
        SilentRead(l, c, ph, p, sampleRate, sinf, 0);
      } else {
        SilentVoices(l, c, ph, p, sampleRate, sinf, channel, p.numVoices - 1);
      }
    }
    SilenceStaysSilent(k, increment, line, w, phase, xs, 0.0);
  }

  /** Two consecutive blocks on a channel are one uninterrupted pass over both:
      the stored phase lets the sweep continue across the block boundary. */
  lemma BlocksJoin(line: seq<real>, w: int, phase: real, xs: seq<real>, ys: seq<real>, p: Params,
                   sampleRate: real, increment: real, sinf: real -> real, channel: int)
    requires 0 <= w < |line| && 0.0 <= phase < 1.0 && 0.0 <= increment < 1.0
    requires Reaches(p, sampleRate, sinf) && MaxReachSeconds * sampleRate <= |line| as real
    ensures var a := ChorusPass(line, w, phase, xs, p, sampleRate, increment, sinf, channel);
            var b := ChorusPass(a.line, a.cursor, a.phase, ys, p, sampleRate, increment, sinf, channel);
            var ab := ChorusPass(line, w, phase, xs + ys, p, sampleRate, increment, sinf, channel);
            ab.out == a.out + b.out && ab.line == b.line && ab.cursor == b.cursor && ab.phase == b.phase
  {
    TapStoresDry(p, sampleRate, sinf, channel, |line|);
    BlocksCompose(Tap(p, sampleRate, sinf, channel), increment, line, w, phase, xs, ys);
  }

  /** One turn of the sample loop before the cursor moves: the voices mix into
      the sample, then the dry input goes into the cursor slot. */
  method MixSample(x: array<real>, d: array<real>, sample: int, w: int, phase: real, p: Params, sampleRate: real,
                   sinf: real -> real, channel: int)
    requires x != d && 0 <= sample < x.Length && 0 <= w < d.Length && 0.0 <= phase < 1.0
    requires Reaches(p, sampleRate, sinf) && MaxReachSeconds * sampleRate <= d.Length as real
    requires Fits(Tap(p, sampleRate, sinf, channel), d.Length)
    modifies x, d
    ensures var s := Apply(Tap(p, sampleRate, sinf, channel), old(d[..]), w, phase, old(x[sample]));
            x[..] == old(x[..])[sample := s.0] && d[..] == s.1
  {
    var inData := x[sample];
    MixVoices(x, sample, d[..], w, phase, p, sampleRate, sinf, channel);
    d[w] := inData;
  }

  /** The sample loop of processBlock on one channel, in place on its audio and
      delay arrays: the voices mix into each sample, the dry input goes into
      the cursor slot, and the cursor and the phase advance. */
  method ProcessSamples(x: array<real>, d: array<real>, w0: int, phase0: real, p: Params, sampleRate: real,
                        increment: real, sinf: real -> real, channel: int) returns (w: int, phase: real)
    requires x != d && 0 <= w0 < d.Length && 0.0 <= phase0 < 1.0 && 0.0 <= increment < 1.0
    requires Reaches(p, sampleRate, sinf) && MaxReachSeconds * sampleRate <= d.Length as real
    modifies x, d
    ensures var r := ChorusPass(old(d[..]), w0, phase0, old(x[..]), p, sampleRate, increment, sinf, channel);
            x[..] == r.out && d[..] == r.line && w == r.cursor && phase == r.phase
  {
    TapStoresDry(p, sampleRate, sinf, channel, d.Length);
    ghost var k := Tap(p, sampleRate, sinf, channel);
    ghost var line0, xs0 := d[..], x[..];
    ghost var r := Run(k, increment, line0, w0, phase0, []);
    w, phase := w0, phase0;
    var sample := 0;
    while sample < x.Length
      invariant 0 <= sample <= x.Length
      invariant r == Run(k, increment, line0, w0, phase0, xs0[..sample])
      invariant x[..sample] == r.out && d[..] == r.line && w == r.cursor && phase == r.phase
      invariant forall j | sample <= j < x.Length :: x[j] == xs0[j]
    {
      assert xs0[..sample + 1] == xs0[..sample] + [x[sample]];
      RunSnoc(k, increment, line0, w0, phase0, xs0[..sample], x[sample]);
      ghost var before := x[..sample];
      ghost var s := Apply(k, d[..], w, phase, x[sample]);
      MixSample(x, d, sample, w, phase, p, sampleRate, sinf, channel);
      assert x[..sample + 1] == before + [s.0];
      w := Advance(w, d.Length);
      phase := AdvancePhase(phase, increment);
      r := Pass(r.out + [s.0], s.1, w, phase);
      sample := sample + 1;
    }
    assert x[..] == x[..sample];
    assert xs0 == xs0[..sample];
  }

  /** The phase increment per sample: frequency over the sample rate. */
  function PhaseIncrement(p: Params, inverseSampleRate: real): (r: real)
    ensures p.frequency == 0.0 || inverseSampleRate == 0.0 ==> r == 0.0
  {
    p.frequency * inverseSampleRate
  }

  class ChorusProcessor {
    var sampleRate: real
    var inverseSampleRate: real
    var capacity: int
    var delayBuffer: seq<array<real>>
    var writePosition: int
    var lfoPhase: real

    /** The state prepareToPlay sets up and processBlock keeps. */
    ghost predicate Valid()
      reads this
    {
      sampleRate > 0.0 &&
      capacity == Capacity(sampleRate) &&
      0 <= writePosition < capacity && 0.0 <= lfoPhase < 1.0 &&
      (forall c | 0 <= c < |delayBuffer| :: delayBuffer[c].Length == capacity) &&
      Distinct(delayBuffer)
    }

    /** prepareToPlay: one silent line per output channel, cursor and phase at
        zero, the inverse sample rate kept for the phase increment. */
    method PrepareToPlay(rate: real, numOutputs: nat)
      requires rate > 0.0
      modifies this
      ensures Valid()
      ensures sampleRate == rate && inverseSampleRate == 1.0 / rate
      ensures capacity == Capacity(rate) && writePosition == 0 && lfoPhase == 0.0
      ensures |delayBuffer| == numOutputs
      ensures forall c | 0 <= c < numOutputs :: fresh(delayBuffer[c]) && delayBuffer[c][..] == Silence(capacity)
    {
      var n := Capacity(rate);
      var lines: seq<array<real>> := [];
      while |lines| < numOutputs
        invariant |lines| <= numOutputs
        invariant forall c | 0 <= c < |lines| :: fresh(lines[c]) && lines[c][..] == Silence(n)
        invariant Distinct(lines)
      {
        var a := new real[n](_ => 0.0);
        lines := lines + [a];
      }
      sampleRate := rate;
      inverseSampleRate := 1.0 / rate;
      capacity := n;
      delayBuffer := lines;
      writePosition := 0;
      lfoPhase := 0.0;
    }

    /** Channel c of the block, picked out of the audio and delay buffers: it
        runs from the stored cursor and phase, ends on the cursor a block
        further and on the phase advanced once per sample; every other channel
        and line is left as it was. */
    static method ChorusChannel(buffer: seq<array<real>>, lines: seq<array<real>>, c: nat, n: int,
                                numSamples: nat, w0: int, phase0: real, p: Params, sampleRate: real,
                                increment: real, sinf: real -> real) returns (w: int, phase: real)
      requires c < |buffer| && c < |lines| && Separate(buffer, lines) && Distinct(lines)
      requires lines[c].Length == n && buffer[c].Length == numSamples
      requires 0 <= w0 < n && 0.0 <= phase0 < 1.0 && 0.0 <= increment < 1.0
      requires Reaches(p, sampleRate, sinf) && MaxReachSeconds * sampleRate <= n as real
      modifies buffer[c], lines[c]
      ensures var r := ChorusPass(old(lines[c][..]), w0, phase0, old(buffer[c][..]), p, sampleRate, increment, sinf, c);
              buffer[c][..] == r.out && lines[c][..] == r.line
      ensures w == (w0 + numSamples) % n && phase == AdvancePhaseBy(phase0, increment, numSamples)
      ensures forall e | 0 <= e < |buffer| && e != c :: buffer[e][..] == old(buffer[e][..])
      ensures forall e | 0 <= e < |lines| && e != c :: lines[e][..] == old(lines[e][..])
    {
      TapStoresDry(p, sampleRate, sinf, c, n);
      RunPhase(Tap(p, sampleRate, sinf, c), increment, lines[c][..], w0, phase0, buffer[c][..]);
      w, phase := ProcessSamples(buffer[c], lines[c], w0, phase0, p, sampleRate, increment, sinf, c);
    }

    /** The channels before c hold their pass from the stored cursor and
        phase; the channels from c on still hold `ob` and `ol`. */
    static ghost predicate Chorusing(buffer: seq<array<real>>, lines: seq<array<real>>, n: int, w0: int,
                                     phase0: real, p: Params, sampleRate: real, increment: real,
                                     sinf: real -> real, c: nat, ob: seq<seq<real>>, ol: seq<seq<real>>)
      requires 0 <= w0 < n && 0.0 <= phase0 < 1.0 && 0.0 <= increment < 1.0
      requires Reaches(p, sampleRate, sinf) && MaxReachSeconds * sampleRate <= n as real
      reads buffer, lines
    {
      |ob| == |buffer| && |ol| == |lines| && c <= |buffer| && c <= |lines| &&
      (forall e | 0 <= e < |ol| :: |ol[e]| == n) &&
      (forall e | 0 <= e < c ::
         var r := ChorusPass(ol[e], w0, phase0, ob[e], p, sampleRate, increment, sinf, e);
         buffer[e][..] == r.out && lines[e][..] == r.line) &&
      (forall e | c <= e < |buffer| :: buffer[e][..] == ob[e]) &&
      (forall e | c <= e < |lines| :: lines[e][..] == ol[e])
    }

    /** One turn of the channel loop in terms of Chorusing. */
    static method ChorusOn(buffer: seq<array<real>>, lines: seq<array<real>>, c: nat, n: int,
                           numSamples: nat, w0: int, phase0: real, p: Params, sampleRate: real,
                           increment: real, sinf: real -> real, ghost ob: seq<seq<real>>, ghost ol: seq<seq<real>>)
      returns (w: int, phase: real)
      requires c < |buffer| && c < |lines| && Separate(buffer, lines) && Distinct(lines)
      requires lines[c].Length == n && buffer[c].Length == numSamples
      requires 0 <= w0 < n && 0.0 <= phase0 < 1.0 && 0.0 <= increment < 1.0
      requires Reaches(p, sampleRate, sinf) && MaxReachSeconds * sampleRate <= n as real
      requires Chorusing(buffer, lines, n, w0, phase0, p, sampleRate, increment, sinf, c, ob, ol)
      modifies buffer[c], lines[c]
      ensures Chorusing(buffer, lines, n, w0, phase0, p, sampleRate, increment, sinf, c + 1, ob, ol)
      ensures w == (w0 + numSamples) % n && phase == AdvancePhaseBy(phase0, increment, numSamples)
    {
      w, phase := ChorusChannel(buffer, lines, c, n, numSamples, w0, phase0, p, sampleRate, increment, sinf);
    }

    /** The channel loop of processBlock: each of the first numInputs channels
        runs through its own line from the stored cursor and phase; the
        cursor and phase the last channel ends on are returned. */
    static method ProcessInputs(buffer: seq<array<real>>, lines: seq<array<real>>, numInputs: nat,
                                numSamples: nat, n: int, w0: int, phase0: real, p: Params,
                                sampleRate: real, increment: real, sinf: real -> real)
      returns (w: int, phase: real)
      requires 1 <= numInputs <= |lines| && numInputs <= |buffer| && Separate(buffer, lines) && Distinct(lines)
      requires forall c | 0 <= c < |lines| :: lines[c].Length == n
      requires forall c | 0 <= c < |buffer| :: buffer[c].Length == numSamples
      requires 0 <= w0 < n && 0.0 <= phase0 < 1.0 && 0.0 <= increment < 1.0
      requires Reaches(p, sampleRate, sinf) && MaxReachSeconds * sampleRate <= n as real
      modifies buffer, lines
      ensures w == (w0 + numSamples) % n && phase == AdvancePhaseBy(phase0, increment, numSamples)
      ensures forall c | 0 <= c < numInputs ::
                var r := ChorusPass(old(lines[c][..]), w0, phase0, old(buffer[c][..]), p, sampleRate, increment, sinf, c);
                buffer[c][..] == r.out && lines[c][..] == r.line
      ensures forall c | numInputs <= c < |buffer| :: buffer[c][..] == old(buffer[c][..])
      ensures forall c | numInputs <= c < |lines| :: lines[c][..] == old(lines[c][..])
    {
      ghost var ob := seq(|buffer|, i requires 0 <= i < |buffer| reads buffer => buffer[i][..]);
      ghost var ol := seq(|lines|, i requires 0 <= i < |lines| reads lines => lines[i][..]);
      w, phase := w0, phase0;
      var c := 0;
      while c < numInputs
        invariant 0 <= c <= numInputs
        invariant Chorusing(buffer, lines, n, w0, phase0, p, sampleRate, increment, sinf, c, ob, ol)
        invariant c > 0 ==> w == (w0 + numSamples) % n && phase == AdvancePhaseBy(phase0, increment, numSamples)
      {
        w, phase := ChorusOn(buffer, lines, c, n, numSamples, w0, phase0, p, sampleRate, increment, sinf, ob, ol);
        c := c + 1;
      }
    }

    /** processBlock: every input channel runs through its own delay line from
        the stored cursor and phase; the cursor advances by the block length
        and the stored phase once per sample; output channels beyond the
        inputs are silenced. */
    method ProcessBlock(buffer: seq<array<real>>, numInputs: nat, numOutputs: nat, numSamples: nat, p: Params,
                        sinf: real -> real)
      requires Valid()
      requires 1 <= numInputs <= |delayBuffer| && numInputs <= |buffer| && numOutputs <= |buffer|
      requires forall c | 0 <= c < |buffer| :: buffer[c].Length == numSamples
      requires Separate(buffer, delayBuffer)
      requires Reaches(p, sampleRate, sinf) && 0.0 <= PhaseIncrement(p, inverseSampleRate) < 1.0
      modifies buffer, delayBuffer, this`writePosition, this`lfoPhase
      ensures Valid()
      ensures writePosition == (old(writePosition) + numSamples) % capacity
      ensures lfoPhase == AdvancePhaseBy(old(lfoPhase), PhaseIncrement(p, inverseSampleRate), numSamples)
      ensures forall c | 0 <= c < numInputs ::
                var r := ChorusPass(old(delayBuffer[c][..]), old(writePosition), old(lfoPhase), old(buffer[c][..]),
                                    p, sampleRate, PhaseIncrement(p, inverseSampleRate), sinf, c);
                buffer[c][..] == r.out && delayBuffer[c][..] == r.line
      ensures forall c | numInputs <= c < numOutputs :: buffer[c][..] == Silence(numSamples)
      ensures forall c | numInputs <= c < |buffer| && c >= numOutputs :: buffer[c][..] == old(buffer[c][..])
      ensures forall c | numInputs <= c < |delayBuffer| :: delayBuffer[c][..] == old(delayBuffer[c][..])
    {
      CapacityHoldsReach(sampleRate);
      var w, phase := ProcessInputs(buffer, delayBuffer, numInputs, numSamples, capacity, writePosition, lfoPhase,
                                    p, sampleRate, PhaseIncrement(p, inverseSampleRate), sinf);
      writePosition := w;
      lfoPhase := phase;
      label processed:
      ClearChannels(buffer, numInputs, numOutputs);
      assert forall c | 0 <= c < |delayBuffer| :: delayBuffer[c][..] == old@processed(delayBuffer[c][..]);
    }
  }
}
