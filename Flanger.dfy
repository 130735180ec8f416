/** The Flanger effect (Flanger/PluginProcessor.cpp): every input channel runs
    through its own circular delay line whose read point sweeps with the LFO;
    the delayed sample, read with the chosen interpolation kernel, is added to
    the input with the depth (negated in inverted mode) and fed back into the
    line. */
module Flanger {
  import opened DelayLine
  import opened Block
  import opened AudioBuffer
  import opened Lfo

  /** Upper ends of the "Delay" and "Width" sliders as they are stored, in
      milliseconds. */
  const MaxDelayMs: real := 20.0
  const MaxWidthMs: real := 20.0

  /** The same upper ends after the slider callback `value * 0.001`, in seconds:
      the longest delay the sweep can ask for is their sum. */
  const MaxDelaySeconds: real := 0.02
  const MaxWidthSeconds: real := 0.02
  const MaxSweepSeconds: real := MaxDelaySeconds + MaxWidthSeconds

  /** prepareToPlay's delay-line length: the two raw maxima (milliseconds) times
      the sample rate, truncated, raised to one. */
  function Capacity(sampleRate: real): (n: int)
    requires sampleRate > 0.0
    ensures n >= 1
    ensures (MaxDelayMs + MaxWidthMs) * sampleRate < n as real + 1.0
    ensures n == 1 || n as real <= (MaxDelayMs + MaxWidthMs) * sampleRate
  {
    var n := Trunc((MaxDelayMs + MaxWidthMs) * sampleRate);
    if n < 1 then 1 else n
  }

  /** The line prepareToPlay allocates holds the longest delay the sliders allow. */
  lemma CapacityHoldsLongestDelay(sampleRate: real)
    requires sampleRate > 0.0
    ensures MaxSweepSeconds * sampleRate <= Capacity(sampleRate) as real
  {
    if sampleRate > 1.0 {
      MulLt(MaxSweepSeconds, MaxDelayMs + MaxWidthMs - 1.0, sampleRate);
    } else {
      MulLe(MaxSweepSeconds, 1.0, sampleRate);
    }
  }

  /** The line is a thousand times longer than needed: at 48 kHz it has
      1 920 000 slots while the longest delay is 1 920 samples. */
  lemma CapacityIsThousandfold()
    ensures Capacity(48000.0) == 1920000
    ensures MaxSweepSeconds * 48000.0 == 1920.0
  {
  }

  /** The length the sizing evidently means: the longest delay in seconds times
      the sample rate, rounded down, plus one slot, as Delay and Chorus do. */
  function SizedCapacity(sampleRate: real): (n: int)
    requires sampleRate > 0.0
    ensures MaxSweepSeconds * sampleRate < n as real
    ensures n as real <= MaxSweepSeconds * sampleRate + 1.0
  {
    Trunc(MaxSweepSeconds * sampleRate) + 1
  }

  /** The inverted toggle: the callback `value * (-2) + 1` turns off/on into 1/-1. */
  function Inversion(inverted: bool): (r: real)
    ensures inverted ==> r == -1.0
    ensures !inverted ==> r == 1.0
  {
    (if inverted then 1.0 else 0.0) * -2.0 + 1.0
  }

  /** The slider values that set the swept delay: delay and width in seconds
      and the LFO waveform. */
  datatype Sweep = Sweep(delay: real, width: real, waveform: Waveform)

  /** All slider values a block reads. */
  datatype Params = Params(sweep: Sweep, depth: real, feedback: real, inverted: bool,
                           frequency: real, interpolation: Interpolation, stereo: bool)

  /** The conditions under which the sweep stays inside the line: a positive
      sample rate, delay and width within their sliders, and a bounded sine. */
  ghost predicate Sweeps(s: Sweep, sampleRate: real, sinf: real -> real)
  {
    sampleRate > 0.0 &&
    0.0 <= s.delay <= MaxDelaySeconds && 0.0 <= s.width <= MaxWidthSeconds &&
    forall x :: -1.0 <= sinf(x) <= 1.0
  }

  /** The swept delay in samples at an LFO phase, `(delay + width * Lfo(phase)) * sampleRate`. */
  function DelayAt(s: Sweep, phase: real, sampleRate: real, sinf: real -> real): real
  {
    (s.delay + s.width * Lfo.Lfo(phase, s.waveform, sinf)) * sampleRate
  }

  /** The delay plus the width scaled by an LFO value in [0, 1], in seconds. */
  lemma SweepBound(delay: real, width: real, l: real)
    requires 0.0 <= delay <= MaxDelaySeconds && 0.0 <= width <= MaxWidthSeconds && 0.0 <= l <= 1.0
    ensures 0.0 <= delay + width * l <= MaxSweepSeconds
  {
    ScaleNonnegative(width, l);
    ScaleNonnegative(width, 1.0 - l);
    assert width * 1.0 - width * l == width * (1.0 - l);
  }

  /** A sweep in seconds within [0, MaxSweepSeconds], in samples. */
  lemma SamplesBound(seconds: real, sampleRate: real)
    requires 0.0 <= seconds <= MaxSweepSeconds && sampleRate > 0.0
    ensures 0.0 <= seconds * sampleRate <= MaxSweepSeconds * sampleRate
  {
    MulLe(seconds, MaxSweepSeconds, sampleRate);
    ScaleNonnegative(seconds, sampleRate);
  }

  /** For a wrapped phase the swept delay lies between zero and the longest delay. */
  lemma DelayInLine(s: Sweep, phase: real, sampleRate: real, sinf: real -> real)
    requires Sweeps(s, sampleRate, sinf) && 0.0 <= phase < 1.0
    ensures 0.0 <= DelayAt(s, phase, sampleRate, sinf) <= MaxSweepSeconds * sampleRate
  {
    var l := Lfo.Lfo(phase, s.waveform, sinf);
    assert 0.0 <= l <= 1.0;
    DelayBound(s.delay, s.width, l, sampleRate);
  }

  /** The swept delay in samples for an LFO value in [0, 1]. */
  lemma DelayBound(delay: real, width: real, l: real, sampleRate: real)
    requires 0.0 <= delay <= MaxDelaySeconds && 0.0 <= width <= MaxWidthSeconds && 0.0 <= l <= 1.0
    requires sampleRate > 0.0
    ensures 0.0 <= (delay + width * l) * sampleRate <= MaxSweepSeconds * sampleRate
  {
    SweepBound(delay, width, l);
    SamplesBound(delay + width * l, sampleRate);
  }

  /** One sample of the inner loop: the delayed sample is read with the chosen
      kernel; the output adds it scaled by depth and inversion, the cursor slot
      receives the input plus it scaled by the feedback. */
  function Step(line: seq<real>, w: int, x: real, delaySamples: real, p: Params): (r: (real, seq<real>))
    requires 0 <= w < |line| && 0.0 <= delaySamples <= |line| as real
    ensures |r.1| == |line|
    ensures forall j | 0 <= j < |line| && j != w :: r.1[j] == line[j]
    ensures p.depth == 0.0 ==> r.0 == x
  {
    var delayed := Interpolate(p.interpolation, line, ReadPosition(w, delaySamples, |line|));
    (x + Scale(p.depth * Inversion(p.inverted), delayed), line[w := x + Scale(p.feedback, delayed)])
  }

  /** Flanger's per-sample kernel: the delay follows the LFO phase. */
  function Tap(p: Params, sampleRate: real, sinf: real -> real): Kernel<real>
  {
    (l: seq<real>, c: int, phase: real, x: real)
      requires 0 <= c < |l| && 0.0 <= DelayAt(p.sweep, phase, sampleRate, sinf) <= |l| as real =>
      Step(l, c, x, DelayAt(p.sweep, phase, sampleRate, sinf), p)
  }

  /** On any line that holds the longest delay the kernel is defined for every
      phase and writes nothing but the cursor slot; both the line prepareToPlay
      allocates and the intended one qualify. */
  lemma TapWritesCursor(p: Params, sampleRate: real, sinf: real -> real, n: int)
    requires Sweeps(p.sweep, sampleRate, sinf) && 1 <= n
    requires MaxSweepSeconds * sampleRate <= n as real
    ensures WritesCursor(Tap(p, sampleRate, sinf), n)
  {
    var k := Tap(p, sampleRate, sinf);
    forall l: seq<real>, c: int, phase: real, x: real | |l| == n && 0 <= c < n && 0.0 <= phase < 1.0
      ensures k.requires(l, c, phase, x) && |k(l, c, phase, x).1| == n
      ensures forall j | 0 <= j < n && j != c :: k(l, c, phase, x).1[j] == l[j]
    {
      DelayInLine(p.sweep, phase, sampleRate, sinf);
    }
  }

  /** One channel's pass through a block from cursor w and LFO phase `phase`. */
  function Flange(line: seq<real>, w: int, phase: real, xs: seq<real>, p: Params,
                  sampleRate: real, increment: real, sinf: real -> real): Pass<real>
    requires 0 <= w < |line| && 0.0 <= phase < 1.0 && 0.0 <= increment < 1.0
    requires Sweeps(p.sweep, sampleRate, sinf) && MaxSweepSeconds * sampleRate <= |line| as real
  {
    TapWritesCursor(p, sampleRate, sinf, |line|);
    Run(Tap(p, sampleRate, sinf), increment, line, w, phase, xs)
  }

  /** With depth zero the output is the dry input, whatever the line holds. */
  lemma DepthZeroIsDry(line: seq<real>, w: int, phase: real, xs: seq<real>, p: Params,
                       sampleRate: real, increment: real, sinf: real -> real)
    requires 0 <= w < |line| && 0.0 <= phase < 1.0 && 0.0 <= increment < 1.0
    requires Sweeps(p.sweep, sampleRate, sinf) && MaxSweepSeconds * sampleRate <= |line| as real
    requires p.depth == 0.0
    ensures Flange(line, w, phase, xs, p, sampleRate, increment, sinf).out == xs
  {
    var k := Tap(p, sampleRate, sinf);
    TapWritesCursor(p, sampleRate, sinf, |line|);
    forall l: seq<real>, c: int, ph: real, x: real | |l| == |line| && 0 <= c < |l| && 0.0 <= ph < 1.0
      ensures k(l, c, ph, x).0 == x
    {
      DelayInLine(p.sweep, ph, sampleRate, sinf);
    }
    MapsInputPass(Tap(p, sampleRate, sinf), increment, line, w, phase, xs, x => x);
  }

  /** One sample in inverted mode: the same write, and the output mirrored
      about the input. */
  lemma StepInverted(line: seq<real>, w: int, x: real, delaySamples: real, p: Params)
    requires 0 <= w < |line| && 0.0 <= delaySamples <= |line| as real
    ensures var normal := Step(line, w, x, delaySamples, p.(inverted := false));
            Step(line, w, x, delaySamples, p.(inverted := true)) == (x + x - normal.0, normal.1)
  {
    var delayed := Interpolate(p.interpolation, line, ReadPosition(w, delaySamples, |line|));
    assert p.depth * Inversion(true) == -p.depth && p.depth * Inversion(false) == p.depth;
    ScaleNegated(p.depth, delayed);
  }

  /** The inverted output in terms of the normal one: mirrored about the input. */
  function MirrorAbout(x: real, y: real): (r: real)
    ensures r - x == -(y - x)
  {
    x + x - y
  }

  /** The inverted-mode kernel shadows the normal-mode one through MirrorAbout. */
  lemma TapInvertedShadows(p: Params, sampleRate: real, sinf: real -> real, n: int)
    requires Sweeps(p.sweep, sampleRate, sinf) && 1 <= n && MaxSweepSeconds * sampleRate <= n as real
    ensures Shadows(Tap(p.(inverted := false), sampleRate, sinf), Tap(p.(inverted := true), sampleRate, sinf), n, MirrorAbout)
  {
    var pn, pm := p.(inverted := false), p.(inverted := true);
    var kn, km := Tap(pn, sampleRate, sinf), Tap(pm, sampleRate, sinf);
    TapWritesCursor(pn, sampleRate, sinf, n);
    TapWritesCursor(pm, sampleRate, sinf, n);
    forall l: seq<real>, c: int, ph: real, x: real | |l| == n && 0 <= c < n && 0.0 <= ph < 1.0
      ensures km(l, c, ph, x) == (MirrorAbout(x, kn(l, c, ph, x).0), kn(l, c, ph, x).1)
    {
      DelayInLine(p.sweep, ph, sampleRate, sinf);
      TapInvertedAt(p, sampleRate, sinf, l, c, ph, x);
    }
  }

  /** The same, at one line, cursor, phase and sample. */
  lemma TapInvertedAt(p: Params, sampleRate: real, sinf: real -> real, l: seq<real>, c: int, ph: real, x: real)
    requires 0 <= c < |l| && 0.0 <= DelayAt(p.sweep, ph, sampleRate, sinf) <= |l| as real
    ensures var kn, km := Tap(p.(inverted := false), sampleRate, sinf), Tap(p.(inverted := true), sampleRate, sinf);
            km.requires(l, c, ph, x) && kn.requires(l, c, ph, x) &&
            km(l, c, ph, x) == (MirrorAbout(x, kn(l, c, ph, x).0), kn(l, c, ph, x).1)
  {
    var d := DelayAt(p.sweep, ph, sampleRate, sinf);
    StepInverted(l, c, x, d, p);
  }

  /** Inverted mode mirrors the wet signal about the input and changes nothing
      else: the line and phase end as in normal mode, and each output differs
      from the input by the negated normal-mode difference. */
  lemma InversionMirrorsWet(line: seq<real>, w: int, phase: real, xs: seq<real>, p: Params,
                            sampleRate: real, increment: real, sinf: real -> real)
    requires 0 <= w < |line| && 0.0 <= phase < 1.0 && 0.0 <= increment < 1.0
    requires Sweeps(p.sweep, sampleRate, sinf) && MaxSweepSeconds * sampleRate <= |line| as real
    ensures var normal := Flange(line, w, phase, xs, p.(inverted := false), sampleRate, increment, sinf);
            var mirrored := Flange(line, w, phase, xs, p.(inverted := true), sampleRate, increment, sinf);
            mirrored.line == normal.line && mirrored.phase == normal.phase &&
            forall k | 0 <= k < |xs| :: mirrored.out[k] - xs[k] == -(normal.out[k] - xs[k])
  {
    TapInvertedShadows(p, sampleRate, sinf, |line|);
    ShadowPass(Tap(p.(inverted := false), sampleRate, sinf), Tap(p.(inverted := true), sampleRate, sinf),
               increment, line, w, phase, xs, MirrorAbout);
  }

  /** Silence into a silent line gives silence and leaves the line silent, for
      every waveform, kernel and parameter setting. */
  lemma QuietInQuietOut(line: seq<real>, w: int, phase: real, xs: seq<real>, p: Params,
                        sampleRate: real, increment: real, sinf: real -> real)
    requires 0 <= w < |line| && 0.0 <= phase < 1.0 && 0.0 <= increment < 1.0
    requires Sweeps(p.sweep, sampleRate, sinf) && MaxSweepSeconds * sampleRate <= |line| as real
    requires Silent(line, 0.0) && Silent(xs, 0.0)
    ensures Silent(Flange(line, w, phase, xs, p, sampleRate, increment, sinf).out, 0.0)
    ensures Silent(Flange(line, w, phase, xs, p, sampleRate, increment, sinf).line, 0.0)
  {
    var k := Tap(p, sampleRate, sinf);
    TapWritesCursor(p, sampleRate, sinf, |line|);
    forall l: seq<real>, c: int, ph: real
      | |l| == |line| && 0 <= c < |l| && 0.0 <= ph < 1.0 && Silent(l, 0.0)
      ensures k(l, c, ph, 0.0).0 == 0.0 && Silent(k(l, c, ph, 0.0).1, 0.0)
    {
      DelayInLine(p.sweep, ph, sampleRate, sinf);
      SilentBufferReadsSilence(p.interpolation, l, ReadPosition(c, DelayAt(p.sweep, ph, sampleRate, sinf), |l|));
    }
    Block.SilenceStaysSilent(k, increment, line, w, phase, xs, 0.0);
  }

  /** The stereo offset `phase = fmodf(phase + 0.25, 1)` on a wrapped phase. */
  function ShiftQuarter(phase: real): (r: real)
    requires 0.0 <= phase < 1.0
    ensures 0.0 <= r < 1.0
  {
    if phase + 0.25 >= 1.0 then phase - 0.75 else phase + 0.25
  }

  /** The quarter shift is fmodf(phase + 0.25, 1). */
  lemma ShiftQuarterIsFmod(phase: real)
    requires 0.0 <= phase < 1.0
    ensures ShiftQuarter(phase) == Fmod(phase + 0.25, 1.0)
  {
    TruncQuotientBelowTwo(phase + 0.25, 1.0);
    assert (phase + 0.25) / 1.0 == phase + 0.25;
  }

  /** The phase channel c of a block starts from, as the channel loop carries
      it: channel 0 starts from the phase the block starts with; every later
      channel continues from where the previous channel's sweep ended, a
      quarter cycle further in stereo mode. */
  function ChannelPhase(initialPhase: real, increment: real, numSamples: nat, stereo: bool, c: nat): (r: real)
    requires 0.0 <= initialPhase < 1.0 && 0.0 <= increment < 1.0
    ensures 0.0 <= r < 1.0
    decreases c, 0
  {
    if c == 0 then initialPhase
    else
      var e := ChannelEnd(initialPhase, increment, numSamples, stereo, c - 1);
      if stereo then ShiftQuarter(e) else e
  }

  /** The phase channel c's sweep ends on, numSamples increments after its start. */
  function ChannelEnd(initialPhase: real, increment: real, numSamples: nat, stereo: bool, c: nat): (r: real)
    requires 0.0 <= initialPhase < 1.0 && 0.0 <= increment < 1.0
    ensures 0.0 <= r < 1.0
    decreases c, 1
  {
    AdvancePhaseBy(ChannelPhase(initialPhase, increment, numSamples, stereo, c), increment, numSamples)
  }

  /** Without the stereo option channel c starts where channel 0 would be after
      c whole blocks: the channels do not share one sweep. */
  lemma {:induction false} MonoChannelsDrift(initialPhase: real, increment: real, numSamples: nat, c: nat)
    requires 0.0 <= initialPhase < 1.0 && 0.0 <= increment < 1.0
    ensures ChannelPhase(initialPhase, increment, numSamples, false, c) == AdvancePhaseBy(initialPhase, increment, c * numSamples)
  {
    if c > 0 {
      var before := (c - 1) * numSamples;
      MonoChannelsDrift(initialPhase, increment, numSamples, c - 1);
      AdvancePhaseByAdds(initialPhase, increment, before, numSamples);
      WholeBlocks(c, numSamples);
    }
  }

  lemma WholeBlocks(c: nat, numSamples: nat)
    requires c > 0
    ensures (c - 1) * numSamples + numSamples == c * numSamples
  {
  }

  /** The drift in numbers: at an increment of a quarter cycle, a one-sample
      block and no stereo, the second channel starts a quarter cycle off. */
  lemma SecondChannelStartsOff()
    ensures ChannelPhase(0.0, 0.25, 1, false, 1) == 0.25
  {
  }

  /** The start phases the stereo option evidently means: every channel starts
      from the block's phase, channels other than 0 a quarter cycle ahead in
      stereo mode. */
  function IntendedChannelPhase(startPhase: real, stereo: bool, c: nat): (r: real)
    requires 0.0 <= startPhase < 1.0
    ensures 0.0 <= r < 1.0
    ensures !stereo || c == 0 ==> r == startPhase
  {
    if stereo && c != 0 then ShiftQuarter(startPhase) else startPhase
  }

  /** Advancing the phase commutes with the quarter shift. */
  lemma {:induction false} ShiftQuarterCommutes(phase: real, increment: real, n: nat)
    requires 0.0 <= phase < 1.0 && 0.0 <= increment < 1.0
    ensures AdvancePhaseBy(ShiftQuarter(phase), increment, n) == ShiftQuarter(AdvancePhaseBy(phase, increment, n))
  {
    if n > 0 {
      ShiftQuarterCommutes(phase, increment, n - 1);
    }
  }

  /** With the intended start phases channel c is, at every sample of the
      block, exactly where channel 0 is in mono and a quarter cycle ahead of it
      in stereo. */
  lemma IntendedChannelsLocked(startPhase: real, increment: real, stereo: bool, c: nat, n: nat)
    requires 0.0 <= startPhase < 1.0 && 0.0 <= increment < 1.0 && c != 0
    ensures AdvancePhaseBy(IntendedChannelPhase(startPhase, stereo, c), increment, n) ==
            if stereo then ShiftQuarter(AdvancePhaseBy(startPhase, increment, n)) else AdvancePhaseBy(startPhase, increment, n)
  {
    if stereo {
      ShiftQuarterCommutes(startPhase, increment, n);
    }
  }

  /** The swept delay of the first sample depends on the phase the block starts
      from: with a triangle LFO it is 288 samples at phase 0 and 528 at phase
      0.25 (48 kHz, delay 1 ms, width 10 ms). */
  lemma FirstDelayDependsOnPhase(s: Sweep, sinf: real -> real)
    requires s == Sweep(0.001, 0.01, Triangle)
    ensures DelayAt(s, 0.0, 48000.0, sinf) == 288.0
    ensures DelayAt(s, 0.25, 48000.0, sinf) == 528.0
  {
  }

  /** The LFO phase advance per sample, `frequency * inverseSampleRate`. */
  function PhaseIncrement(p: Params, inverseSampleRate: real): (r: real)
    ensures p.frequency == 0.0 || inverseSampleRate == 0.0 ==> r == 0.0
  {
    p.frequency * inverseSampleRate
  }

  class FlangerProcessor {
    var sampleRate: real
    var inverseSampleRate: real
    var capacity: int
    var delayBuffer: seq<array<real>>
    var writePosition: int
    var lfoPhase: real

    /** The state prepareToPlay sets up and processBlock keeps. */
    ghost predicate Valid()
      reads this
    {
      sampleRate > 0.0 &&
      capacity == Capacity(sampleRate) &&
      0 <= writePosition < capacity && 0.0 <= lfoPhase < 1.0 &&
      (forall c | 0 <= c < |delayBuffer| :: delayBuffer[c].Length == capacity) &&
      Distinct(delayBuffer)
    }

    /** prepareToPlay: one silent line per input channel, cursor and phase at
        zero, the inverse sample rate kept for the phase increment. */
    method PrepareToPlay(rate: real, numInputs: nat)
      requires rate > 0.0
      modifies this
      ensures Valid()
      ensures sampleRate == rate && inverseSampleRate == 1.0 / rate
      ensures capacity == Capacity(rate) && writePosition == 0 && lfoPhase == 0.0
      ensures |delayBuffer| == numInputs
      ensures forall c | 0 <= c < numInputs :: fresh(delayBuffer[c]) && delayBuffer[c][..] == Silence(capacity)
    {
      var n := Capacity(rate);
      var lines: seq<array<real>> := [];
      while |lines| < numInputs
        invariant |lines| <= numInputs
        invariant forall c | 0 <= c < |lines| :: fresh(lines[c]) && lines[c][..] == Silence(n)
        invariant Distinct(lines)
      {
        var a := new real[n](_ => 0.0);
        lines := lines + [a];
      }
      sampleRate := rate;
      inverseSampleRate := 1.0 / rate;
      capacity := n;
      delayBuffer := lines;
      writePosition := 0;
      lfoPhase := 0.0;
    }

    /** One channel of the block, picked out of the audio and delay buffers:
        the sample loop on channel c; every other channel and line is left as
        it was. */
    static method RunChannel(buffer: seq<array<real>>, lines: seq<array<real>>, c: nat, k: Kernel<real>,
                             increment: real, w0: int, phase0: real) returns (w: int, phase: real)
      requires c < |buffer| && c < |lines| && Separate(buffer, lines) && Distinct(lines)
      requires 0 <= w0 < lines[c].Length && WritesCursor(k, lines[c].Length)
      requires 0.0 <= increment < 1.0 && 0.0 <= phase0 < 1.0
      modifies buffer[c], lines[c]
      ensures var r := Run(k, increment, old(lines[c][..]), w0, phase0, old(buffer[c][..]));
              buffer[c][..] == r.out && lines[c][..] == r.line && w == r.cursor && phase == r.phase
      ensures forall e | 0 <= e < |buffer| && e != c :: buffer[e][..] == old(buffer[e][..])
      ensures forall e | 0 <= e < |lines| && e != c :: lines[e][..] == old(lines[e][..])
    {
      w, phase := ProcessChannel(k, increment, buffer[c], lines[c], w0, phase0);
    }

    /** The channel loop of processBlock as written, for any kernel that writes
        only the cursor slot: each of the first numInputs channels runs through
        its own line from cursor w0; the phase carries over from one channel to
        the next, a quarter cycle further in stereo mode. Returns the cursor
        the channels end on and the phase channel 0 ended on. */
    static method ProcessInputs(buffer: seq<array<real>>, lines: seq<array<real>>, numInputs: nat, numSamples: nat,
                                n: int, w0: int, k: Kernel<real>, increment: real, stereo: bool, initialPhase: real)
      returns (w: int, phaseMain: real)
      requires 1 <= numInputs <= |lines| && numInputs <= |buffer| && Separate(buffer, lines) && Distinct(lines)
      requires forall c | 0 <= c < |lines| :: lines[c].Length == n
      requires forall c | 0 <= c < |buffer| :: buffer[c].Length == numSamples
      requires 0 <= w0 < n && WritesCursor(k, n)
      requires 0.0 <= increment < 1.0 && 0.0 <= initialPhase < 1.0
      modifies buffer, lines
      ensures w == Run(k, increment, old(lines[0][..]), w0, initialPhase, old(buffer[0][..])).cursor
      ensures phaseMain == AdvancePhaseBy(initialPhase, increment, numSamples)
      ensures forall c | 0 <= c < numInputs ::
                var r := Run(k, increment, old(lines[c][..]), w0,
                             ChannelPhase(initialPhase, increment, numSamples, stereo, c), old(buffer[c][..]));
                buffer[c][..] == r.out && lines[c][..] == r.line
      ensures forall c | numInputs <= c < |buffer| :: buffer[c][..] == old(buffer[c][..])
      ensures forall c | numInputs <= c < |lines| :: lines[c][..] == old(lines[c][..])
    {
      ghost var ob := seq(|buffer|, i requires 0 <= i < |buffer| reads buffer => buffer[i][..]);
      ghost var ol := seq(|lines|, i requires 0 <= i < |lines| reads lines => lines[i][..]);
      var phase;
      w, phase := CarryChannel(buffer, lines, 0, k, increment, w0, initialPhase, stereo, initialPhase, numSamples);
      phaseMain := phase;
      var c := 1;
      while c < numInputs
        invariant 1 <= c <= numInputs
        invariant Carried(buffer, lines, k, increment, w0, initialPhase, numSamples, stereo, c, n, ob, ol)
        invariant phase == ChannelEnd(initialPhase, increment, numSamples, stereo, c - 1)
      {
        phase := CarryOn(buffer, lines, c, k, increment, w0, phase, stereo, initialPhase, numSamples, n, ob, ol);
        c := c + 1;
      }
    }

    /** The channels before c hold their pass from the start phase ChannelPhase
        gives them; the channels from c on still hold `ob` and `ol`. */
    static ghost predicate Carried(buffer: seq<array<real>>, lines: seq<array<real>>, k: Kernel<real>, increment: real,
                            w0: int, initialPhase: real, numSamples: nat, stereo: bool, c: nat, n: int,
                            ob: seq<seq<real>>, ol: seq<seq<real>>)
      requires 0.0 <= increment < 1.0 && 0.0 <= initialPhase < 1.0 && 0 <= w0 < n && Fits(k, n)
      reads buffer, lines
    {
      |ob| == |buffer| && |ol| == |lines| && c <= |buffer| && c <= |lines| &&
      (forall e | 0 <= e < |ol| :: |ol[e]| == n) &&
      (forall e | 0 <= e < c ::
         var r := Run(k, increment, ol[e], w0, ChannelPhase(initialPhase, increment, numSamples, stereo, e), ob[e]);
         buffer[e][..] == r.out && lines[e][..] == r.line) &&
      (forall e | c <= e < |buffer| :: buffer[e][..] == ob[e]) &&
      (forall e | c <= e < |lines| :: lines[e][..] == ol[e])
    }

    /** One turn of the channel loop, channel c >= 1, in terms of Carried. */
    static method CarryOn(buffer: seq<array<real>>, lines: seq<array<real>>, c: nat, k: Kernel<real>,
                          increment: real, w0: int, phaseIn: real, stereo: bool, initialPhase: real,
                          numSamples: nat, n: int, ghost ob: seq<seq<real>>, ghost ol: seq<seq<real>>)
      returns (phase: real)
      requires 1 <= c < |buffer| && c < |lines| && Separate(buffer, lines) && Distinct(lines)
      requires lines[c].Length == n && buffer[c].Length == numSamples
      requires 0 <= w0 < n && WritesCursor(k, n)
      requires 0.0 <= increment < 1.0 && 0.0 <= initialPhase < 1.0
      requires phaseIn == ChannelEnd(initialPhase, increment, numSamples, stereo, c - 1)
      requires Carried(buffer, lines, k, increment, w0, initialPhase, numSamples, stereo, c, n, ob, ol)
      modifies buffer[c], lines[c]
      ensures Carried(buffer, lines, k, increment, w0, initialPhase, numSamples, stereo, c + 1, n, ob, ol)
      ensures phase == ChannelEnd(initialPhase, increment, numSamples, stereo, c)
    {
      var wc;
      wc, phase := CarryChannel(buffer, lines, c, k, increment, w0, phaseIn, stereo, initialPhase, numSamples);
    }

    /** One pass of the channel loop as written: in stereo mode a channel other
        than 0 first moves the carried phase a quarter cycle on; the channel
        then runs from it, and the phase its sweep ends on is carried on. */
    static method CarryChannel(buffer: seq<array<real>>, lines: seq<array<real>>, c: nat, k: Kernel<real>,
                               increment: real, w0: int, phaseIn: real, stereo: bool,
                               initialPhase: real, numSamples: nat) returns (w: int, phase: real)
      requires c < |buffer| && c < |lines| && Separate(buffer, lines) && Distinct(lines)
      requires 0 <= w0 < lines[c].Length && WritesCursor(k, lines[c].Length) && buffer[c].Length == numSamples
      requires 0.0 <= increment < 1.0 && 0.0 <= initialPhase < 1.0
      requires phaseIn == if c == 0 then initialPhase else ChannelEnd(initialPhase, increment, numSamples, stereo, c - 1)
      modifies buffer[c], lines[c]
      ensures var r := Run(k, increment, old(lines[c][..]), w0,
                           ChannelPhase(initialPhase, increment, numSamples, stereo, c), old(buffer[c][..]));
              buffer[c][..] == r.out && lines[c][..] == r.line && w == r.cursor
      ensures phase == ChannelEnd(initialPhase, increment, numSamples, stereo, c)
      ensures forall e | 0 <= e < |buffer| && e != c :: buffer[e][..] == old(buffer[e][..])
      ensures forall e | 0 <= e < |lines| && e != c :: lines[e][..] == old(lines[e][..])
    {
      phase := phaseIn;
      if stereo && c != 0 {
        phase := ShiftQuarter(phase);
      }
      assert phase == ChannelPhase(initialPhase, increment, numSamples, stereo, c);
      RunPhase(k, increment, lines[c][..], w0, phase, buffer[c][..]);
      w, phase := RunChannel(buffer, lines, c, k, increment, w0, phase);
    }

    /** processBlock as written. `initialPhase` stands for the value the
        uninitialised local `phase` happens to hold: every input channel runs
        from the stored cursor and from the phase ChannelPhase gives it; the
        cursor advances by the block length and the stored phase becomes the
        phase channel 0 ended on. Output channels beyond the inputs are left
        as they are. */
    method ProcessBlock(buffer: seq<array<real>>, numInputs: nat, numSamples: nat, p: Params,
                        sinf: real -> real, initialPhase: real)
      requires Valid()
      requires 1 <= numInputs <= |delayBuffer| && numInputs <= |buffer|
      requires forall c | 0 <= c < |buffer| :: buffer[c].Length == numSamples
      requires Separate(buffer, delayBuffer)
      requires Sweeps(p.sweep, sampleRate, sinf) && 0.0 <= PhaseIncrement(p, inverseSampleRate) < 1.0
      requires 0.0 <= initialPhase < 1.0
      modifies buffer, delayBuffer, this`writePosition, this`lfoPhase
      ensures Valid()
      ensures writePosition == (old(writePosition) + numSamples) % capacity
      ensures lfoPhase == AdvancePhaseBy(initialPhase, PhaseIncrement(p, inverseSampleRate), numSamples)
      ensures forall c | 0 <= c < numInputs ::
                var r := Flange(old(delayBuffer[c][..]), old(writePosition),
                                ChannelPhase(initialPhase, PhaseIncrement(p, inverseSampleRate), numSamples, p.stereo, c),
                                old(buffer[c][..]), p, sampleRate, PhaseIncrement(p, inverseSampleRate), sinf);
                buffer[c][..] == r.out && delayBuffer[c][..] == r.line
      ensures forall c | numInputs <= c < |buffer| :: buffer[c][..] == old(buffer[c][..])
      ensures forall c | numInputs <= c < |delayBuffer| :: delayBuffer[c][..] == old(delayBuffer[c][..])
    {
      var increment := PhaseIncrement(p, inverseSampleRate);
      CapacityHoldsLongestDelay(sampleRate);
      var w, phaseMain := FlangeInputs(buffer, delayBuffer, numInputs, numSamples, capacity, writePosition,
                                       p, sampleRate, sinf, increment, initialPhase);
      writePosition := w;
      lfoPhase := phaseMain;
    }

    /** The channel loop as written, with the flanger's kernel. */
    static method FlangeInputs(buffer: seq<array<real>>, lines: seq<array<real>>, numInputs: nat, numSamples: nat,
                               n: int, w0: int, p: Params, sampleRate: real, sinf: real -> real,
                               increment: real, initialPhase: real)
      returns (w: int, phaseMain: real)
      requires 1 <= numInputs <= |lines| && numInputs <= |buffer| && Separate(buffer, lines) && Distinct(lines)
      requires forall c | 0 <= c < |lines| :: lines[c].Length == n
      requires forall c | 0 <= c < |buffer| :: buffer[c].Length == numSamples
      requires 0 <= w0 < n && Sweeps(p.sweep, sampleRate, sinf) && MaxSweepSeconds * sampleRate <= n as real
      requires 0.0 <= increment < 1.0 && 0.0 <= initialPhase < 1.0
      modifies buffer, lines
      ensures w == (w0 + numSamples) % n
      ensures phaseMain == AdvancePhaseBy(initialPhase, increment, numSamples)
      ensures forall c | 0 <= c < numInputs ::
                var r := Flange(old(lines[c][..]), w0, ChannelPhase(initialPhase, increment, numSamples, p.stereo, c),
                                old(buffer[c][..]), p, sampleRate, increment, sinf);
                buffer[c][..] == r.out && lines[c][..] == r.line
      ensures forall c | numInputs <= c < |buffer| :: buffer[c][..] == old(buffer[c][..])
      ensures forall c | numInputs <= c < |lines| :: lines[c][..] == old(lines[c][..])
    {
      TapWritesCursor(p, sampleRate, sinf, n);
      w, phaseMain := ProcessInputs(buffer, lines, numInputs, numSamples, n, w0,
                                    Tap(p, sampleRate, sinf), increment, p.stereo, initialPhase);
    }

    /** The channel loop with the start phases evidently intended: every
        channel starts from IntendedChannelPhase of the block's phase. */
    static method ProcessInputsLocked(buffer: seq<array<real>>, lines: seq<array<real>>, numInputs: nat, numSamples: nat,
                                      n: int, w0: int, k: Kernel<real>, increment: real, stereo: bool, startPhase: real)
      returns (w: int, phaseMain: real)
      requires 1 <= numInputs <= |lines| && numInputs <= |buffer| && Separate(buffer, lines) && Distinct(lines)
      requires forall c | 0 <= c < |lines| :: lines[c].Length == n
      requires forall c | 0 <= c < |buffer| :: buffer[c].Length == numSamples
      requires 0 <= w0 < n && WritesCursor(k, n)
      requires 0.0 <= increment < 1.0 && 0.0 <= startPhase < 1.0
      modifies buffer, lines
      ensures w == Run(k, increment, old(lines[0][..]), w0, startPhase, old(buffer[0][..])).cursor
      ensures phaseMain == AdvancePhaseBy(startPhase, increment, numSamples)
      ensures forall c | 0 <= c < numInputs ::
                var r := Run(k, increment, old(lines[c][..]), w0,
                             IntendedChannelPhase(startPhase, stereo, c), old(buffer[c][..]));
                buffer[c][..] == r.out && lines[c][..] == r.line
      ensures forall c | numInputs <= c < |buffer| :: buffer[c][..] == old(buffer[c][..])
      ensures forall c | numInputs <= c < |lines| :: lines[c][..] == old(lines[c][..])
    {
      w, phaseMain := w0, startPhase;
      var c := 0;
      while c < numInputs
        invariant 0 <= c <= numInputs
        invariant c > 0 ==> phaseMain == AdvancePhaseBy(startPhase, increment, numSamples)
        invariant c > 0 ==> w == Run(k, increment, old(lines[0][..]), w0, startPhase, old(buffer[0][..])).cursor
        invariant forall e | 0 <= e < c ::
                    var r := Run(k, increment, old(lines[e][..]), w0,
                                 IntendedChannelPhase(startPhase, stereo, e), old(buffer[e][..]));
                    buffer[e][..] == r.out && lines[e][..] == r.line
        invariant forall e | c <= e < |buffer| :: buffer[e][..] == old(buffer[e][..])
        invariant forall e | c <= e < |lines| :: lines[e][..] == old(lines[e][..])
      {
        var start := IntendedChannelPhase(startPhase, stereo, c);
        RunPhase(k, increment, lines[c][..], w0, start, buffer[c][..]);
        var wc, phase := RunChannel(buffer, lines, c, k, increment, w0, start);
        if c == 0 {
          w, phaseMain := wc, phase;
        }
        c := c + 1;
      }
    }

    /** processBlock with the LFO as evidently intended: the block starts from
        the stored phase, so the sweep continues from the previous block, and
        every channel from IntendedChannelPhase of it; the stored phase becomes
        the phase channel 0 ended on. */
    method ProcessBlockResumed(buffer: seq<array<real>>, numInputs: nat, numSamples: nat, p: Params,
                               sinf: real -> real)
      requires Valid()
      requires 1 <= numInputs <= |delayBuffer| && numInputs <= |buffer|
      requires forall c | 0 <= c < |buffer| :: buffer[c].Length == numSamples
      requires Separate(buffer, delayBuffer)
      requires Sweeps(p.sweep, sampleRate, sinf) && 0.0 <= PhaseIncrement(p, inverseSampleRate) < 1.0
      modifies buffer, delayBuffer, this`writePosition, this`lfoPhase
      ensures Valid()
      ensures writePosition == (old(writePosition) + numSamples) % capacity
      ensures lfoPhase == AdvancePhaseBy(old(lfoPhase), PhaseIncrement(p, inverseSampleRate), numSamples)
      ensures forall c | 0 <= c < numInputs ::
                var r := Flange(old(delayBuffer[c][..]), old(writePosition),
                                IntendedChannelPhase(old(lfoPhase), p.stereo, c),
                                old(buffer[c][..]), p, sampleRate, PhaseIncrement(p, inverseSampleRate), sinf);
                buffer[c][..] == r.out && delayBuffer[c][..] == r.line
      ensures forall c | numInputs <= c < |buffer| :: buffer[c][..] == old(buffer[c][..])
      ensures forall c | numInputs <= c < |delayBuffer| :: delayBuffer[c][..] == old(delayBuffer[c][..])
    {
      var increment := PhaseIncrement(p, inverseSampleRate);
      CapacityHoldsLongestDelay(sampleRate);
      var w, phaseMain := FlangeInputsLocked(buffer, delayBuffer, numInputs, numSamples, capacity, writePosition,
                                             p, sampleRate, sinf, increment, lfoPhase);
      writePosition := w;
      lfoPhase := phaseMain;
    }

    /** The channel loop with the intended start phases, with the flanger's kernel. */
    static method FlangeInputsLocked(buffer: seq<array<real>>, lines: seq<array<real>>, numInputs: nat, numSamples: nat,
                                     n: int, w0: int, p: Params, sampleRate: real, sinf: real -> real,
                                     increment: real, startPhase: real)
      returns (w: int, phaseMain: real)
      requires 1 <= numInputs <= |lines| && numInputs <= |buffer| && Separate(buffer, lines) && Distinct(lines)
      requires forall c | 0 <= c < |lines| :: lines[c].Length == n
      requires forall c | 0 <= c < |buffer| :: buffer[c].Length == numSamples
      requires 0 <= w0 < n && Sweeps(p.sweep, sampleRate, sinf) && MaxSweepSeconds * sampleRate <= n as real
      requires 0.0 <= increment < 1.0 && 0.0 <= startPhase < 1.0
      modifies buffer, lines
      ensures w == (w0 + numSamples) % n
      ensures phaseMain == AdvancePhaseBy(startPhase, increment, numSamples)
      ensures forall c | 0 <= c < numInputs ::
                var r := Flange(old(lines[c][..]), w0, IntendedChannelPhase(startPhase, p.stereo, c),
                                old(buffer[c][..]), p, sampleRate, increment, sinf);
                buffer[c][..] == r.out && lines[c][..] == r.line
      ensures forall c | numInputs <= c < |buffer| :: buffer[c][..] == old(buffer[c][..])
      ensures forall c | numInputs <= c < |lines| :: lines[c][..] == old(lines[c][..])
    {
      TapWritesCursor(p, sampleRate, sinf, n);
      w, phaseMain := ProcessInputsLocked(buffer, lines, numInputs, numSamples, n, w0,
                                          Tap(p, sampleRate, sinf), increment, p.stereo, startPhase);
    }
  }

  /** With the stored phase resumed, two consecutive blocks on a channel are
      one uninterrupted pass over both: the sweep does not jump at the block
      boundary. */
  lemma ResumedBlocksJoin(line: seq<real>, w: int, phase: real, xs: seq<real>, ys: seq<real>, p: Params,
                          sampleRate: real, increment: real, sinf: real -> real)
    requires 0 <= w < |line| && 0.0 <= phase < 1.0 && 0.0 <= increment < 1.0
    requires Sweeps(p.sweep, sampleRate, sinf) && MaxSweepSeconds * sampleRate <= |line| as real
    ensures var a := Flange(line, w, phase, xs, p, sampleRate, increment, sinf);
            var b := Flange(a.line, a.cursor, a.phase, ys, p, sampleRate, increment, sinf);
            var ab := Flange(line, w, phase, xs + ys, p, sampleRate, increment, sinf);
            ab.out == a.out + b.out && ab.line == b.line && ab.cursor == b.cursor && ab.phase == b.phase
  {
    TapWritesCursor(p, sampleRate, sinf, |line|);
    BlocksCompose(Tap(p, sampleRate, sinf), increment, line, w, phase, xs, ys);
  }
}
