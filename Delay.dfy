/** The Delay effect (Delay/PluginProcessor.cpp): a feedback echo read from a
    circular delay line per input channel with linear interpolation. */
module Delay {
  import opened DelayLine
  import opened Block
  import opened AudioBuffer

  /** Upper end of the "Time" slider, in seconds. */
  const MaxDelayTime: real := 5.0

  /** prepareToPlay's delay-line length: `(int)(maxDelayTime * sampleRate + 1)`,
      raised to one. It always exceeds the longest delay in samples. */
  function Capacity(sampleRate: real): (n: int)
    requires sampleRate > 0.0
    ensures n >= 1
    ensures MaxDelayTime * sampleRate < n as real
  {
    var n := Trunc(MaxDelayTime * sampleRate + 1.0);
    if n < 1 then 1 else n
  }

  /** The delay in samples, `delayTime * sampleRate`; within the line for any
      delay the slider offers. */
  function DelaySamples(delayTime: real, sampleRate: real): (d: real)
    requires sampleRate > 0.0 && 0.0 <= delayTime <= MaxDelayTime
    ensures 0.0 <= d <= Capacity(sampleRate) as real
  {
    var c := Capacity(sampleRate);
    MulLe(delayTime, MaxDelayTime, sampleRate);
    delayTime * sampleRate
  }

  /** The three slider values a block reads: delay in seconds, feedback and mix. */
  datatype Params = Params(delayTime: real, feedback: real, mix: real)

  /** One sample of the inner loop. When the read index lands on the cursor
      neither the sample nor the line is written; otherwise the output blends
      toward the delayed sample by `mix` and the cursor slot receives the input
      plus the fed-back delayed sample. */
  function Step(line: seq<real>, w: int, x: real, delaySamples: real, p: Params): (r: (real, seq<real>))
    requires 0 <= w < |line| && 0.0 <= delaySamples <= |line| as real
    ensures |r.1| == |line|
    ensures forall j | 0 <= j < |line| && j != w :: r.1[j] == line[j]
    ensures p.mix == 0.0 ==> r.0 == x
  {
    var pos := ReadPosition(w, delaySamples, |line|);
    if ReadIndex(pos, |line|) == w then (x, line)
    else
      var delayed := LinearSample(line, pos);
      (x + Scale(p.mix, delayed - x), line[w := x + Scale(p.feedback, delayed)])
  }

  /** Delay's per-sample kernel for a fixed delay and parameters; it keeps no LFO. */
  function Tap(delaySamples: real, p: Params): (k: Kernel<real>)
  {
    (l: seq<real>, c: int, phase: real, x: real) requires 0 <= c < |l| && 0.0 <= delaySamples <= |l| as real =>
      Step(l, c, x, delaySamples, p)
  }

  /** On any line at least as long as the delay the kernel is defined and
      writes nothing but the cursor slot. */
  lemma TapWritesCursor(delaySamples: real, p: Params, n: int)
    requires 1 <= n && 0.0 <= delaySamples <= n as real
    ensures WritesCursor(Tap(delaySamples, p), n)
  {
  }

  /** What the wet tap stores at the cursor: the input plus the delayed sample
      scaled by the feedback gain. */
  function Store(feedback: real): (real, real) -> real
  {
    (x: real, delayed: real) => x + Scale(feedback, delayed)
  }

  /** One channel's pass through a block: Delay's kernel from cursor w with no
      LFO (phase and increment zero). */
  function Echo(line: seq<real>, w: int, xs: seq<real>, delaySamples: real, p: Params): Pass<real>
    requires 0 <= w < |line| && 0.0 <= delaySamples <= |line| as real
  {
    TapWritesCursor(delaySamples, p, |line|);
    Run(Tap(delaySamples, p), 0.0, line, w, 0.0, xs)
  }

  /** When the delay is zero or lies within one sample of the whole line the
      guard fires on every sample: the block leaves the channel and the line as
      they were. */
  lemma GuardedBlockUntouched(line: seq<real>, w: int, xs: seq<real>, delaySamples: real, p: Params)
    requires 0 <= w < |line| && 0.0 <= delaySamples <= |line| as real
    requires delaySamples == 0.0 || delaySamples > (|line| - 1) as real
    ensures Echo(line, w, xs, delaySamples, p).out == xs
    ensures Echo(line, w, xs, delaySamples, p).line == line
  {
    var k := Tap(delaySamples, p);
    TapWritesCursor(delaySamples, p, |line|);
    forall l: seq<real>, c: int, phase: real, x: real | |l| == |line| && 0 <= c < |l| && 0.0 <= phase < 1.0
      ensures k(l, c, phase, x) == (x, l)
    {
      ReadHitsCursor(c, delaySamples, |l|);
    }
    InertPass(k, 0.0, line, w, 0.0, xs);
  }

  /** With the mix at zero the effect is inaudible: every sample passes unchanged. */
  lemma DryMixPassesInput(line: seq<real>, w: int, xs: seq<real>, delaySamples: real, p: Params)
    requires 0 <= w < |line| && 0.0 <= delaySamples <= |line| as real && p.mix == 0.0
    ensures Echo(line, w, xs, delaySamples, p).out == xs
  {
    TapWritesCursor(delaySamples, p, |line|);
    MapsInputPass(Tap(delaySamples, p), 0.0, line, w, 0.0, xs, x => x);
  }

  /** Silence into a silent line gives silence and leaves the line silent. */
  lemma QuietInQuietOut(line: seq<real>, w: int, xs: seq<real>, delaySamples: real, p: Params)
    requires 0 <= w < |line| && 0.0 <= delaySamples <= |line| as real
    requires Silent(line, 0.0) && Silent(xs, 0.0)
    ensures Silent(Echo(line, w, xs, delaySamples, p).out, 0.0)
    ensures Silent(Echo(line, w, xs, delaySamples, p).line, 0.0)
  {
    var k := Tap(delaySamples, p);
    TapWritesCursor(delaySamples, p, |line|);
    forall l: seq<real>, c: int, phase: real
      | |l| == |line| && 0 <= c < |l| && 0.0 <= phase < 1.0 && Silent(l, 0.0)
      ensures k(l, c, phase, 0.0).0 == 0.0 && Silent(k(l, c, phase, 0.0).1, 0.0)
    {
      SilentBufferReadsSilence(Linear, l, ReadPosition(c, delaySamples, |l|));
    }
    Block.SilenceStaysSilent(k, 0.0, line, w, 0.0, xs, 0.0);
  }

  /** With the mix at one and a delay of d whole samples (0 < d < N) the kernel
      is an echo: it outputs the sample d slots behind the cursor and stores
      the input plus that sample times the feedback. */
  lemma WetTapEchoes(n: int, d: int, delaySamples: real, p: Params)
    requires 1 <= d < n && delaySamples == d as real && p.mix == 1.0
    ensures Echoes(Tap(delaySamples, p), n, d, Store(p.feedback))
  {
    var k := Tap(delaySamples, p);
    TapWritesCursor(delaySamples, p, n);
    forall l: seq<real>, c: int, phase: real, x: real | |l| == n && 0 <= c < n && 0.0 <= phase < 1.0
      ensures k(l, c, phase, x) == (l[Behind(c, d, n)], l[c := x + Scale(p.feedback, l[Behind(c, d, n)])])
    {
      var j := Behind(c, d, n);
      WholeReadPosition(c, d, n);
      WholePositionReadsSample(Linear, l, j);
      assert ReadPosition(c, delaySamples, n) == j as real;
      assert ReadIndex(j as real, n) == j;
    }
  }

  /** The comb-filter recurrence of a wet-only delay of d whole samples: each
      output is the input d samples earlier plus the output d samples earlier
      times the feedback; the first d outputs replay the line's old content. */
  lemma WetRecurrence(line: seq<real>, w: int, xs: seq<real>, d: int, delaySamples: real, p: Params)
    requires 0 <= w < |line| && 1 <= d < |line| && delaySamples == d as real
    requires |xs| <= |line| && p.mix == 1.0
    ensures forall k | 0 <= k < |xs| ::
              CombAt(Echo(line, w, xs, delaySamples, p).out, xs, line, w, d, Store(p.feedback), k)
  {
    WetTapEchoes(|line|, d, delaySamples, p);
    EchoRecurrence(Tap(delaySamples, p), 0.0, line, w, 0.0, xs, d, Store(p.feedback));
  }

  /** Without feedback a unit impulse into a silent line comes out exactly d
      samples later, once. */
  lemma ImpulseComesBackOnce(line: seq<real>, w: int, xs: seq<real>, d: int, delaySamples: real, p: Params)
    requires 0 <= w < |line| && 1 <= d < |line| && delaySamples == d as real && |xs| <= |line|
    requires p.mix == 1.0 && p.feedback == 0.0 && Silent(line, 0.0)
    requires |xs| > 0 && xs[0] == 1.0 && forall k | 1 <= k < |xs| :: xs[k] == 0.0
    ensures forall k | 0 <= k < |xs| :: Echo(line, w, xs, delaySamples, p).out[k] == if k == d then 1.0 else 0.0
  {
    WetTapEchoes(|line|, d, delaySamples, p);
    PureDelay(Tap(delaySamples, p), 0.0, line, w, 0.0, xs, d, Store(p.feedback));
    var r := Echo(line, w, xs, delaySamples, p);
    forall k | 0 <= k < |xs| ensures r.out[k] == if k == d then 1.0 else 0.0 {
      if k < d {
        assert r.out[k] == line[Behind(w, d - k, |line|)];
      }
    }
  }

  class DelayProcessor {
    var sampleRate: real
    var capacity: int
    var delayBuffer: seq<array<real>>
    var writePosition: int

    /** The state prepareToPlay sets up and processBlock keeps. */
    ghost predicate Valid()
      reads this
    {
      sampleRate > 0.0 &&
      capacity == Capacity(sampleRate) &&
      0 <= writePosition < capacity &&
      (forall c | 0 <= c < |delayBuffer| :: delayBuffer[c].Length == capacity) &&
      Distinct(delayBuffer)
    }

    /** prepareToPlay: one silent line per input channel, cursor at the start. */
    method PrepareToPlay(rate: real, numInputs: nat)
      requires rate > 0.0
      modifies this
      ensures Valid()
      ensures sampleRate == rate && capacity == Capacity(rate) && writePosition == 0
      ensures |delayBuffer| == numInputs
      ensures forall c | 0 <= c < numInputs :: fresh(delayBuffer[c]) && delayBuffer[c][..] == Silence(capacity)
    {
      var n := Capacity(rate);
      var lines: seq<array<real>> := [];
      while |lines| < numInputs
        invariant |lines| <= numInputs
        invariant forall c | 0 <= c < |lines| :: fresh(lines[c]) && lines[c][..] == Silence(n)
        invariant Distinct(lines)
      {
        var a := new real[n](_ => 0.0);
        lines := lines + [a];
      }
      sampleRate := rate;
      capacity := n;
      delayBuffer := lines;
      writePosition := 0;
    }

    /** The channel loop of processBlock: each of the first numInputs channels
        runs through its own line from cursor w0; the cursor they all end on is
        returned. */
    static method ProcessInputs(buffer: seq<array<real>>, lines: seq<array<real>>, numInputs: nat, n: int,
                                w0: int, delaySamples: real, p: Params) returns (w: int)
      requires 1 <= numInputs <= |lines| && numInputs <= |buffer| && Separate(buffer, lines)
      requires Distinct(lines)
      requires forall c | 0 <= c < |lines| :: lines[c].Length == n
      requires 0 <= w0 < n && 0.0 <= delaySamples <= n as real
      modifies buffer, lines
      ensures forall c | 0 <= c < numInputs ::
                buffer[c][..] == Echo(old(lines[c][..]), w0, old(buffer[c][..]), delaySamples, p).out &&
                lines[c][..] == Echo(old(lines[c][..]), w0, old(buffer[c][..]), delaySamples, p).line
      ensures w == Echo(old(lines[0][..]), w0, old(buffer[0][..]), delaySamples, p).cursor
      ensures forall c | numInputs <= c < |buffer| :: buffer[c][..] == old(buffer[c][..])
      ensures forall c | numInputs <= c < |lines| :: lines[c][..] == old(lines[c][..])
    {
      w := EchoChannel(buffer, lines, 0, w0, delaySamples, p);
      var c := 1;
      while c < numInputs
        invariant 1 <= c <= numInputs
        invariant forall e | 0 <= e < c ::
                    buffer[e][..] == Echo(old(lines[e][..]), w0, old(buffer[e][..]), delaySamples, p).out &&
                    lines[e][..] == Echo(old(lines[e][..]), w0, old(buffer[e][..]), delaySamples, p).line
        invariant w == Echo(old(lines[0][..]), w0, old(buffer[0][..]), delaySamples, p).cursor
        invariant forall e | c <= e < |buffer| :: buffer[e][..] == old(buffer[e][..])
        invariant forall e | c <= e < |lines| :: lines[e][..] == old(lines[e][..])
      {
        var wc := EchoChannel(buffer, lines, c, w0, delaySamples, p);
        c := c + 1;
      }
    }

    /** Channel c of the block through its own delay line from cursor w0;
        every other channel and line is left as it was. */
    static method EchoChannel(buffer: seq<array<real>>, lines: seq<array<real>>, c: nat,
                              w0: int, delaySamples: real, p: Params) returns (w: int)
      requires c < |buffer| && c < |lines| && Separate(buffer, lines) && Distinct(lines)
      requires 0 <= w0 < lines[c].Length && 0.0 <= delaySamples <= lines[c].Length as real
      modifies buffer[c], lines[c]
      ensures buffer[c][..] == Echo(old(lines[c][..]), w0, old(buffer[c][..]), delaySamples, p).out
      ensures lines[c][..] == Echo(old(lines[c][..]), w0, old(buffer[c][..]), delaySamples, p).line
      ensures w == Echo(old(lines[c][..]), w0, old(buffer[c][..]), delaySamples, p).cursor
      ensures forall e | 0 <= e < |buffer| && e != c :: buffer[e][..] == old(buffer[e][..])
      ensures forall e | 0 <= e < |lines| && e != c :: lines[e][..] == old(lines[e][..])
    {
      TapWritesCursor(delaySamples, p, lines[c].Length);
      var ignored;
      w, ignored := ProcessChannel(Tap(delaySamples, p), 0.0, buffer[c], lines[c], w0, 0.0);
    }

    /** processBlock: every input channel runs through its own delay line from the
        shared cursor; extra output channels are silenced; the cursor advances by
        the block length. */
    method ProcessBlock(buffer: seq<array<real>>, numInputs: nat, numOutputs: nat, numSamples: nat, p: Params)
      requires Valid()
      requires 1 <= numInputs <= |delayBuffer| && numInputs <= |buffer| && numOutputs <= |buffer|
      requires forall c | 0 <= c < |buffer| :: buffer[c].Length == numSamples
      requires Separate(buffer, delayBuffer)
      requires 0.0 <= p.delayTime <= MaxDelayTime
      modifies buffer, delayBuffer, this`writePosition
      ensures Valid()
      ensures writePosition == (old(writePosition) + numSamples) % capacity
      ensures forall c | 0 <= c < numInputs ::
                buffer[c][..] == Echo(old(delayBuffer[c][..]), old(writePosition), old(buffer[c][..]),
                                      DelaySamples(p.delayTime, sampleRate), p).out &&
                delayBuffer[c][..] == Echo(old(delayBuffer[c][..]), old(writePosition), old(buffer[c][..]),
                                           DelaySamples(p.delayTime, sampleRate), p).line
      ensures forall c | numInputs <= c < numOutputs :: buffer[c][..] == Silence(numSamples)
      ensures forall c | numInputs <= c < |buffer| && c >= numOutputs :: buffer[c][..] == old(buffer[c][..])
      ensures forall c | numInputs <= c < |delayBuffer| :: delayBuffer[c][..] == old(delayBuffer[c][..])
    {
      var delaySamples := DelaySamples(p.delayTime, sampleRate);
      ghost var first := Echo(delayBuffer[0][..], writePosition, buffer[0][..], delaySamples, p);
      assert first.cursor == (writePosition + numSamples) % capacity;
      writePosition := ProcessBuffer(buffer, delayBuffer, numInputs, numOutputs, capacity, writePosition, delaySamples, p);
    }

    /** The block's channels after the parameters are read: the input channels
        echo through their lines, then the extra outputs are silenced. */
    static method ProcessBuffer(buffer: seq<array<real>>, lines: seq<array<real>>, numInputs: nat, numOutputs: nat,
                                n: int, w0: int, delaySamples: real, p: Params) returns (w: int)
      requires 1 <= numInputs <= |lines| && numInputs <= |buffer| && numOutputs <= |buffer|
      requires Separate(buffer, lines) && Distinct(lines)
      requires forall c | 0 <= c < |lines| :: lines[c].Length == n
      requires 0 <= w0 < n && 0.0 <= delaySamples <= n as real
      modifies buffer, lines
      ensures w == Echo(old(lines[0][..]), w0, old(buffer[0][..]), delaySamples, p).cursor
      ensures forall c | 0 <= c < numInputs ::
                buffer[c][..] == Echo(old(lines[c][..]), w0, old(buffer[c][..]), delaySamples, p).out &&
                lines[c][..] == Echo(old(lines[c][..]), w0, old(buffer[c][..]), delaySamples, p).line
      ensures forall c | numInputs <= c < numOutputs :: buffer[c][..] == Silence(buffer[c].Length)
      ensures forall c | numInputs <= c < |buffer| && c >= numOutputs :: buffer[c][..] == old(buffer[c][..])
      ensures forall c | numInputs <= c < |lines| :: lines[c][..] == old(lines[c][..])
    {
      w := ProcessInputs(buffer, lines, numInputs, n, w0, delaySamples, p);
      label processed:
      ClearChannels(buffer, numInputs, numOutputs);
      assert forall c | 0 <= c < |lines| :: lines[c][..] == old@processed(lines[c][..]);
      assert forall c | 0 <= c < numInputs :: buffer[c][..] == old@processed(buffer[c][..]);
    }
  }
}
