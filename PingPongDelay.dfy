/** The PingPongDelay effect (PingPongDelay/PluginProcessor.cpp): a stereo delay
    whose left and right lines feed back into each other, so that an echo
    bounces from side to side. Its two delay lines share one cursor and are
    modelled as one line of stereo frames. */
module PingPongDelay {
  import opened DelayLine
  import opened Block
  import opened AudioBuffer
  import Delay

  /** One stereo sample. */
  datatype Frame = Frame(left: real, right: real)

  /** A stereo channel pair as frames. */
  function Zip(ls: seq<real>, rs: seq<real>): (fs: seq<Frame>)
    requires |ls| == |rs|
    ensures |fs| == |ls| && forall k | 0 <= k < |fs| :: fs[k].left == ls[k] && fs[k].right == rs[k]
  {
    seq(|ls|, k requires 0 <= k < |ls| => Frame(ls[k], rs[k]))
  }

  /** The left halves of a sequence of frames. */
  function Lefts(fs: seq<Frame>): (s: seq<real>)
    ensures |s| == |fs| && forall k | 0 <= k < |fs| :: s[k] == fs[k].left
  {
    seq(|fs|, k requires 0 <= k < |fs| => fs[k].left)
  }

  /** The right halves of a sequence of frames. */
  function Rights(fs: seq<Frame>): (s: seq<real>)
    ensures |s| == |fs| && forall k | 0 <= k < |fs| :: s[k] == fs[k].right
  {
    seq(|fs|, k requires 0 <= k < |fs| => fs[k].right)
  }

  /** The four slider values a block reads: balance, delay in seconds, feedback and mix. */
  datatype Params = Params(balance: real, delayTime: real, feedback: real, mix: real)

  /** `balance * 0.5 + 0.5`: the balance slider's [-1, 1] mapped onto [0, 1],
      the share of the right input. */
  function Balance(raw: real): (b: real)
    ensures -1.0 <= raw <= 1.0 <==> 0.0 <= b <= 1.0
    ensures raw == -1.0 ==> b == 0.0
    ensures raw == 0.0 ==> b == 0.5
    ensures raw == 1.0 ==> b == 1.0
  {
    raw * 0.5 + 0.5
  }

  /** The inputs the effect works on: the left sample weighted by 1 - b and
      the right by b. */
  function Balanced(x: Frame, b: real): (y: Frame)
    ensures b == 0.5 ==> y == Frame(x.left / 2.0, x.right / 2.0)
    ensures b == 0.0 ==> y == Frame(x.left, 0.0)
    ensures b == 1.0 ==> y == Frame(0.0, x.right)
  {
    Frame(Scale(1.0 - b, x.left), Scale(b, x.right))
  }

  /** One sample of the loop. When the read index lands on the cursor both
      channels keep their raw input and both lines are left alone; otherwise
      each side reads its own line linearly, blends toward it by `mix`, and the
      cursor slot of each line receives that side's balanced input plus the
      OTHER side's delayed sample times the feedback. */
  function Step(line: seq<Frame>, w: int, x: Frame, delaySamples: real, p: Params): (r: (Frame, seq<Frame>))
    requires 0 <= w < |line| && 0.0 <= delaySamples <= |line| as real
    ensures |r.1| == |line|
    ensures forall j | 0 <= j < |line| && j != w :: r.1[j] == line[j]
  {
    var pos := ReadPosition(w, delaySamples, |line|);
    if ReadIndex(pos, |line|) == w then (x, line)
    else
      var i := Balanced(x, Balance(p.balance));
      var outL := LinearSample(Lefts(line), pos);
      var outR := LinearSample(Rights(line), pos);
      (Frame(i.left + Scale(p.mix, outL - i.left), i.right + Scale(p.mix, outR - i.right)),
       line[w := Frame(i.left + Scale(p.feedback, outR), i.right + Scale(p.feedback, outL))])
  }

  /** PingPongDelay's per-sample kernel for a fixed delay and parameters. */
  function Tap(delaySamples: real, p: Params): (k: Kernel<Frame>)
  {
    (l: seq<Frame>, c: int, phase: real, x: Frame) requires 0 <= c < |l| && 0.0 <= delaySamples <= |l| as real =>
      Step(l, c, x, delaySamples, p)
  }

  /** The block's pass over the stereo pair from cursor w. */
  function Bounce(line: seq<Frame>, w: int, xs: seq<Frame>, delaySamples: real, p: Params): Pass<Frame>
    requires 0 <= w < |line| && 0.0 <= delaySamples <= |line| as real
  {
    TapWritesCursor(delaySamples, p, |line|);
    Run(Tap(delaySamples, p), 0.0, line, w, 0.0, xs)
  }

  /** On any line at least as long as the delay the kernel is defined and
      writes nothing but the cursor slot. */
  lemma TapWritesCursor(delaySamples: real, p: Params, n: int)
    requires 1 <= n && 0.0 <= delaySamples <= n as real
    ensures WritesCursor(Tap(delaySamples, p), n)
  {
  }

  /** What the wet tap stores at the cursor: each side's balanced input plus
      the other side's delayed sample times the feedback. */
  function Store(b: real, feedback: real): (Frame, Frame) -> Frame
  {
    (x: Frame, delayed: Frame) =>
      Frame(Scale(1.0 - b, x.left) + Scale(feedback, delayed.right),
            Scale(b, x.right) + Scale(feedback, delayed.left))
  }

  /** When the delay is zero or lies within one sample of the whole line the
      guard fires on every sample: both channels and both lines stay as they were. */
  lemma GuardedBlockUntouched(line: seq<Frame>, w: int, xs: seq<Frame>, delaySamples: real, p: Params)
    requires 0 <= w < |line| && 0.0 <= delaySamples <= |line| as real
    requires delaySamples == 0.0 || delaySamples > (|line| - 1) as real
    ensures Bounce(line, w, xs, delaySamples, p).out == xs
    ensures Bounce(line, w, xs, delaySamples, p).line == line
  {
    var k := Tap(delaySamples, p);
    TapWritesCursor(delaySamples, p, |line|);
    forall l: seq<Frame>, c: int, phase: real, x: Frame | |l| == |line| && 0 <= c < |l| && 0.0 <= phase < 1.0
      ensures k(l, c, phase, x) == (x, l)
    {
      ReadHitsCursor(c, delaySamples, |l|);
    }
    InertPass(k, 0.0, line, w, 0.0, xs);
  }

  /** With the mix at zero and the guard not firing, every output frame is the
      balanced input: the balance applies even to the dry signal. */
  lemma DryMixGivesBalancedInput(line: seq<Frame>, w: int, xs: seq<Frame>, delaySamples: real, p: Params)
    requires 0 <= w < |line| && 0.0 < delaySamples <= (|line| - 1) as real && p.mix == 0.0
    ensures forall k | 0 <= k < |xs| ::
              Bounce(line, w, xs, delaySamples, p).out[k] == Balanced(xs[k], Balance(p.balance))
  {
    var k := Tap(delaySamples, p);
    TapWritesCursor(delaySamples, p, |line|);
    forall l: seq<Frame>, c: int, phase: real, x: Frame | |l| == |line| && 0 <= c < |l| && 0.0 <= phase < 1.0
      ensures k(l, c, phase, x).0 == Balanced(x, Balance(p.balance))
    {
      ReadHitsCursor(c, delaySamples, |l|);
    }
    MapsInputPass(k, 0.0, line, w, 0.0, xs, x => Balanced(x, Balance(p.balance)));
  }

  /** With the mix at one and a delay of d whole samples (0 < d < N) the kernel
      is a cross-coupled echo: it outputs the frame d slots behind the cursor
      and stores Store of the input and that frame. */
  lemma WetTapEchoes(n: int, d: int, delaySamples: real, p: Params)
    requires 1 <= d < n && delaySamples == d as real && p.mix == 1.0
    ensures Echoes(Tap(delaySamples, p), n, d, Store(Balance(p.balance), p.feedback))
  {
    var k := Tap(delaySamples, p);
    TapWritesCursor(delaySamples, p, n);
    var store := Store(Balance(p.balance), p.feedback);
    forall l: seq<Frame>, c: int, phase: real, x: Frame | |l| == n && 0 <= c < n && 0.0 <= phase < 1.0
      ensures k(l, c, phase, x) == (l[Behind(c, d, n)], l[c := store(x, l[Behind(c, d, n)])])
    {
      var j := Behind(c, d, n);
      WholeReadPosition(c, d, n);
      WholePositionReadsSample(Linear, Lefts(l), j);
      WholePositionReadsSample(Linear, Rights(l), j);
      assert ReadPosition(c, delaySamples, n) == j as real;
      assert ReadIndex(j as real, n) == j;
    }
  }

  /** The ping-pong recurrence of a wet-only delay of d whole samples: each
      output frame is what was stored d frames earlier, so each side hears its
      own balanced input plus the other side's output d frames earlier times
      the feedback. */
  lemma WetRecurrence(line: seq<Frame>, w: int, xs: seq<Frame>, d: int, delaySamples: real, p: Params)
    requires 0 <= w < |line| && 1 <= d < |line| && delaySamples == d as real
    requires |xs| <= |line| && p.mix == 1.0
    ensures forall k | 0 <= k < |xs| ::
              CombAt(Bounce(line, w, xs, delaySamples, p).out, xs, line, w, d, Store(Balance(p.balance), p.feedback), k)
  {
    WetTapEchoes(|line|, d, delaySamples, p);
    EchoRecurrence(Tap(delaySamples, p), 0.0, line, w, 0.0, xs, d, Store(Balance(p.balance), p.feedback));
  }

  /** Once the input falls silent, each echo moves to the other side scaled by
      the feedback: the ping-pong. */
  lemma EchoesSwapSides(line: seq<Frame>, w: int, xs: seq<Frame>, d: int, delaySamples: real, p: Params, k: int)
    requires 0 <= w < |line| && 1 <= d < |line| && delaySamples == d as real
    requires |xs| <= |line| && p.mix == 1.0
    requires d <= k < |xs| && xs[k - d] == Frame(0.0, 0.0)
    ensures var out := Bounce(line, w, xs, delaySamples, p).out;
            out[k] == Frame(Scale(p.feedback, out[k - d].right), Scale(p.feedback, out[k - d].left))
  {
    WetRecurrence(line, w, xs, d, delaySamples, p);
    assert CombAt(Bounce(line, w, xs, delaySamples, p).out, xs, line, w, d, Store(Balance(p.balance), p.feedback), k);
  }

  /** isBusesLayoutSupported as written: the main output is mono or stereo
      and the main input is the same set. */
  predicate LayoutSupported(input: ChannelSet, output: ChannelSet): (r: bool)
    ensures r ==> input == output && 1 <= |output.types| <= 2
    ensures r ==> output == Mono || output == Stereo
  {
    (output == Mono || output == Stereo) && input == output
  }

  /** The mono layout is accepted, yet it gives processBlock a single input
      channel, where ProcessBlock needs channels 0 and 1. */
  lemma MonoLayoutAccepted()
    ensures LayoutSupported(Mono, Mono) && |Mono.types| == 1
  {
  }

  /** The layout processBlock can run on: stereo in and stereo out. */
  predicate StereoLayoutSupported(input: ChannelSet, output: ChannelSet): (r: bool)
    ensures r ==> |input.types| == 2 && |output.types| == 2
  {
    output == Stereo && input == output
  }

  /** The stereo-only check accepts exactly the layouts the written check
      accepts that have the two input channels processBlock writes. */
  lemma StereoLayoutFeedsPair(input: ChannelSet, output: ChannelSet)
    ensures StereoLayoutSupported(input, output) <==> LayoutSupported(input, output) && |input.types| >= 2
  {
    if LayoutSupported(input, output) && |input.types| >= 2 {
      assert output != Mono;
    }
  }

  class PingPongDelayProcessor {
    var sampleRate: real
    var capacity: int
    var delayBuffer: seq<array<real>>
    var writePosition: int

    /** The state prepareToPlay sets up and processBlock keeps. */
    ghost predicate Valid()
      reads this
    {
      sampleRate > 0.0 &&
      capacity == Delay.Capacity(sampleRate) &&
      0 <= writePosition < capacity &&
      (forall c | 0 <= c < |delayBuffer| :: delayBuffer[c].Length == capacity) &&
      Distinct(delayBuffer)
    }

    /** prepareToPlay: one silent line per input channel, cursor at the start. */
    method PrepareToPlay(rate: real, numInputs: nat)
      requires rate > 0.0
      modifies this
      ensures Valid()
      ensures sampleRate == rate && capacity == Delay.Capacity(rate) && writePosition == 0
      ensures |delayBuffer| == numInputs
      ensures forall c | 0 <= c < numInputs :: fresh(delayBuffer[c]) && delayBuffer[c][..] == Silence(capacity)
    {
      var n := Delay.Capacity(rate);
      var lines: seq<array<real>> := [];
      while |lines| < numInputs
        invariant |lines| <= numInputs
        invariant forall c | 0 <= c < |lines| :: fresh(lines[c]) && lines[c][..] == Silence(n)
        invariant Distinct(lines)
      {
        var a := new real[n](_ => 0.0);
        lines := lines + [a];
      }
      sampleRate := rate;
      capacity := n;
      delayBuffer := lines;
      writePosition := 0;
    }

    /** The sample loop over the left and right channels and their two lines,
        all updated in place under one cursor. `line0` and `xs` are the lines
        and the block as they are on entry. */
    static method ProcessFrames(step: Kernel<Frame>, bufL: array<real>, bufR: array<real>,
                                lineL: array<real>, lineR: array<real>, w0: int,
                                ghost line0: seq<Frame>, ghost xs: seq<Frame>) returns (w: int)
      requires bufL != bufR && bufL != lineL && bufL != lineR && bufR != lineL && bufR != lineR && lineL != lineR
      requires bufL.Length == bufR.Length && lineL.Length == lineR.Length && 0 <= w0 < lineL.Length
      requires WritesCursor(step, lineL.Length)
      requires line0 == Zip(lineL[..], lineR[..]) && xs == Zip(bufL[..], bufR[..])
      modifies bufL, bufR, lineL, lineR
      ensures Zip(bufL[..], bufR[..]) == Run(step, 0.0, line0, w0, 0.0, xs).out
      ensures Zip(lineL[..], lineR[..]) == Run(step, 0.0, line0, w0, 0.0, xs).line
      ensures w == Run(step, 0.0, line0, w0, 0.0, xs).cursor
    {
      Started(step, line0, w0, xs, bufL[..], bufR[..], lineL[..], lineR[..]);
      w := w0;
      var phase, k := 0.0, 0;
      while k < bufL.Length
        invariant 0 <= k <= bufL.Length
        invariant Progress(step, line0, w0, xs, bufL[..], bufR[..], lineL[..], lineR[..], k, w, phase)
      {
        w, phase := Turn(step, bufL, bufR, lineL, lineR, line0, w0, xs, k, w, phase);
        k := k + 1;
      }
      Finished(step, line0, w0, xs, bufL[..], bufR[..], lineL[..], lineR[..], w, phase);
    }

    /** Before the first frame the invariant holds with nothing run yet. */
    static lemma Started(step: Kernel<Frame>, line0: seq<Frame>, w0: int, xs: seq<Frame>,
                         bl: seq<real>, br: seq<real>, ll: seq<real>, lr: seq<real>)
      requires |bl| == |br| && |ll| == |lr| && 0 <= w0 < |ll| && WritesCursor(step, |ll|)
      requires line0 == Zip(ll, lr) && xs == Zip(bl, br)
      ensures Progress(step, line0, w0, xs, bl, br, ll, lr, 0, w0, 0.0)
    {
      assert xs[..0] == [] && xs[0..] == xs;
    }

    /** At the end of the block the invariant is the whole run. */
    static lemma Finished(step: Kernel<Frame>, line0: seq<Frame>, w0: int, xs: seq<Frame>,
                          bl: seq<real>, br: seq<real>, ll: seq<real>, lr: seq<real>, w: int, phase: real)
      requires Progress(step, line0, w0, xs, bl, br, ll, lr, |xs|, w, phase)
      ensures Zip(bl, br) == Run(step, 0.0, line0, w0, 0.0, xs).out
      ensures Zip(ll, lr) == Run(step, 0.0, line0, w0, 0.0, xs).line
      ensures w == Run(step, 0.0, line0, w0, 0.0, xs).cursor
    {
      assert xs[|xs|..] == [] && xs[..|xs|] == xs;
    }

    /** The loop invariant of ProcessFrames, on the contents of the arrays: the
        first k frames are the kernel's output, the rest are still the input,
        and the lines, cursor and phase are those after k frames. */
    static ghost predicate Progress(step: Kernel<Frame>, line0: seq<Frame>, w0: int, xs: seq<Frame>,
                                    bl: seq<real>, br: seq<real>, ll: seq<real>, lr: seq<real>, k: int, w: int, phase: real)
    {
      0 <= w0 < |line0| && WritesCursor(step, |line0|) &&
      0 <= k <= |xs| == |bl| == |br| && |ll| == |lr| == |line0| &&
      var r := Run(step, 0.0, line0, w0, 0.0, xs[..k]);
      w == r.cursor && phase == r.phase && Zip(bl, br) == r.out + xs[k..] && Zip(ll, lr) == r.line
    }

    /** One turn of ProcessFrames' loop. */
    static method Turn(step: Kernel<Frame>, bufL: array<real>, bufR: array<real>, lineL: array<real>, lineR: array<real>,
                       ghost line0: seq<Frame>, ghost w0: int, ghost xs: seq<Frame>, k: int, w: int, phase: real)
      returns (w': int, phase': real)
      requires bufL != bufR && bufL != lineL && bufL != lineR && bufR != lineL && bufR != lineR && lineL != lineR
      requires k < bufL.Length
      requires Progress(step, line0, w0, xs, bufL[..], bufR[..], lineL[..], lineR[..], k, w, phase)
      modifies bufL, bufR, lineL, lineR
      ensures Progress(step, line0, w0, xs, bufL[..], bufR[..], lineL[..], lineR[..], k + 1, w', phase')
    {
      ghost var r := Run(step, 0.0, line0, w0, 0.0, xs[..k]);
      assert xs[..k + 1] == xs[..k] + [xs[k]];
      RunSnoc(step, 0.0, line0, w0, 0.0, xs[..k], xs[k]);
      assert Zip(bufL[..], bufR[..])[k] == xs[k];
      ghost var s := StepFrame(step, bufL, bufR, lineL, lineR, k, w, phase);
      Splice(r.out, xs, k, s.0);
      w', phase' := Advance(w, lineL.Length), AdvancePhase(phase, 0.0);
    }

    /** Replacing the first unprocessed frame moves it to the processed part. */
    static lemma Splice(out: seq<Frame>, xs: seq<Frame>, k: int, v: Frame)
      requires |out| == k < |xs|
      ensures (out + xs[k..])[k := v] == (out + [v]) + xs[k + 1..]
    {
    }

    /** One frame of the loop: the kernel on the frame at index k, its output
        written back to both channels and its cursor slot to both lines. */
    static method StepFrame(step: Kernel<Frame>, bufL: array<real>, bufR: array<real>,
                            lineL: array<real>, lineR: array<real>, k: int, w: int, phase: real)
      returns (ghost s: (Frame, seq<Frame>))
      requires bufL != bufR && bufL != lineL && bufL != lineR && bufR != lineL && bufR != lineR && lineL != lineR
      requires 0 <= k < bufL.Length == bufR.Length && lineL.Length == lineR.Length && 0 <= w < lineL.Length
      requires 0.0 <= phase < 1.0 && WritesCursor(step, lineL.Length)
      modifies bufL, bufR, lineL, lineR
      ensures s == Apply(step, Zip(old(lineL[..]), old(lineR[..])), w, phase, Frame(old(bufL[k]), old(bufR[k])))
      ensures Zip(bufL[..], bufR[..]) == Zip(old(bufL[..]), old(bufR[..]))[k := s.0]
      ensures Zip(lineL[..], lineR[..]) == s.1
    {
      var t := Apply(step, Zip(lineL[..], lineR[..]), w, phase, Frame(bufL[k], bufR[k]));
      bufL[k] := t.0.left;
      bufR[k] := t.0.right;
      lineL[w] := t.1[w].left;
      lineR[w] := t.1[w].right;
      assert Zip(lineL[..], lineR[..]) == t.1;
      assert Zip(bufL[..], bufR[..]) == Zip(old(bufL[..]), old(bufR[..]))[k := t.0];
      s := t;
    }

    /** The sample loop of processBlock on channels 0 and 1 and lines 0 and 1,
        with the cursor stored back. */
    method ProcessPair(bufL: array<real>, bufR: array<real>, p: Params)
      requires Valid() && 2 <= |delayBuffer|
      requires bufL != bufR && bufL.Length == bufR.Length
      requires forall c | 0 <= c < |delayBuffer| :: delayBuffer[c] != bufL && delayBuffer[c] != bufR
      requires 0.0 <= p.delayTime <= Delay.MaxDelayTime
      modifies bufL, bufR, delayBuffer[0], delayBuffer[1], this`writePosition
      ensures Valid()
      ensures writePosition == (old(writePosition) + bufL.Length) % capacity
      ensures var r := Bounce(Zip(old(delayBuffer[0][..]), old(delayBuffer[1][..])), old(writePosition),
                              Zip(old(bufL[..]), old(bufR[..])), Delay.DelaySamples(p.delayTime, sampleRate), p);
              Zip(bufL[..], bufR[..]) == r.out && Zip(delayBuffer[0][..], delayBuffer[1][..]) == r.line
    {
      var delaySamples := Delay.DelaySamples(p.delayTime, sampleRate);
      var lineL, lineR := delayBuffer[0], delayBuffer[1];
      ghost var line0, xs := Zip(lineL[..], lineR[..]), Zip(bufL[..], bufR[..]);
      BounceCursor(line0, writePosition, xs, delaySamples, p, bufL.Length, capacity);
      writePosition := PairFrames(bufL, bufR, lineL, lineR, writePosition, delaySamples, p, line0, xs);
    }

    /** The stereo pair through the ping-pong kernel for a given delay. */
    static method PairFrames(bufL: array<real>, bufR: array<real>, lineL: array<real>, lineR: array<real>, w0: int,
                             delaySamples: real, p: Params, ghost line0: seq<Frame>, ghost xs: seq<Frame>) returns (w: int)
      requires bufL != bufR && bufL != lineL && bufL != lineR && bufR != lineL && bufR != lineR && lineL != lineR
      requires bufL.Length == bufR.Length && lineL.Length == lineR.Length && 0 <= w0 < lineL.Length
      requires 0.0 <= delaySamples <= lineL.Length as real
      requires line0 == Zip(lineL[..], lineR[..]) && xs == Zip(bufL[..], bufR[..])
      modifies bufL, bufR, lineL, lineR
      ensures Zip(bufL[..], bufR[..]) == Bounce(line0, w0, xs, delaySamples, p).out
      ensures Zip(lineL[..], lineR[..]) == Bounce(line0, w0, xs, delaySamples, p).line
      ensures w == Bounce(line0, w0, xs, delaySamples, p).cursor
    {
      TapWritesCursor(delaySamples, p, lineL.Length);
      w := ProcessFrames(Tap(delaySamples, p), bufL, bufR, lineL, lineR, w0, line0, xs);
      assert Run(Tap(delaySamples, p), 0.0, line0, w0, 0.0, xs) == Bounce(line0, w0, xs, delaySamples, p);
    }

    /** A block moves the cursor by its length, around the line. */
    static lemma BounceCursor(line0: seq<Frame>, w0: int, xs: seq<Frame>, delaySamples: real, p: Params, m: int, n: int)
      requires 0 <= w0 < |line0| == n && 0.0 <= delaySamples <= n as real && |xs| == m
      ensures Bounce(line0, w0, xs, delaySamples, p).cursor == (w0 + m) % n
    {
    }

    /** processBlock: channels 0 and 1 run as a stereo pair through lines 0 and
        1; extra output channels are silenced; the cursor advances by the block
        length. */
    method ProcessBlock(buffer: seq<array<real>>, numInputs: nat, numOutputs: nat, numSamples: nat, p: Params)
      requires Valid()
      requires 2 <= numInputs <= |delayBuffer| && numInputs <= |buffer| && numOutputs <= |buffer|
      requires forall c | 0 <= c < |buffer| :: buffer[c].Length == numSamples
      requires Separate(buffer, delayBuffer)
      requires 0.0 <= p.delayTime <= Delay.MaxDelayTime
      modifies buffer, delayBuffer, this`writePosition
      ensures Valid()
      ensures writePosition == (old(writePosition) + numSamples) % capacity
      ensures var r := Bounce(Zip(old(delayBuffer[0][..]), old(delayBuffer[1][..])), old(writePosition),
                              Zip(old(buffer[0][..]), old(buffer[1][..])),
                              Delay.DelaySamples(p.delayTime, sampleRate), p);
              Zip(buffer[0][..], buffer[1][..]) == r.out && Zip(delayBuffer[0][..], delayBuffer[1][..]) == r.line
      ensures forall c | 2 <= c < |buffer| ::
                buffer[c][..] == if numInputs <= c < numOutputs then Silence(numSamples) else old(buffer[c][..])
      ensures forall c | 2 <= c < |delayBuffer| :: delayBuffer[c][..] == old(delayBuffer[c][..])
    {
      ProcessPair(buffer[0], buffer[1], p);
      label processed:
      ClearChannels(buffer, numInputs, numOutputs);
      assert forall c | 0 <= c < |delayBuffer| :: delayBuffer[c][..] == old@processed(delayBuffer[c][..]);
    }
  }
}
