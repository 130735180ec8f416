/** The NoiseGate effect (NoiseGate/PluginProcessor.cpp): a one-pole follower
    of the channel mean per sample; a follower at or above the threshold
    (re)starts a one-second countdown, and every channel passes while the
    countdown runs and is silenced otherwise. */
module NoiseGate {
  import opened AudioBuffer
  import DelayLine

  /** isBusesLayoutSupported: the main input equals the main output and is
      not disabled. A supported layout has at least one channel to average. */
  predicate LayoutSupported(input: ChannelSet, output: ChannelSet): (r: bool)
    ensures r ==> input == output && |input.types| >= 1 && |output.types| >= 1
    ensures input != output ==> !r
    ensures |input.types| == 0 ==> !r
  {
    input == output && |input.types| != 0
  }

  /** The running sum `mixedSamples += x` over the channels, in order. */
  function Sum(xs: seq<real>): real
    decreases |xs|
  {
    if xs == [] then 0.0 else Sum(xs[..|xs| - 1]) + xs[|xs| - 1]
  }

  /** The channel mean: the sum divided by the channel count. */
  function Mean(xs: seq<real>): real
    requires |xs| > 0
  {
    Sum(xs) / |xs| as real
  }

  /** Samples within [-b, b] sum to within [-n b, n b]. */
  lemma {:induction false} SumBounded(xs: seq<real>, b: real)
    requires forall k | 0 <= k < |xs| :: -b <= xs[k] <= b
    ensures -(|xs| as real) * b <= Sum(xs) <= |xs| as real * b
    decreases |xs|
  {
    if xs != [] {
      SumBounded(xs[..|xs| - 1], b);
      assert (|xs| as real) * b == (|xs| - 1) as real * b + b;
    }
  }

  /** Samples within [-b, b] have their mean within [-b, b]. */
  lemma MeanBounded(xs: seq<real>, b: real)
    requires |xs| > 0 && forall k | 0 <= k < |xs| :: -b <= xs[k] <= b
    ensures -b <= Mean(xs) <= b
  {
    SumBounded(xs, b);
    var n := |xs| as real;
    assert Sum(xs) / n <= b by {
      assert (n * b) / n == b;
    }
    assert -b <= Sum(xs) / n by {
      assert (-n * b) / n == -b;
    }
  }

  /** The one-pole follower `alpha * coeff + (1 - alpha) * mixed`. */
  function Follow(alpha: real, coeff: real, mixed: real): real
  {
    alpha * coeff + (1.0 - alpha) * mixed
  }

  /** The follower sits the fraction alpha of the way from `mixed` to `coeff`. */
  lemma FollowFromMixed(alpha: real, coeff: real, mixed: real, d: real)
    requires d == coeff - mixed
    ensures Follow(alpha, coeff, mixed) == mixed + alpha * d
  {
  }

  /** The follower sits the fraction `1 - alpha` of the way from `coeff` to `mixed`. */
  lemma FollowFromCoeff(alpha: real, coeff: real, mixed: real, w: real, e: real)
    requires w == 1.0 - alpha && e == mixed - coeff
    ensures Follow(alpha, coeff, mixed) == coeff + w * e
  {
  }

  /** A weight in [0, 1] scales a non-negative gap to between 0 and the gap. */
  lemma ScaledGap(f: real, d: real)
    requires 0.0 <= f <= 1.0 && 0.0 <= d
    ensures 0.0 <= f * d <= d
  {
    assert d - f * d == (1.0 - f) * d;
  }

  /** For alpha in [0, 1] the follower stays within any bound that its
      previous value and the new mean respect. */
  lemma FollowBounded(alpha: real, coeff: real, mixed: real, b: real)
    requires 0.0 <= alpha <= 1.0 && -b <= coeff <= b && -b <= mixed <= b
    ensures -b <= Follow(alpha, coeff, mixed) <= b
  {
    if mixed <= coeff {
      FollowBetween(alpha, coeff, mixed);
    } else {
      FollowBetweenSwapped(alpha, coeff, mixed);
    }
  }

  /** For alpha in [0, 1] the follower lies between the new mean and its previous value. */
  lemma FollowBetween(alpha: real, coeff: real, mixed: real)
    requires 0.0 <= alpha <= 1.0 && mixed <= coeff
    ensures mixed <= Follow(alpha, coeff, mixed) <= coeff
  {
    var d := coeff - mixed;
    ScaledGap(alpha, d);
    FollowFromMixed(alpha, coeff, mixed, d);
  }

  /** With the ends swapped the follower still lies between them. */
  lemma FollowBetweenSwapped(alpha: real, coeff: real, mixed: real)
    requires 0.0 <= alpha <= 1.0 && coeff <= mixed
    ensures coeff <= Follow(alpha, coeff, mixed) <= mixed
  {
    var w, e := 1.0 - alpha, mixed - coeff;
    ScaledGap(w, e);
    FollowFromCoeff(alpha, coeff, mixed, w, e);
  }

  /** The gate's state between samples: the follower and the countdown. */
  datatype Gate = Gate(coeff: real, countDown: int)

  /** One sample of the gate: the follower moves, a follower at or above the
      threshold restarts the countdown at `hold`, the channels pass iff the
      countdown is then positive, and a positive countdown goes down by one. */
  function Tick(g: Gate, mixed: real, alpha: real, threshold: real, hold: int): (r: (bool, Gate))
    ensures r.1.coeff == Follow(alpha, g.coeff, mixed)
    ensures r.0 <==> (r.1.coeff >= threshold && hold > 0) || (r.1.coeff < threshold && g.countDown > 0)
    ensures r.1.coeff >= threshold ==> r.1.countDown == if hold > 0 then hold - 1 else hold
    ensures r.1.coeff < threshold ==> r.1.countDown == if g.countDown > 0 then g.countDown - 1 else g.countDown
    ensures g.countDown >= 0 && hold >= 0 ==> r.1.countDown >= 0
  {
    var coeff := Follow(alpha, g.coeff, mixed);
    var count := if coeff >= threshold then hold else g.countDown;
    (count > 0, Gate(coeff, if count > 0 then count - 1 else count))
  }

  /** The gate over a block of channel means: the pass decision per sample
      and the state after the block. */
  function Gating(g: Gate, means: seq<real>, alpha: real, threshold: real, hold: int): (r: (seq<bool>, Gate))
    ensures |r.0| == |means|
    decreases |means|
  {
    if means == [] then ([], g)
    else
      var prev := Gating(g, means[..|means| - 1], alpha, threshold, hold);
      var t := Tick(prev.1, means[|means| - 1], alpha, threshold, hold);
      (prev.0 + [t.0], t.1)
  }

  /** The decisions on a prefix of a block are a prefix of the block's decisions. */
  lemma {:induction false} GatingPrefix(g: Gate, means: seq<real>, alpha: real, threshold: real, hold: int, k: nat)
    requires k <= |means|
    ensures Gating(g, means[..k], alpha, threshold, hold).0 == Gating(g, means, alpha, threshold, hold).0[..k]
    decreases |means|
  {
    if k < |means| {
      var front := means[..|means| - 1];
      assert front[..k] == means[..k];
      GatingPrefix(g, front, alpha, threshold, hold, k);
    } else {
      assert means[..k] == means;
    }
  }

  /** The countdown is never negative. */
  lemma {:induction false} CountDownNonnegative(g: Gate, means: seq<real>, alpha: real, threshold: real, hold: int)
    requires g.countDown >= 0 && hold >= 0
    ensures Gating(g, means, alpha, threshold, hold).1.countDown >= 0
    decreases |means|
  {
    if means != [] {
      CountDownNonnegative(g, means[..|means| - 1], alpha, threshold, hold);
    }
  }

  /** The follower stays within any bound its start and every channel mean respect. */
  lemma {:induction false} FollowerBounded(g: Gate, means: seq<real>, alpha: real, threshold: real, hold: int, b: real)
    requires 0.0 <= alpha <= 1.0 && -b <= g.coeff <= b
    requires forall k | 0 <= k < |means| :: -b <= means[k] <= b
    ensures -b <= Gating(g, means, alpha, threshold, hold).1.coeff <= b
    decreases |means|
  {
    if means != [] {
      var front := means[..|means| - 1];
      FollowerBounded(g, front, alpha, threshold, hold, b);
      FollowBounded(alpha, Gating(g, front, alpha, threshold, hold).1.coeff, means[|means| - 1], b);
    }
  }

  /** After a trigger at sample j, the countdown at sample t of the hold is
      at least hold - 1 - (t - j), and sample t passes. */
  lemma {:induction false} HoldCounts(g: Gate, means: seq<real>, alpha: real, threshold: real, hold: int, j: nat, t: nat)
    requires j <= t < |means| && t < j + hold
    requires Gating(g, means[..j + 1], alpha, threshold, hold).1.coeff >= threshold
    ensures Gating(g, means[..t + 1], alpha, threshold, hold).0[t]
    ensures Gating(g, means[..t + 1], alpha, threshold, hold).1.countDown >= hold - 1 - (t - j)
    decreases t - j
  {
    var front := means[..t + 1][..t];
    assert front == means[..t];
    if t > j {
      HoldCounts(g, means, alpha, threshold, hold, j, t - 1);
      assert means[..t - 1 + 1] == means[..t];
    }
  }

  /** After a trigger at sample j every sample j .. j + hold - 1 of the block passes. */
  lemma HoldKeepsOpen(g: Gate, means: seq<real>, alpha: real, threshold: real, hold: int, j: nat, t: nat)
    requires j <= t < |means| && t < j + hold
    requires Gating(g, means[..j + 1], alpha, threshold, hold).1.coeff >= threshold
    ensures Gating(g, means, alpha, threshold, hold).0[t]
  {
    HoldCounts(g, means, alpha, threshold, hold, j, t);
    GatingPrefix(g, means, alpha, threshold, hold, t + 1);
  }

  /** Input that stays below the threshold never opens a closed gate: with
      the follower and every channel mean within [-b, b] and b below the
      threshold, no sample passes. */
  lemma {:induction false} QuietStaysShut(g: Gate, means: seq<real>, alpha: real, threshold: real, hold: int, b: real)
    requires 0.0 <= alpha <= 1.0 && -b <= g.coeff <= b && b < threshold && g.countDown == 0
    requires forall k | 0 <= k < |means| :: -b <= means[k] <= b
    ensures forall k | 0 <= k < |means| :: !Gating(g, means, alpha, threshold, hold).0[k]
    ensures Gating(g, means, alpha, threshold, hold).1.countDown == 0
    decreases |means|
  {
    if means != [] {
      var front := means[..|means| - 1];
      QuietStaysShut(g, front, alpha, threshold, hold, b);
      FollowerBounded(g, front, alpha, threshold, hold, b);
      FollowBounded(alpha, Gating(g, front, alpha, threshold, hold).1.coeff, means[|means| - 1], b);
    }
  }

  /** A channel after the gate: each sample is the input where the gate
      passed and silence where it did not. */
  function Gated(xs: seq<real>, opens: seq<bool>): (ys: seq<real>)
    requires |xs| == |opens|
    ensures |ys| == |xs|
  {
    seq(|xs|, k requires 0 <= k < |xs| => if opens[k] then xs[k] else 0.0)
  }

  /** Every output sample is its input or silence, and at each sample every
      channel makes the same choice. */
  lemma SameChoiceOnEveryChannel(xs: seq<real>, ys: seq<real>, opens: seq<bool>, k: int)
    requires |xs| == |ys| == |opens| && 0 <= k < |xs|
    ensures Gated(xs, opens)[k] == xs[k] || Gated(xs, opens)[k] == 0.0
    ensures Gated(xs, opens)[k] == xs[k] && xs[k] != 0.0 ==> Gated(ys, opens)[k] == ys[k]
    ensures Gated(xs, opens)[k] == 0.0 && xs[k] != 0.0 ==> Gated(ys, opens)[k] == 0.0
  {
  }

  /** The samples at index j across the channels. */
  function Column(rows: seq<seq<real>>, j: int): (col: seq<real>)
    requires 0 <= j && forall i | 0 <= i < |rows| :: j < |rows[i]|
    ensures |col| == |rows|
  {
    seq(|rows|, i requires 0 <= i < |rows| => rows[i][j])
  }

  /** The channel mean of every sample of a block. */
  function Means(rows: seq<seq<real>>, n: nat): (ms: seq<real>)
    requires |rows| > 0 && forall i | 0 <= i < |rows| :: |rows[i]| == n
    ensures |ms| == n
  {
    seq(n, j requires 0 <= j < n => Mean(Column(rows, j)))
  }

  /** The contents of the channel arrays. */
  function Contents(channels: seq<array<real>>): (rows: seq<seq<real>>)
    reads channels
    ensures |rows| == |channels|
    ensures forall i | 0 <= i < |channels| :: rows[i] == channels[i][..]
  {
    seq(|channels|, i requires 0 <= i < |channels| reads channels => channels[i][..])
  }

  /** The mixing loop `mixedSamples += ...; mixedSamples /= numChannels` at
      sample j; `rows` are the channels' contents. */
  method MixDown(channels: seq<array<real>>, j: int, ghost rows: seq<seq<real>>) returns (mixed: real)
    requires |channels| > 0 && |rows| == |channels| && 0 <= j
    requires forall i | 0 <= i < |channels| :: j < |rows[i]| && j < channels[i].Length && rows[i][j] == channels[i][j]
    ensures mixed == Mean(Column(rows, j))
  {
    ghost var col := Column(rows, j);
    var sum := 0.0;
    var i := 0;
    while i < |channels|
      invariant 0 <= i <= |channels|
      invariant sum == Sum(col[..i])
    {
      assert col[..i + 1][..i] == col[..i];
      sum := sum + channels[i][j];
      i := i + 1;
    }
    assert col[..i] == col;
    mixed := sum / |channels| as real;
  }

  /** The writing loop at sample j: every channel keeps its sample if the gate
      passes and is silenced otherwise; nothing else changes. */
  method GateColumn(channels: seq<array<real>>, j: int, open: bool)
    requires Distinct(channels) && forall i | 0 <= i < |channels| :: 0 <= j < channels[i].Length
    modifies channels
    ensures forall i | 0 <= i < |channels| :: channels[i][j] == if open then old(channels[i][j]) else 0.0
    ensures forall i, t | 0 <= i < |channels| && 0 <= t < channels[i].Length && t != j ::
              channels[i][t] == old(channels[i][t])
  {
    var i := 0;
    while i < |channels|
      invariant 0 <= i <= |channels|
      invariant forall e | 0 <= e < i :: channels[e][j] == if open then old(channels[e][j]) else 0.0
      invariant forall e | i <= e < |channels| :: channels[e][j] == old(channels[e][j])
      invariant forall e, t | 0 <= e < |channels| && 0 <= t < channels[e].Length && t != j ::
                  channels[e][t] == old(channels[e][t])
    {
      channels[i][j] := if open then channels[i][j] else 0.0;
      i := i + 1;
    }
  }

  class NoiseGateProcessor {
    var sampleRate: real
    var lowPassCoeff: real
    var sampleCountDown: int

    /** The state prepareToPlay sets up and processBlock keeps. */
    ghost predicate Valid()
      reads this
    {
      sampleRate > 0.0 && sampleCountDown >= 0
    }

    /** The follower and the countdown as one value. */
    function State(): Gate
      reads this
    {
      Gate(lowPassCoeff, sampleCountDown)
    }

    /** The countdown a trigger starts: `(int)getSampleRate()`, one second. */
    function Hold(): (n: int)
      reads this
      requires Valid()
      ensures n >= 0 && n as real <= sampleRate < n as real + 1.0
    {
      DelayLine.Trunc(sampleRate)
    }

    /** prepareToPlay: follower and countdown at zero. */
    method PrepareToPlay(rate: real)
      requires rate > 0.0
      modifies this
      ensures Valid()
      ensures sampleRate == rate && lowPassCoeff == 0.0 && sampleCountDown == 0
    {
      sampleRate := rate;
      lowPassCoeff := 0.0;
      sampleCountDown := 0;
    }

    /** One sample j of processBlock: mix the channels down, move the
        follower, restart the countdown on a trigger, gate every channel at
        j, count down. `rows` hold column j as it was on entry. */
    method GateSample(channels: seq<array<real>>, j: int, alpha: real, threshold: real, ghost rows: seq<seq<real>>)
      returns (ghost open: bool)
      requires Valid()
      requires |channels| > 0 && Distinct(channels) && |rows| == |channels| && 0 <= j
      requires forall i | 0 <= i < |channels| :: j < |rows[i]| && j < channels[i].Length && rows[i][j] == channels[i][j]
      modifies channels, this`lowPassCoeff, this`sampleCountDown
      ensures Valid()
      ensures (open, State()) == Tick(old(State()), Mean(Column(rows, j)), alpha, threshold, Hold())
      ensures forall i | 0 <= i < |channels| :: channels[i][j] == if open then rows[i][j] else 0.0
      ensures forall i, t | 0 <= i < |channels| && 0 <= t < channels[i].Length && t != j ::
                channels[i][t] == old(channels[i][t])
    {
      ghost var c0 := lowPassCoeff;
      ghost var tick := Tick(Gate(c0, sampleCountDown), Mean(Column(rows, j)), alpha, threshold, Hold());
      var mixed := MixDown(channels, j, rows);
      lowPassCoeff := (alpha * lowPassCoeff) + ((1.0 - alpha) * mixed);
      assert lowPassCoeff == Follow(alpha, c0, mixed) == tick.1.coeff;
      if lowPassCoeff >= threshold {
        sampleCountDown := DelayLine.Trunc(sampleRate);
      }
      open := sampleCountDown > 0;
      GateColumn(channels, j, sampleCountDown > 0);
      if sampleCountDown > 0 {
        sampleCountDown := sampleCountDown - 1;
      }
      assert (open, State()) == tick;
    }

    /** processBlock on the main bus: sample by sample the channel mean drives
        the gate, and every channel passes or is silenced by its decision. */
    method ProcessBlock(channels: seq<array<real>>, numSamples: nat, alpha: real, threshold: real)
      requires Valid()
      requires |channels| > 0 && Distinct(channels)
      requires forall i | 0 <= i < |channels| :: channels[i].Length == numSamples
      modifies channels, this`lowPassCoeff, this`sampleCountDown
      ensures Valid()
      ensures var r := Gating(old(State()), Means(old(Contents(channels)), numSamples), alpha, threshold, Hold());
              State() == r.1 &&
              forall i | 0 <= i < |channels| :: channels[i][..] == Gated(old(channels[i][..]), r.0)
    {
      ghost var rows := Contents(channels);
      assert forall i | 0 <= i < |rows| :: rows[i] == channels[i][..] && |rows[i]| == numSamples;
      ghost var ms := Means(rows, numSamples);
      ghost var g0 := State();
      ghost var opens: seq<bool> := [];
      var j := 0;
      while j < numSamples
        invariant 0 <= j <= numSamples && |opens| == j && Valid()
        invariant (opens, State()) == Gating(g0, ms[..j], alpha, threshold, Hold())
        invariant forall i, t | 0 <= i < |channels| && 0 <= t < j ::
                    channels[i][t] == if opens[t] then rows[i][t] else 0.0
        invariant forall i, t | 0 <= i < |channels| && j <= t < numSamples :: channels[i][t] == rows[i][t]
      {
        assert ms[..j + 1][..j] == ms[..j] && ms[..j + 1][j] == ms[j];
        var open := GateSample(channels, j, alpha, threshold, rows);
        opens := opens + [open];
        j := j + 1;
      }
      assert ms[..j] == ms;
      forall i | 0 <= i < |channels|
        ensures channels[i][..] == Gated(rows[i], opens)
      {
      }
    }
  }
}
