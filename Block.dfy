/** One channel's pass through a block, as the delay-line effects run it: the
    samples are handled one after another by a kernel that reads the line and
    writes the slot under the cursor; after each sample the cursor advances by
    one slot and the LFO phase by a fixed increment. The kernel of each effect
    is defined beside its processor; the facts proved here hold for any kernel
    with the stated one-sample property. */
module Block {
  import opened DelayLine

  /** One sample's work: from the line, the cursor, the LFO phase and the input
      sample, the output sample and the line after the write. */
  type Kernel<!T(!new)> = (seq<T>, int, real, T) --> (T, seq<T>)

  /** On lines of n slots the kernel accepts every cursor and wrapped phase and
      keeps the line's length. */
  ghost predicate Fits<T(!new)>(step: Kernel<T>, n: int)
  {
    forall l: seq<T>, c: int, phase: real, x: T
      | |l| == n && 0 <= c < n && 0.0 <= phase < 1.0 ::
      step.requires(l, c, phase, x) && |step(l, c, phase, x).1| == n
  }

  /** The kernel fits lines of n slots and writes nothing but the slot under the cursor. */
  ghost predicate WritesCursor<T(!new)>(step: Kernel<T>, n: int)
  {
    Fits(step, n) &&
    forall l: seq<T>, c: int, phase: real, x: T, j: int
      | |l| == n && 0 <= c < n && 0.0 <= phase < 1.0 && 0 <= j < n && j != c ::
      step(l, c, phase, x).1[j] == l[j]
  }

  /** The kernel applied to one sample on a line it fits. */
  function Apply<T(!new)>(step: Kernel<T>, l: seq<T>, c: int, phase: real, x: T): (s: (T, seq<T>))
    requires Fits(step, |l|) && 0 <= c < |l| && 0.0 <= phase < 1.0
    ensures |s.1| == |l|
  {
    step(l, c, phase, x)
  }

  /** The result of a pass: the samples left in the audio channel, the delay
      line, the write cursor and the LFO phase after it. */
  datatype Pass<T(!new)> = Pass(out: seq<T>, line: seq<T>, cursor: int, phase: real)

  /** The samples xs run through the kernel from cursor w and phase `phase`. */
  function Run<T(!new)>(step: Kernel<T>, increment: real, line: seq<T>, w: int, phase: real, xs: seq<T>): (r: Pass<T>)
    requires 0 <= w < |line| && 0.0 <= phase < 1.0 && 0.0 <= increment < 1.0
    requires Fits(step, |line|)
    ensures |r.out| == |xs| && |r.line| == |line|
    ensures r.cursor == (w + |xs|) % |line|
    ensures 0.0 <= r.phase < 1.0
    decreases |xs|
  {
    if xs == [] then
      ModOnce(w, |line|);
      Pass([], line, w, phase)
    else
      var prev := Run(step, increment, line, w, phase, xs[..|xs| - 1]);
      var s := Apply(step, prev.line, prev.cursor, prev.phase, xs[|xs| - 1]);
      ModSuccessor(w + |xs| - 1, |line|);
      Pass(prev.out + [s.0], s.1, Advance(prev.cursor, |line|), AdvancePhase(prev.phase, increment))
  }

  /** The phase after a pass has advanced once per sample, whatever the kernel. */
  lemma {:induction false} RunPhase<T(!new)>(step: Kernel<T>, increment: real, line: seq<T>, w: int, phase: real, xs: seq<T>)
    requires 0 <= w < |line| && 0.0 <= phase < 1.0 && 0.0 <= increment < 1.0
    requires Fits(step, |line|)
    ensures Run(step, increment, line, w, phase, xs).phase == AdvancePhaseBy(phase, increment, |xs|)
    decreases |xs|
  {
    if xs != [] {
      RunPhase(step, increment, line, w, phase, xs[..|xs| - 1]);
    }
  }

  /** One more sample extends the pass by one kernel step. */
  lemma RunSnoc<T(!new)>(step: Kernel<T>, increment: real, line: seq<T>, w: int, phase: real, xs: seq<T>, x: T)
    requires 0 <= w < |line| && 0.0 <= phase < 1.0 && 0.0 <= increment < 1.0
    requires Fits(step, |line|)
    ensures var prev := Run(step, increment, line, w, phase, xs);
            var s := Apply(step, prev.line, prev.cursor, prev.phase, x);
            Run(step, increment, line, w, phase, xs + [x])
            == Pass(prev.out + [s.0], s.1, Advance(prev.cursor, |line|), AdvancePhase(prev.phase, increment))
  {
    assert (xs + [x])[..|xs|] == xs;
  }

  /** Two blocks one after the other are their concatenation: the line, the
      cursor and the phase carry the state across the block boundary. */
  lemma {:induction false} BlocksCompose<T(!new)>(step: Kernel<T>, increment: real, line: seq<T>, w: int, phase: real,
                                         xs: seq<T>, ys: seq<T>)
    requires 0 <= w < |line| && 0.0 <= phase < 1.0 && 0.0 <= increment < 1.0
    requires Fits(step, |line|)
    ensures var a := Run(step, increment, line, w, phase, xs);
            var b := Run(step, increment, a.line, a.cursor, a.phase, ys);
            Run(step, increment, line, w, phase, xs + ys) == Pass(a.out + b.out, b.line, b.cursor, b.phase)
    decreases |ys|
  {
    if ys == [] {
      assert xs + ys == xs;
    } else {
      var m := |ys| - 1;
      BlocksCompose(step, increment, line, w, phase, xs, ys[..m]);
      assert (xs + ys)[..|xs + ys| - 1] == xs + ys[..m];
      assert (xs + ys)[|xs + ys| - 1] == ys[m];
    }
  }

  /** The kernel's output depends on its input sample alone, through f. */
  ghost predicate MapsInput<T(!new)>(step: Kernel<T>, n: int, f: T -> T)
  {
    Fits(step, n) &&
    forall l: seq<T>, c: int, phase: real, x: T
      | |l| == n && 0 <= c < n && 0.0 <= phase < 1.0 :: step(l, c, phase, x).0 == f(x)
  }

  /** Such a kernel maps the whole channel sample by sample. */
  lemma {:induction false} MapsInputPass<T(!new)>(step: Kernel<T>, increment: real, line: seq<T>, w: int, phase: real,
                                                  xs: seq<T>, f: T -> T)
    requires 0 <= w < |line| && 0.0 <= phase < 1.0 && 0.0 <= increment < 1.0
    requires MapsInput(step, |line|, f)
    ensures forall k | 0 <= k < |xs| :: Run(step, increment, line, w, phase, xs).out[k] == f(xs[k])
    decreases |xs|
  {
    if xs != [] {
      var m := |xs| - 1;
      MapsInputPass(step, increment, line, w, phase, xs[..m], f);
      forall k | 0 <= k < m ensures Run(step, increment, line, w, phase, xs).out[k] == f(xs[k]) {
        assert xs[..m][k] == xs[k];
      }
    }
  }

  /** The kernel neither changes the sample nor touches the line. */
  ghost predicate Inert<T(!new)>(step: Kernel<T>, n: int)
  {
    Fits(step, n) &&
    forall l: seq<T>, c: int, phase: real, x: T
      | |l| == n && 0 <= c < n && 0.0 <= phase < 1.0 :: step(l, c, phase, x) == (x, l)
  }

  /** An inert kernel leaves the channel and the line as they were; only the
      cursor and the phase move. */
  lemma {:induction false} InertPass<T(!new)>(step: Kernel<T>, increment: real, line: seq<T>, w: int, phase: real, xs: seq<T>)
    requires 0 <= w < |line| && 0.0 <= phase < 1.0 && 0.0 <= increment < 1.0
    requires Inert(step, |line|)
    ensures Run(step, increment, line, w, phase, xs).out == xs
    ensures Run(step, increment, line, w, phase, xs).line == line
    decreases |xs|
  {
    if xs != [] {
      InertPass(step, increment, line, w, phase, xs[..|xs| - 1]);
      assert xs == xs[..|xs| - 1] + [xs[|xs| - 1]];
    }
  }

  /** The second kernel writes exactly what the first writes and outputs
      g(x, y) where the first outputs y. */
  ghost predicate Shadows<T(!new)>(step: Kernel<T>, other: Kernel<T>, n: int, g: (T, T) -> T)
  {
    Fits(step, n) && Fits(other, n) &&
    forall l: seq<T>, c: int, phase: real, x: T
      | |l| == n && 0 <= c < n && 0.0 <= phase < 1.0 ::
      other(l, c, phase, x) == (g(x, step(l, c, phase, x).0), step(l, c, phase, x).1)
  }

  /** Over a whole pass the shadowing kernel leaves the same line and phase,
      and each of its outputs is g of the input and the first kernel's output. */
  lemma {:induction false} ShadowPass<T(!new)>(step: Kernel<T>, other: Kernel<T>, increment: real, line: seq<T>, w: int,
                                               phase: real, xs: seq<T>, g: (T, T) -> T)
    requires 0 <= w < |line| && 0.0 <= phase < 1.0 && 0.0 <= increment < 1.0
    requires Shadows(step, other, |line|, g)
    ensures Run(other, increment, line, w, phase, xs).line == Run(step, increment, line, w, phase, xs).line
    ensures Run(other, increment, line, w, phase, xs).phase == Run(step, increment, line, w, phase, xs).phase
    ensures forall k | 0 <= k < |xs| ::
              Run(other, increment, line, w, phase, xs).out[k] == g(xs[k], Run(step, increment, line, w, phase, xs).out[k])
    decreases |xs|
  {
    if xs != [] {
      var m := |xs| - 1;
      ShadowPass(step, other, increment, line, w, phase, xs[..m], g);
      var a := Run(step, increment, line, w, phase, xs);
      var b := Run(other, increment, line, w, phase, xs);
      var a' := Run(step, increment, line, w, phase, xs[..m]);
      var b' := Run(other, increment, line, w, phase, xs[..m]);
      assert b.out[m] == g(xs[m], a.out[m]);
      forall k | 0 <= k < m ensures b.out[k] == g(xs[k], a.out[k]) {
        assert b.out[k] == b'.out[k] && a.out[k] == a'.out[k];
        assert xs[..m][k] == xs[k];
      }
    }
  }

  /** Every sample of the sequence is the silent sample z. */
  ghost predicate Silent<T(!new)>(s: seq<T>, z: T)
  {
    forall k | 0 <= k < |s| :: s[k] == z
  }

  /** The kernel reads and writes silence on a silent line fed a silent sample. */
  ghost predicate KeepsSilence<T(!new)>(step: Kernel<T>, n: int, z: T)
  {
    Fits(step, n) &&
    forall l: seq<T>, c: int, phase: real
      | |l| == n && 0 <= c < n && 0.0 <= phase < 1.0 && Silent(l, z) ::
      step(l, c, phase, z).0 == z && Silent(step(l, c, phase, z).1, z)
  }

  /** Silence through a silent line gives silence and leaves the line silent. */
  lemma {:induction false} SilenceStaysSilent<T(!new)>(step: Kernel<T>, increment: real, line: seq<T>, w: int, phase: real,
                                                 xs: seq<T>, z: T)
    requires 0 <= w < |line| && 0.0 <= phase < 1.0 && 0.0 <= increment < 1.0
    requires KeepsSilence(step, |line|, z) && Silent(line, z) && Silent(xs, z)
    ensures Silent(Run(step, increment, line, w, phase, xs).out, z)
    ensures Silent(Run(step, increment, line, w, phase, xs).line, z)
    decreases |xs|
  {
    if xs != [] {
      var init := xs[..|xs| - 1];
      assert Silent(init, z) by {
        forall k | 0 <= k < |init| ensures init[k] == z {
          assert init[k] == xs[k];
        }
      }
      SilenceStaysSilent(step, increment, line, w, phase, init, z);
      assert xs[|xs| - 1] == z;
    }
  }

  /** The kernel stores the dry input at the cursor, with no feedback. */
  ghost predicate StoresDry<T(!new)>(step: Kernel<T>, n: int)
  {
    Fits(step, n) &&
    forall l: seq<T>, c: int, phase: real, x: T
      | |l| == n && 0 <= c < n && 0.0 <= phase < 1.0 :: step(l, c, phase, x).1 == l[c := x]
  }

  /** A kernel storing its dry input leaves the line holding the block's
      samples from its first cursor on: slot j holds the sample written
      Offset(w, j) steps into the block, or its old content if the block is
      shorter than that. */
  lemma {:induction false} DryLine<T(!new)>(step: Kernel<T>, increment: real, line: seq<T>, w: int, phase: real, xs: seq<T>)
    requires 0 <= w < |line| && 0.0 <= phase < 1.0 && 0.0 <= increment < 1.0
    requires StoresDry(step, |line|) && |xs| <= |line|
    ensures forall j | 0 <= j < |line| ::
              Run(step, increment, line, w, phase, xs).line[j]
              == if Offset(w, j, |line|) < |xs| then xs[Offset(w, j, |line|)] else line[j]
    decreases |xs|
  {
    if xs != [] {
      var n, k := |line|, |xs| - 1;
      DryLine(step, increment, line, w, phase, xs[..k]);
      var prev := Run(step, increment, line, w, phase, xs[..k]);
      var r := Run(step, increment, line, w, phase, xs);
      assert r.line == prev.line[prev.cursor := xs[k]];
      forall j | 0 <= j < n
        ensures r.line[j] == if Offset(w, j, n) < |xs| then xs[Offset(w, j, n)] else line[j]
      {
        SlotOffset(w, k, j, n);
        if Offset(w, j, n) < k {
          assert xs[..k][Offset(w, j, n)] == xs[Offset(w, j, n)];
        }
      }
    }
  }

  /** A wet-only echo of d whole samples (0 < d < n): the output is the sample
      d slots behind the cursor, and the cursor slot receives `store` of the
      input and that sample (for a mono feedback delay, the input plus the
      delayed sample times the feedback gain). */
  ghost predicate Echoes<T(!new)>(step: Kernel<T>, n: int, d: int, store: (T, T) -> T)
  {
    1 <= d < n && Fits(step, n) &&
    forall l: seq<T>, c: int, phase: real, x: T
      | |l| == n && 0 <= c < n && 0.0 <= phase < 1.0 ::
      step(l, c, phase, x) == (l[Behind(c, d, n)], l[c := store(x, l[Behind(c, d, n)])])
  }

  /** An echo leaves its line holding what it stored from each input and
      output, from the block's first cursor on. */
  lemma {:induction false} EchoLine<T(!new)>(step: Kernel<T>, increment: real, line: seq<T>, w: int, phase: real,
                                       xs: seq<T>, d: int, store: (T, T) -> T)
    requires 0 <= w < |line| && 0.0 <= phase < 1.0 && 0.0 <= increment < 1.0
    requires Echoes(step, |line|, d, store) && |xs| <= |line|
    ensures forall j | 0 <= j < |line| ::
              Run(step, increment, line, w, phase, xs).line[j]
              == if Offset(w, j, |line|) < |xs|
                 then store(xs[Offset(w, j, |line|)], Run(step, increment, line, w, phase, xs).out[Offset(w, j, |line|)])
                 else line[j]
    decreases |xs|
  {
    if xs != [] {
      var n, k := |line|, |xs| - 1;
      EchoLine(step, increment, line, w, phase, xs[..k], d, store);
      var prev := Run(step, increment, line, w, phase, xs[..k]);
      var r := Run(step, increment, line, w, phase, xs);
      var b := Behind(prev.cursor, d, n);
      assert r.out == prev.out + [prev.line[b]];
      assert r.line == prev.line[prev.cursor := store(xs[k], prev.line[b])];
      forall j | 0 <= j < n
        ensures r.line[j] == if Offset(w, j, n) < |xs|
                             then store(xs[Offset(w, j, n)], r.out[Offset(w, j, n)])
                             else line[j]
      {
        SlotOffset(w, k, j, n);
        var m := Offset(w, j, n);
        if m < k {
          assert xs[..k][m] == xs[m];
          assert r.out[m] == prev.out[m];
        }
      }
    }
  }

  /** The comb-filter recurrence at sample k of an echo of d samples from
      cursor w: what was stored from the input and the output d samples
      earlier, or, for the first d samples, what the line held before the block. */
  ghost predicate CombAt<T(!new)>(out: seq<T>, xs: seq<T>, line: seq<T>, w: int, d: int, store: (T, T) -> T, k: int)
    requires |out| == |xs| && 0 <= k < |xs| && 0 <= w < |line| && 0 <= d <= |line|
  {
    out[k] == if k >= d then store(xs[k - d], out[k - d]) else line[Behind(w, d - k, |line|)]
  }

  /** The newest output of an echo follows the recurrence. */
  lemma EchoNewest<T(!new)>(step: Kernel<T>, increment: real, line: seq<T>, w: int, phase: real,
                      xs: seq<T>, d: int, store: (T, T) -> T)
    requires 0 <= w < |line| && 0.0 <= phase < 1.0 && 0.0 <= increment < 1.0
    requires Echoes(step, |line|, d, store) && 0 < |xs| <= |line|
    ensures CombAt(Run(step, increment, line, w, phase, xs).out, xs, line, w, d, store, |xs| - 1)
  {
    var n, k := |line|, |xs| - 1;
    var prev := Run(step, increment, line, w, phase, xs[..k]);
    var r := Run(step, increment, line, w, phase, xs);
    var b := Behind(prev.cursor, d, n);
    assert r.out[k] == prev.line[b];
    EchoLine(step, increment, line, w, phase, xs[..k], d, store);
    ReadSlotOffset(w, k, d, n);
    if k >= d {
      assert prev.line[b] == store(xs[..k][k - d], prev.out[k - d]);
      assert xs[..k][k - d] == xs[k - d];
      assert r.out[k - d] == prev.out[k - d];
    } else {
      assert prev.line[b] == line[b];
    }
  }

  /** A prefix of the block produces a prefix of the output. */
  lemma PrefixOut<T(!new)>(step: Kernel<T>, increment: real, line: seq<T>, w: int, phase: real, xs: seq<T>, m: nat)
    requires 0 <= w < |line| && 0.0 <= phase < 1.0 && 0.0 <= increment < 1.0
    requires Fits(step, |line|) && m <= |xs|
    ensures Run(step, increment, line, w, phase, xs[..m]).out == Run(step, increment, line, w, phase, xs).out[..m]
  {
    BlocksCompose(step, increment, line, w, phase, xs[..m], xs[m..]);
    assert xs[..m] + xs[m..] == xs;
  }

  /** The recurrence at sample k only looks at samples up to k, so it carries
      over from a prefix of the block to the whole block. */
  lemma CombAtExtends<T(!new)>(out: seq<T>, xs: seq<T>, out': seq<T>, xs': seq<T>,
                         line: seq<T>, w: int, d: int, store: (T, T) -> T, k: int)
    requires |out| == |xs| <= |xs'| == |out'| && 0 <= k < |xs| && 0 <= w < |line| && 0 <= d <= |line|
    requires out == out'[..|out|] && xs == xs'[..|xs|]
    requires CombAt(out, xs, line, w, d, store, k)
    ensures CombAt(out', xs', line, w, d, store, k)
  {
    assert out[k] == out'[k] && (k >= d ==> out[k - d] == out'[k - d] && xs[k - d] == xs'[k - d]);
  }

  /** Every output of an echo follows the comb-filter recurrence. */
  lemma EchoRecurrence<T(!new)>(step: Kernel<T>, increment: real, line: seq<T>, w: int, phase: real,
                          xs: seq<T>, d: int, store: (T, T) -> T)
    requires 0 <= w < |line| && 0.0 <= phase < 1.0 && 0.0 <= increment < 1.0
    requires Echoes(step, |line|, d, store) && |xs| <= |line|
    ensures forall k | 0 <= k < |xs| ::
              CombAt(Run(step, increment, line, w, phase, xs).out, xs, line, w, d, store, k)
  {
    var r := Run(step, increment, line, w, phase, xs);
    forall k | 0 <= k < |xs|
      ensures CombAt(r.out, xs, line, w, d, store, k)
    {
      var ys := xs[..k + 1];
      EchoNewest(step, increment, line, w, phase, ys, d, store);
      PrefixOut(step, increment, line, w, phase, xs, k + 1);
      CombAtExtends(Run(step, increment, line, w, phase, ys).out, ys, r.out, xs, line, w, d, store, k);
    }
  }

  /** An echo that stores only its input is a pure delay line: each output is
      the input d samples earlier, or what the line held before the block. */
  lemma PureDelay<T(!new)>(step: Kernel<T>, increment: real, line: seq<T>, w: int, phase: real,
                     xs: seq<T>, d: int, store: (T, T) -> T)
    requires 0 <= w < |line| && 0.0 <= phase < 1.0 && 0.0 <= increment < 1.0
    requires Echoes(step, |line|, d, store) && |xs| <= |line|
    requires forall x: T, y: T :: store(x, y) == x
    ensures forall k | 0 <= k < |xs| ::
              Run(step, increment, line, w, phase, xs).out[k]
              == if k >= d then xs[k - d] else line[Behind(w, d - k, |line|)]
  {
    EchoRecurrence(step, increment, line, w, phase, xs, d, store);
    var r := Run(step, increment, line, w, phase, xs);
    forall k | 0 <= k < |xs|
      ensures r.out[k] == if k >= d then xs[k - d] else line[Behind(w, d - k, |line|)]
    {
      assert CombAt(r.out, xs, line, w, d, store, k);
    }
  }

  /** A kernel that writes only the cursor slot leaves the line it returns
      equal to the old line with that one slot replaced. */
  lemma CursorSlot<T(!new)>(step: Kernel<T>, l: seq<T>, c: int, phase: real, x: T)
    requires WritesCursor(step, |l|) && 0 <= c < |l| && 0.0 <= phase < 1.0
    ensures Fits(step, |l|) && l[c := step(l, c, phase, x).1[c]] == step(l, c, phase, x).1
  {
    var t := step(l, c, phase, x).1;
    assert forall j | 0 <= j < |l| && j != c :: t[j] == l[j];
  }

  /** The sample loop of one channel, in place on its audio and delay arrays:
      each sample goes through the kernel, which writes the cursor slot; then
      the cursor and the phase advance. */
  method ProcessChannel<T(!new)>(step: Kernel<T>, increment: real, x: array<T>, d: array<T>, w0: int, phase0: real)
    returns (w: int, phase: real)
    requires x != d && 0 <= w0 < d.Length && 0.0 <= phase0 < 1.0 && 0.0 <= increment < 1.0
    requires WritesCursor(step, d.Length)
    modifies x, d
    ensures x[..] == Run(step, increment, old(d[..]), w0, phase0, old(x[..])).out
    ensures d[..] == Run(step, increment, old(d[..]), w0, phase0, old(x[..])).line
    ensures w == Run(step, increment, old(d[..]), w0, phase0, old(x[..])).cursor
    ensures phase == Run(step, increment, old(d[..]), w0, phase0, old(x[..])).phase
  {
    ghost var line0, xs0 := d[..], x[..];
    ghost var r := Run(step, increment, line0, w0, phase0, []);
    w, phase := w0, phase0;
    var k := 0;
    while k < x.Length
      invariant 0 <= k <= x.Length
      invariant r == Run(step, increment, line0, w0, phase0, xs0[..k])
      invariant x[..k] == r.out && d[..] == r.line && w == r.cursor && phase == r.phase
      invariant forall j | k <= j < x.Length :: x[j] == xs0[j]
    {
      assert xs0[..k + 1] == xs0[..k] + [x[k]];
      RunSnoc(step, increment, line0, w0, phase0, xs0[..k], x[k]);
      CursorSlot(step, d[..], w, phase, x[k]);
      ghost var before := x[..k];
      var s := Apply(step, d[..], w, phase, x[k]);
      x[k] := s.0;
      d[w] := s.1[w];
      w := Advance(w, d.Length);
      phase := AdvancePhase(phase, increment);
      r := Pass(r.out + [s.0], s.1, w, phase);
      k := k + 1;
      assert x[..k] == before + [s.0];
    }
    assert x[..] == x[..k];
    assert xs0 == xs0[..k];
  }
}
