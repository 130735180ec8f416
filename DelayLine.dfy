/** The circular delay line shared by Flanger, Chorus, Delay and PingPongDelay:
    the C conversions it relies on, the fractional read position, the cursor
    and LFO-phase advance, and the three interpolation kernels. */
module DelayLine {

  /** C's conversion of a floating value to an integer: truncation toward zero. */
  function Trunc(x: real): (n: int)
    ensures x >= 0.0 ==> 0 <= n && n as real <= x < n as real + 1.0
    ensures x < 0.0 ==> n <= 0 && n as real - 1.0 < x <= n as real
  {
    if x >= 0.0 then x.Floor else -((-x).Floor)
  }

  /** Scaling by a positive factor keeps a weak order. */
  lemma MulLe(a: real, b: real, y: real)
    requires a <= b && y > 0.0
    ensures a * y <= b * y
  {
    assert b * y - a * y == (b - a) * y;
  }

  /** Scaling by a positive factor keeps a strict order. */
  lemma MulLt(a: real, b: real, y: real)
    requires a < b && y > 0.0
    ensures a * y < b * y
  {
    assert b * y - a * y == (b - a) * y;
  }

  /** The lower bound of a truncated quotient of a non-negative value, scaled back. */
  lemma TruncQuotientLowerNonnegative(x: real, y: real)
    requires y > 0.0 && x >= 0.0
    ensures Trunc(x / y) as real * y <= x
  {
    assert (x / y) * y == x;
    MulLe(Trunc(x / y) as real, x / y, y);
  }

  /** The upper bound of a truncated quotient of a non-negative value, scaled back. */
  lemma TruncQuotientUpperNonnegative(x: real, y: real)
    requires y > 0.0 && x >= 0.0
    ensures x < Trunc(x / y) as real * y + y
  {
    var q := Trunc(x / y) as real;
    assert (x / y) * y == x;
    MulLt(x / y, q + 1.0, y);
    assert (q + 1.0) * y == q * y + y;
  }

  /** The lower bound of a truncated quotient of a negative value, scaled back. */
  lemma TruncQuotientLowerNegative(x: real, y: real)
    requires y > 0.0 && x < 0.0
    ensures Trunc(x / y) as real * y - y < x
  {
    var t := x / y;
    assert t * y == x;
    if t >= 0.0 {
      MulLe(0.0, t, y);
    }
    assert t < 0.0;
    var q := Trunc(t) as real;
    assert q - 1.0 < t;
    MulLt(q - 1.0, t, y);
    assert (q - 1.0) * y == q * y - y;
  }

  /** The upper bound of a truncated quotient of a negative value, scaled back. */
  lemma TruncQuotientUpperNegative(x: real, y: real)
    requires y > 0.0 && x < 0.0
    ensures x <= Trunc(x / y) as real * y
  {
    assert (x / y) * y == x;
    MulLe(x / y, Trunc(x / y) as real, y);
  }

  /** C's fmodf: the remainder of x / y, carrying the sign of x. */
  function Fmod(x: real, y: real): (r: real)
    requires y > 0.0
    ensures x >= 0.0 ==> 0.0 <= r < y
    ensures x < 0.0 ==> -y < r <= 0.0
  {
    if x >= 0.0 then
      TruncQuotientLowerNonnegative(x, y);
      TruncQuotientUpperNonnegative(x, y);
      x - Trunc(x / y) as real * y
    else
      TruncQuotientLowerNegative(x, y);
      TruncQuotientUpperNegative(x, y);
      x - Trunc(x / y) as real * y
  }

  /** On a non-negative whole number fmodf agrees with integer remainder. */
  lemma {:induction false} FmodOfWhole(k: int, n: int)
    requires k >= 0 && n >= 1
    ensures Fmod(k as real, n as real) == (k % n) as real
  {
    var q := k / n;
    assert k == q * n + k % n;
    assert (k as real) / (n as real) == q as real + (k % n) as real / (n as real);
    assert 0.0 <= (k % n) as real / (n as real) < 1.0;
    assert Trunc(k as real / n as real) == q;
  }

  /** `fmodf(w - D + N, N)`: where a delay of D samples behind cursor w lies.
      For 0 <= D <= N the argument lies in [0, 2N), so the remainder takes at
      most one subtraction (ReadPositionIsFmod). */
  function ReadPosition(w: int, delaySamples: real, capacity: int): (r: real)
    requires 0 <= w < capacity
    requires 0.0 <= delaySamples <= capacity as real
    ensures 0.0 <= r < capacity as real
  {
    var x := w as real - delaySamples + capacity as real;
    if x < capacity as real then x else x - capacity as real
  }

  /** The quotient of a value below twice the divisor truncates to 0 or 1. */
  lemma TruncQuotientBelowTwo(x: real, y: real)
    requires y > 0.0 && 0.0 <= x < 2.0 * y
    ensures Trunc(x / y) == 0 || Trunc(x / y) == 1
  {
    var t := x / y;
    assert t * y == x;
    assert t < 2.0 by {
      if t >= 2.0 {
        MulLe(2.0, t, y);
      }
    }
    assert t >= 0.0 by {
      if t < 0.0 {
        MulLt(t, 0.0, y);
      }
    }
    var n := Trunc(t);
    assert 0 <= n && n as real < 2.0;
  }

  /** The read position is C's fmodf of the shifted cursor. */
  lemma ReadPositionIsFmod(w: int, delaySamples: real, capacity: int)
    requires 0 <= w < capacity
    requires 0.0 <= delaySamples <= capacity as real
    ensures ReadPosition(w, delaySamples, capacity)
            == Fmod(w as real - delaySamples + capacity as real, capacity as real)
  {
    var x, n := w as real - delaySamples + capacity as real, capacity as real;
    TruncQuotientBelowTwo(x, n);
    TruncQuotientLowerNonnegative(x, n);
    TruncQuotientUpperNonnegative(x, n);
  }

  /** For a whole delay the read position is the cursor minus the delay, wrapped. */
  lemma WholeReadPosition(w: int, d: int, capacity: int)
    requires 0 <= w < capacity && 0 <= d <= capacity
    ensures ReadPosition(w, d as real, capacity) == ((w - d + capacity) % capacity) as real
  {
    ModOnce(w - d + capacity, capacity);
  }

  /** The integer part of a read position (`floorf`), always a buffer index. */
  function ReadIndex(pos: real, capacity: int): (i: int)
    requires 0.0 <= pos < capacity as real
    ensures 0 <= i < capacity
    ensures i as real <= pos < i as real + 1.0
  {
    pos.Floor
  }

  /** The read index lands on the cursor exactly when the delay is zero or lies
      within one sample of the whole line. */
  lemma ReadHitsCursor(w: int, delaySamples: real, capacity: int)
    requires 0 <= w < capacity && 0.0 <= delaySamples <= capacity as real
    ensures ReadIndex(ReadPosition(w, delaySamples, capacity), capacity) == w
            <==> delaySamples == 0.0 || delaySamples > (capacity - 1) as real
  {
    var pos := ReadPosition(w, delaySamples, capacity);
    if delaySamples <= w as real {
      assert pos == w as real - delaySamples;
    } else {
      assert pos == w as real - delaySamples + capacity as real;
    }
  }

  /** The fractional part of a read position, the interpolation weight. */
  function Fraction(pos: real): (f: real)
    ensures 0.0 <= f < 1.0
    ensures pos == pos.Floor as real + f
  {
    pos - pos.Floor as real
  }

  /** `if (++w >= N) w -= N`: the cursor advance with a single subtraction. */
  function Advance(w: int, capacity: int): (r: int)
    requires 0 <= w < capacity
    ensures r == (w + 1) % capacity
    ensures 0 <= r < capacity
  {
    if w + 1 >= capacity then w + 1 - capacity else w + 1
  }

  /** Euclidean division is determined by its quotient-remainder decomposition. */
  lemma DivModUnique(x: int, n: int, q: int, r: int)
    requires n >= 1 && x == q * n + r && 0 <= r < n
    ensures x / n == q && x % n == r
  {
    var q0, r0 := x / n, x % n;
    assert x == q0 * n + r0;
    assert (q - q0) * n == r0 - r;
    if q > q0 {
      AtLeastOnce(q - q0, n);
    } else if q < q0 {
      AtLeastOnce(q0 - q, n);
    }
  }

  lemma AtLeastOnce(a: int, n: int)
    requires a >= 1 && n >= 1
    ensures a * n >= n
  {
    assert a * n - n == (a - 1) * n;
  }

  /** Remainder of a value in [0, 2n). */
  lemma ModOnce(a: int, n: int)
    requires n >= 1 && 0 <= a < 2 * n
    ensures a % n == if a < n then a else a - n
  {
    if a < n {
      DivModUnique(a, n, 0, a);
    } else {
      DivModUnique(a, n, 1, a - n);
    }
  }

  /** Taking the remainder before adding one changes nothing. */
  lemma ModSuccessor(a: int, n: int)
    requires n >= 1 && a >= 0
    ensures (a % n + 1) % n == (a + 1) % n
  {
    var q, r := a / n, a % n;
    ModOnce(r + 1, n);
    if r + 1 < n {
      DivModUnique(a + 1, n, q, r + 1);
    } else {
      DivModUnique(a + 1, n, q + 1, 0);
    }
  }

  /** The cursor after n single-subtraction advances is the cursor plus n, wrapped. */
  function AdvanceBy(w: int, n: nat, capacity: int): (r: int)
    requires 0 <= w < capacity
    ensures r == (w + n) % capacity
    ensures 0 <= r < capacity
  {
    if n == 0 then
      ModOnce(w, capacity);
      w
    else
      var p := AdvanceBy(w, n - 1, capacity);
      ModSuccessor(w + n - 1, capacity);
      Advance(p, capacity)
  }

  /** A sample scaled by a gain. The product is kept behind a function so that
      proofs about the delay loops can treat it as a single term. */
  function Scale(gain: real, sample: real): (r: real)
    ensures gain == 0.0 || sample == 0.0 ==> r == 0.0
    ensures gain == 1.0 ==> r == sample
  {
    gain * sample
  }

  /** `phase += inc; if (phase >= 1) phase -= 1`. */
  function AdvancePhase(phase: real, increment: real): (r: real)
    ensures 0.0 <= phase < 1.0 && 0.0 <= increment < 1.0 ==> 0.0 <= r < 1.0
    ensures r == phase + increment || r == phase + increment - 1.0
  {
    var p := phase + increment;
    if p >= 1.0 then p - 1.0 else p
  }

  /** The phase after n samples. */
  function AdvancePhaseBy(phase: real, increment: real, n: nat): (r: real)
    ensures 0.0 <= phase < 1.0 && 0.0 <= increment < 1.0 ==> 0.0 <= r < 1.0
  {
    if n == 0 then phase else AdvancePhase(AdvancePhaseBy(phase, increment, n - 1), increment)
  }

  /** Advancing by a samples and then by b is advancing by a + b. */
  lemma {:induction false} AdvancePhaseByAdds(phase: real, increment: real, a: nat, b: nat)
    ensures AdvancePhaseBy(AdvancePhaseBy(phase, increment, a), increment, b) == AdvancePhaseBy(phase, increment, a + b)
    decreases b
  {
    if b > 0 {
      AdvancePhaseByAdds(phase, increment, a, b - 1);
    }
  }

  /** Negating the gain negates the scaled sample. */
  lemma ScaleNegated(gain: real, sample: real)
    ensures Scale(-gain, sample) == -Scale(gain, sample)
  {
  }

  /** How many steps after cursor w the cursor reaches slot j, `(j - w + n) % n`. */
  function Offset(w: int, j: int, n: int): (m: int)
    requires 0 <= w < n && 0 <= j < n
    ensures 0 <= m < n
    ensures m == if w <= j then j - w else j - w + n
  {
    ModOnce(j - w + n, n);
    (j - w + n) % n
  }

  /** The cursor w plus m and the slot j are the same slot exactly when j lies m steps after w. */
  lemma SlotOffset(w: int, m: int, j: int, n: int)
    requires 0 <= w < n && 0 <= m < n && 0 <= j < n
    ensures (w + m) % n == j <==> Offset(w, j, n) == m
  {
    ModOnce(w + m, n);
  }

  /** The slot d places behind cursor c on a line of n slots, `(c - d + n) % n`. */
  function Behind(c: int, d: int, n: int): (j: int)
    requires 0 <= c < n && 0 <= d <= n
    ensures 0 <= j < n
    ensures j == if d <= c then c - d else c - d + n
  {
    ModOnce(c - d + n, n);
    (c - d + n) % n
  }

  /** Where the k-th sample's read slot, d behind its cursor, lies relative to
      the block's first cursor w: k - d steps after w once k >= d, and otherwise
      at least k steps after it, at the slot d - k behind w. */
  lemma ReadSlotOffset(w: int, k: int, d: int, n: int)
    requires 0 <= w < n && 0 <= k < n && 1 <= d < n
    ensures var c := (w + k) % n;
            var j := Behind(c, d, n);
            Offset(w, j, n) == (if k >= d then k - d else k - d + n) &&
            (k < d ==> j == Behind(w, d - k, n))
  {
    ModOnce(w + k, n);
  }

  datatype Interpolation = NearestNeighbour | Linear | Cubic

  /** The index of each kernel in the "Interpolation" choice parameter. */
  function InterpolationIndex(k: Interpolation): (i: int)
    ensures 0 <= i <= 2
  {
    match k
    case NearestNeighbour => 0
    case Linear => 1
    case Cubic => 2
  }

  /** NEAREST_NEIGHBOUR: `s[floor(pos) % N]`. */
  function NearestSample(s: seq<real>, pos: real): (r: real)
    requires 0.0 <= pos < |s| as real
    ensures r in s
    ensures r == s[ReadIndex(pos, |s|)]
  {
    s[ReadIndex(pos, |s|) % |s|]
  }

  /** A fraction of a non-negative quantity is at most the quantity. */
  lemma ScaleBelow(f: real, d: real)
    requires 0.0 <= f <= 1.0 && d >= 0.0
    ensures f * d <= d
  {
    assert d - f * d == (1.0 - f) * d;
  }

  lemma ScaleNonnegative(f: real, d: real)
    requires 0.0 <= f && d >= 0.0
    ensures 0.0 <= f * d
  {
  }

  /** A weight in [0, 1] scales the gap between two ends to at most the
      gap, and scaling the reversed gap gives its negation. */
  lemma ScaleGap(f: real, a: real, b: real)
    requires 0.0 <= f <= 1.0 && b <= a
    ensures 0.0 <= f * (a - b) <= a - b
    ensures f * (b - a) == -(f * (a - b))
  {
    ScaleBelow(f, a - b);
    ScaleNonnegative(f, a - b);
    assert f * (a - b) <= a - b;
    assert 0.0 <= f * (a - b);
  }

  lemma BlendUpper(a: real, b: real, f: real)
    requires 0.0 <= f <= 1.0 && a <= b
    ensures a + f * (b - a) <= b
  {
    ScaleGap(f, b, a);
  }

  lemma BlendLower(a: real, b: real, f: real)
    requires 0.0 <= f <= 1.0 && a <= b
    ensures a <= a + f * (b - a)
  {
    ScaleGap(f, b, a);
  }

  lemma BlendDown(a: real, b: real, f: real)
    requires 0.0 <= f <= 1.0 && b <= a
    ensures b <= a + f * (b - a) <= a
  {
    ScaleGap(f, a, b);
  }

  /** A linear blend with a weight in [0, 1] lies between its two ends. */
  lemma BlendBetween(a: real, b: real, f: real)
    requires 0.0 <= f <= 1.0
    ensures a <= b ==> a <= a + f * (b - a) <= b
    ensures b <= a ==> b <= a + f * (b - a) <= a
  {
    if a <= b {
      BlendUpper(a, b, f);
      BlendLower(a, b, f);
    }
    if b <= a {
      BlendDown(a, b, f);
    }
  }

  /** LINEAR: `s[i] + frac * (s[(i + 1) % N] - s[i])`. */
  function LinearSample(s: seq<real>, pos: real): (r: real)
    requires 0.0 <= pos < |s| as real
    ensures var i := ReadIndex(pos, |s|);
            var a, b := s[i], s[(i + 1) % |s|];
            (a <= r <= b) || (b <= r <= a)
    ensures Fraction(pos) == 0.0 ==> r == s[ReadIndex(pos, |s|)]
  {
    var i := ReadIndex(pos, |s|);
    BlendBetween(s[i], s[(i + 1) % |s|], Fraction(pos));
    s[i] + Fraction(pos) * (s[(i + 1) % |s|] - s[i])
  }

  /** Chorus's LINEAR as written: `out = delayed0 = fraction * (delayed1 - delayed0)`
      assigns where LinearSample adds, so the base sample s[i] is lost. */
  function ChorusLinearSample(s: seq<real>, pos: real): (r: real)
    requires 0.0 <= pos < |s| as real
    ensures r + s[ReadIndex(pos, |s|)] == LinearSample(s, pos)
  {
    var i := ReadIndex(pos, |s|);
    Fraction(pos) * (s[(i + 1) % |s|] - s[i])
  }

  /** The four-point kernel's polynomial in the fraction f. */
  function CubicPolynomial(s0: real, s1: real, s2: real, s3: real, f: real): real
  {
    var a0 := -0.5 * s0 + 1.5 * s1 - 1.5 * s2 + 0.5 * s3;
    var a1 := s0 - 2.5 * s1 + 2.0 * s2 - 0.5 * s3;
    var a2 := -0.5 * s0 + 0.5 * s2;
    var a3 := s1;
    a0 * (f * f * f) + a1 * (f * f) + a2 * f + a3
  }

  /** The polynomial passes through the two middle samples and keeps a constant. */
  lemma CubicInterpolates(s0: real, s1: real, s2: real, s3: real, c: real)
    ensures CubicPolynomial(s0, s1, s2, s3, 0.0) == s1
    ensures CubicPolynomial(s0, s1, s2, s3, 1.0) == s2
    ensures forall f :: CubicPolynomial(c, c, c, c, f) == c
  {
  }

  /** CUBIC: the polynomial through s[i-1], s[i], s[i+1], s[i+2], indices wrapped. */
  function CubicSample(s: seq<real>, pos: real): (r: real)
    requires 0.0 <= pos < |s| as real
    ensures Fraction(pos) == 0.0 ==> r == s[ReadIndex(pos, |s|)]
    ensures (forall j | 0 <= j < |s| :: s[j] == s[0]) ==> r == s[0]
  {
    var n := |s|;
    var i := ReadIndex(pos, n);
    CubicInterpolates(s[(i - 1 + n) % n], s[i], s[(i + 1) % n], s[(i + 2) % n], s[0]);
    CubicPolynomial(s[(i - 1 + n) % n], s[i], s[(i + 1) % n], s[(i + 2) % n], Fraction(pos))
  }

  /** The kernel chosen by the "Interpolation" parameter, as Flanger has it. */
  function Interpolate(k: Interpolation, s: seq<real>, pos: real): (r: real)
    requires 0.0 <= pos < |s| as real
    ensures Fraction(pos) == 0.0 ==> r == s[ReadIndex(pos, |s|)]
  {
    match k
    case NearestNeighbour => NearestSample(s, pos)
    case Linear => LinearSample(s, pos)
    case Cubic => CubicSample(s, pos)
  }

  /** The kernel chosen by the "Interpolation" parameter, as Chorus has it. */
  function ChorusInterpolate(k: Interpolation, s: seq<real>, pos: real): (r: real)
    requires 0.0 <= pos < |s| as real
    ensures k != Linear ==> r == Interpolate(k, s, pos)
  {
    match k
    case NearestNeighbour => NearestSample(s, pos)
    case Linear => ChorusLinearSample(s, pos)
    case Cubic => CubicSample(s, pos)
  }

  /** Every kernel reads silence from a silent buffer. */
  lemma SilentBufferReadsSilence(k: Interpolation, s: seq<real>, pos: real)
    requires 0.0 <= pos < |s| as real
    requires forall j | 0 <= j < |s| :: s[j] == 0.0
    ensures Interpolate(k, s, pos) == 0.0
    ensures ChorusInterpolate(k, s, pos) == 0.0
  {
  }

  /** At a whole read position every kernel returns the stored sample exactly. */
  lemma WholePositionReadsSample(k: Interpolation, s: seq<real>, i: int)
    requires 0 <= i < |s|
    ensures Interpolate(k, s, i as real) == s[i]
  {
    assert Fraction(i as real) == 0.0;
  }

  /** Halfway between two stored samples the linear kernel gives their
      average, the neighbour of the last slot being the first. */
  lemma LinearMidpoint(s: seq<real>, i: int)
    requires 0 <= i < |s|
    ensures LinearSample(s, i as real + 0.5) == (s[i] + s[(i + 1) % |s|]) / 2.0
  {
    assert (i as real + 0.5).Floor == i;
    assert Fraction(i as real + 0.5) == 0.5;
  }

  /** Chorus's kernel differs from the intended linear read whenever s[i] != 0:
      with s = [1, 1] read at 0 it returns 0 instead of 1. */
  lemma ChorusLinearDropsBase()
    ensures ChorusLinearSample([1.0, 1.0], 0.0) == 0.0
    ensures LinearSample([1.0, 1.0], 0.0) == 1.0
  {
    assert (0.0).Floor == 0;
  }
}
