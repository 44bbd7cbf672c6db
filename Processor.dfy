/** The stereo biquad processor of the Teensy firmware: an audio object that
    keeps a high-pass design (cutoff f, quality factor Q, fixed sample rate)
    and eight delay registers, and filters each incoming block of left and
    right samples in place with the Direct Form I difference equation.

    The filter is specified by a recursive function over the input stream;
    the class's block update is proved to compute it, and block-wise
    processing is proved equal to processing the concatenated stream. */
module Processor {
  import Filters

  /** AUDIO_BLOCK_SAMPLES of the audio library (128 by default). */
  const AudioBlockSamples: nat := 128

  /** 1.0f / ((1 << 16) - 1), the scale from a 16-bit sample value to a
      full-scale real. */
  const ConversionConstAdc: real := 1.0 / 65535.0

  /** (1 << 16) - 1, the scale from a full-scale real back to a sample value. */
  const ConversionConstDac: real := 65535.0

  /** The value of the PI macro of the Arduino core. */
  const Pi: real := 3.1415926535897932384626433832795

  const SampleRate: real := 48000.0
  const DefaultFrequency: real := 1000.0
  const DefaultQ: real := 0.7

  /** The two scale constants are reciprocals. */
  lemma ConversionConstantsReciprocal()
    ensures ConversionConstAdc * ConversionConstDac == 1.0
  {
  }

  /** The five coefficients the difference equation uses (a0 is 1). */
  datatype Coeffs = Coeffs(b0: real, b1: real, b2: real, a1: real, a2: real)

  /** The four delay registers of one channel: d0 == x[n-1], d1 == x[n-2],
      d2 == y[n-1], d3 == y[n-2]. */
  datatype Delay = Delay(d0: real, d1: real, d2: real, d3: real)

  /** The registers as the constructor leaves them. */
  const Silent: Delay := Delay(0.0, 0.0, 0.0, 0.0)

  /** One output sample of the difference equation. From cleared registers
      only the b0 term is left; a unity filter on balanced registers passes
      the sample through. */
  function Output(c: Coeffs, d: Delay, x: real): (y: real)
    ensures d == Silent ==> y == c.b0 * x
    ensures Unity(c) && Balanced(d) ==> y == x
  {
    c.b0 * x + c.b1 * d.d0 + c.b2 * d.d1 - c.a1 * d.d2 - c.a2 * d.d3
  }

  /** The register shift after one sample: d1 := d0, d0 := in, d3 := d2, d2 := out. */
  function Shift(d: Delay, x: real, y: real): (r: Delay)
    ensures r.d0 == x && r.d2 == y
    ensures r.d1 == d.d0 && r.d3 == d.d2
    ensures x == y && Balanced(d) ==> Balanced(r)
  {
    Delay(x, d.d0, y, d.d2)
  }

  /** The outputs of one channel for the input stream xs, starting from the
      registers d. */
  function Filter(c: Coeffs, d: Delay, xs: seq<real>): (ys: seq<real>)
    ensures |ys| == |xs|
    decreases |xs|
  {
    if xs == [] then []
    else
      var y := Output(c, d, xs[0]);
      [y] + Filter(c, Shift(d, xs[0], y), xs[1..])
  }

  /** The registers of one channel after the input stream xs: d0 holds the
      last input and d1 the one before it, or the old d0 after one sample. */
  function After(c: Coeffs, d: Delay, xs: seq<real>): (r: Delay)
    ensures xs != [] ==> r.d0 == xs[|xs| - 1]
    ensures |xs| >= 2 ==> r.d1 == xs[|xs| - 2]
    ensures |xs| == 1 ==> r.d1 == d.d0
    decreases |xs|
  {
    if xs == [] then d
    else After(c, Shift(d, xs[0], Output(c, d, xs[0])), xs[1..])
  }

  /** Filtering is a stream transformation: filtering xs + ys equals
      filtering xs and then ys from the registers xs leaves behind. */
  lemma {:induction false} FilterAppend(c: Coeffs, d: Delay, xs: seq<real>, ys: seq<real>)
    ensures Filter(c, d, xs + ys) == Filter(c, d, xs) + Filter(c, After(c, d, xs), ys)
    ensures After(c, d, xs + ys) == After(c, After(c, d, xs), ys)
    decreases |xs|
  {
    if xs == [] {
      assert xs + ys == ys;
    } else {
      var y := Output(c, d, xs[0]);
      assert (xs + ys)[0] == xs[0];
      assert (xs + ys)[1..] == xs[1..] + ys;
      FilterAppend(c, Shift(d, xs[0], y), xs[1..], ys);
    }
  }

  /** s[k] for 0 <= k < |s|; the two samples before the start, s[-1] and
      s[-2], are prev1 and prev2. */
  function Back(s: seq<real>, prev1: real, prev2: real, k: int): real
    requires -2 <= k < |s|
  {
    if k >= 0 then s[k] else if k == -1 then prev1 else prev2
  }

  /** After a stream, d0/d1 hold its last two inputs and d2/d3 its last two
      outputs (falling back on the initial registers for short streams). */
  lemma {:induction false} AfterHoldsLastSamples(c: Coeffs, d: Delay, xs: seq<real>)
    ensures var ys, n := Filter(c, d, xs), |xs|;
      After(c, d, xs) == Delay(Back(xs, d.d0, d.d1, n - 1), Back(xs, d.d0, d.d1, n - 2),
                               Back(ys, d.d2, d.d3, n - 1), Back(ys, d.d2, d.d3, n - 2))
    decreases |xs|
  {
    var n := |xs|;
    if n > 0 {
      var p, x := xs[..n - 1], xs[n - 1];
      assert xs == p + [x];
      FilterAppend(c, d, p, [x]);
      AfterHoldsLastSamples(c, d, p);
      var e := After(c, d, p);
      assert [x][1..] == [];
      assert After(c, e, [x]) == Shift(e, x, Output(c, e, x));
      assert Filter(c, e, [x]) == [Output(c, e, x)];
      var fp := Filter(c, d, p);
      var ys := Filter(c, d, xs);
      assert ys == fp + [Output(c, e, x)];
      assert n - 2 >= 0 ==> xs[n - 2] == p[n - 2] && ys[n - 2] == fp[n - 2];
    }
  }

  /** The recurrence y = b0*x + b1*x1 + b2*x2 - a1*y1 - a2*y2 between an
      output y, its input x, the two previous inputs x1, x2 and the two
      previous outputs y1, y2. */
  predicate Recurrence(c: Coeffs, x: real, x1: real, x2: real, y1: real, y2: real, y: real) {
    y == c.b0 * x + c.b1 * x1 + c.b2 * x2 - c.a1 * y1 - c.a2 * y2
  }

  /** Each output sample satisfies
      y[n] = b0*x[n] + b1*x[n-1] + b2*x[n-2] - a1*y[n-1] - a2*y[n-2],
      the samples before the stream being taken from the registers. */
  lemma DifferenceEquation(c: Coeffs, d: Delay, xs: seq<real>, n: nat)
    requires n < |xs|
    ensures var ys := Filter(c, d, xs);
      Recurrence(c, xs[n], Back(xs, d.d0, d.d1, n - 1), Back(xs, d.d0, d.d1, n - 2),
                 Back(ys, d.d2, d.d3, n - 1), Back(ys, d.d2, d.d3, n - 2), ys[n])
  {
    var ys := Filter(c, d, xs);
    var x1, x2 := Back(xs, d.d0, d.d1, n - 1), Back(xs, d.d0, d.d1, n - 2);
    var y1, y2 := Back(ys, d.d2, d.d3, n - 1), Back(ys, d.d2, d.d3, n - 2);
    assert ys[n] == Output(c, Delay(x1, x2, y1, y2), xs[n]) by {
      StepFromHistory(c, d, xs, n);
    }
    OutputIsRecurrence(c, xs[n], x1, x2, y1, y2, ys[n]);
  }

  /** Output, with its registers named, is the recurrence. */
  lemma OutputIsRecurrence(c: Coeffs, x: real, x1: real, x2: real, y1: real, y2: real, y: real)
    requires y == Output(c, Delay(x1, x2, y1, y2), x)
    ensures Recurrence(c, x, x1, x2, y1, y2, y)
  {
  }

  /** The n-th output is one step of the filter from the registers holding
      the two previous inputs and outputs. */
  lemma {:induction false} StepFromHistory(c: Coeffs, d: Delay, xs: seq<real>, n: nat)
    requires n < |xs|
    ensures var ys := Filter(c, d, xs);
      ys[n] == Output(c, Delay(Back(xs, d.d0, d.d1, n - 1), Back(xs, d.d0, d.d1, n - 2),
                               Back(ys, d.d2, d.d3, n - 1), Back(ys, d.d2, d.d3, n - 2)), xs[n])
  {
    var p, rest := xs[..n], xs[n..];
    var ys, fp := Filter(c, d, xs), Filter(c, d, p);
    var e := After(c, d, p);
    assert ys[n] == Output(c, e, xs[n]) && ys[..n] == fp by {
      assert xs == p + rest;
      FilterAppend(c, d, p, rest);
    }
    assert e == Delay(Back(xs, d.d0, d.d1, n - 1), Back(xs, d.d0, d.d1, n - 2),
                      Back(ys, d.d2, d.d3, n - 1), Back(ys, d.d2, d.d3, n - 2)) by {
      AfterHoldsLastSamples(c, d, p);
      assert Back(xs, d.d0, d.d1, n - 1) == Back(p, d.d0, d.d1, n - 1);
      assert Back(xs, d.d0, d.d1, n - 2) == Back(p, d.d0, d.d1, n - 2);
      assert Back(ys, d.d2, d.d3, n - 1) == Back(fp, d.d2, d.d3, n - 1);
      assert Back(ys, d.d2, d.d3, n - 2) == Back(fp, d.d2, d.d3, n - 2);
    }
  }

  /** Coefficients whose numerator equals the denominator (b0 == 1,
      b1 == a1, b2 == a2). */
  predicate Unity(c: Coeffs) {
    c.b0 == 1.0 && c.b1 == c.a1 && c.b2 == c.a2
  }

  /** Registers whose input history equals their output history, such as
      the cleared ones. */
  predicate Balanced(d: Delay) {
    d.d0 == d.d2 && d.d1 == d.d3
  }

  /** A unity filter started from balanced registers passes its input
      through unchanged. */
  lemma {:induction false} UnityPassesThrough(c: Coeffs, d: Delay, xs: seq<real>)
    requires Unity(c) && Balanced(d)
    ensures Filter(c, d, xs) == xs
    ensures Balanced(After(c, d, xs))
    decreases |xs|
  {
    if xs != [] {
      assert Output(c, d, xs[0]) == xs[0];
      UnityPassesThrough(c, Shift(d, xs[0], xs[0]), xs[1..]);
      assert xs == [xs[0]] + xs[1..];
    }
  }

  /** C++'s float-to-integer conversion: truncation toward zero. */
  function TruncateTowardZero(r: real): (t: int)
    ensures r >= 0.0 ==> t as real <= r < t as real + 1.0
    ensures r < 0.0 ==> t as real - 1.0 < r <= t as real
  {
    if r >= 0.0 then r.Floor else -((-r).Floor)
  }

  /** A block sample scaled to a real input; scaling it back by the DAC
      constant gives the sample again. */
  function FromAdc(v: int): (x: real)
    ensures x * ConversionConstDac == v as real
  {
    v as real * ConversionConstAdc
  }

  /** A real output scaled back to a block sample: the scaled value
      truncated toward zero. */
  function ToDac(y: real): (v: int)
    ensures y >= 0.0 ==> v as real <= y * ConversionConstDac < v as real + 1.0
    ensures y < 0.0 ==> v as real - 1.0 < y * ConversionConstDac <= v as real
  {
    TruncateTowardZero(y * ConversionConstDac)
  }

  /** A sample survives the scaling in and out unchanged. */
  lemma AdcDacRoundTrip(v: int)
    ensures ToDac(FromAdc(v)) == v
  {
    ConversionConstantsReciprocal();
    assert FromAdc(v) * ConversionConstDac == v as real;
  }

  function AdcBlock(data: seq<int>): seq<real> {
    seq(|data|, i requires 0 <= i < |data| => FromAdc(data[i]))
  }

  function DacBlock(ys: seq<real>): seq<int> {
    seq(|ys|, i requires 0 <= i < |ys| => ToDac(ys[i]))
  }

  /** Scaling in distributes over concatenation. */
  lemma AdcBlockAppend(b1: seq<int>, b2: seq<int>)
    ensures AdcBlock(b1 + b2) == AdcBlock(b1) + AdcBlock(b2)
  {
    assert forall k | 0 <= k < |b1 + b2| :: AdcBlock(b1 + b2)[k] == (AdcBlock(b1) + AdcBlock(b2))[k];
  }

  /** Scaling out distributes over concatenation. */
  lemma DacBlockAppend(u: seq<real>, v: seq<real>)
    ensures DacBlock(u + v) == DacBlock(u) + DacBlock(v)
  {
    assert forall k | 0 <= k < |u + v| :: DacBlock(u + v)[k] == (DacBlock(u) + DacBlock(v))[k];
  }

  /** One channel of one block: samples scaled in, filtered, scaled out. */
  function ProcessBlock(c: Coeffs, d: Delay, data: seq<int>): (out: seq<int>)
    ensures |out| == |data|
    ensures data != [] ==> out[0] == ToDac(Output(c, d, FromAdc(data[0])))
  {
    DacBlock(Filter(c, d, AdcBlock(data)))
  }

  /** The registers of one channel after one block: d0 and d1 hold its last
      two samples scaled in. */
  function BlockAfter(c: Coeffs, d: Delay, data: seq<int>): (r: Delay)
    ensures data != [] ==> r.d0 == FromAdc(data[|data| - 1])
    ensures |data| >= 2 ==> r.d1 == FromAdc(data[|data| - 2])
  {
    After(c, d, AdcBlock(data))
  }

  /** Processing block b1 and then block b2 with the registers b1 left
      behind gives the same samples and registers as processing b1 + b2. */
  lemma BlocksFormOneStream(c: Coeffs, d: Delay, b1: seq<int>, b2: seq<int>)
    ensures ProcessBlock(c, d, b1 + b2) == ProcessBlock(c, d, b1) + ProcessBlock(c, BlockAfter(c, d, b1), b2)
    ensures BlockAfter(c, d, b1 + b2) == BlockAfter(c, BlockAfter(c, d, b1), b2)
  {
    AdcBlockAppend(b1, b2);
    FilterAppend(c, d, AdcBlock(b1), AdcBlock(b2));
    DacBlockAppend(Filter(c, d, AdcBlock(b1)), Filter(c, After(c, d, AdcBlock(b1)), AdcBlock(b2)));
  }

  /** A unity filter from balanced registers leaves a block unchanged. */
  lemma UnityBlockUnchanged(c: Coeffs, d: Delay, data: seq<int>)
    requires Unity(c) && Balanced(d)
    ensures ProcessBlock(c, d, data) == data
  {
    UnityPassesThrough(c, d, AdcBlock(data));
    forall i | 0 <= i < |data|
      ensures ProcessBlock(c, d, data)[i] == data[i]
    {
      AdcDacRoundTrip(data[i]);
    }
  }

  /** The five numbers the design tool sends to the board: b followed by a
      without its leading 1. */
  function CoeffsOf(k: Filters.Coefficients): (c: Coeffs)
    requires |k.b| == 3 && |k.a| == 3
    ensures [c.b0, c.b1, c.b2, c.a1, c.a2] == k.b + k.a[1..]
  {
    Coeffs(k.b[0], k.b[1], k.b[2], k.a[1], k.a[2])
  }

  /** The coefficients a peaking or shelving design at 0 dB sends to the
      board, applied from cleared registers, leave every block unchanged. */
  lemma ZeroDbDesignLeavesAudioUnchanged(t: Filters.FilterType, p: Filters.DesignInputs, data: seq<int>)
    requires Filters.Boosting(t) && Filters.Admissible(p) && p.gain == 1.0
    ensures ProcessBlock(CoeffsOf(Filters.Designed(t, p)), Silent, data) == data
  {
    var k := Filters.Designed(t, p);
    Filters.ZeroDbIsIdentity(t, p);
    assert Unity(CoeffsOf(k));
    UnityBlockUnchanged(CoeffsOf(k), Silent, data);
  }

  /** What changeParameters needs to divide: Q != 0 and 1 + alpha != 0. */
  predicate Designable(sinW: real, q: real) {
    q != 0.0 && 1.0 + Filters.Alpha(sinW, q) != 0.0
  }

  /** changeParameters' high-pass coefficients for cos(wc), sin(wc) and Q:
      a symmetric numerator with b1 == -2*b0, hence a zero at DC, and unit
      gain at the Nyquist frequency. */
  function HighPassCoeffs(cosW: real, sinW: real, q: real): (c: Coeffs)
    requires Designable(sinW, q)
    ensures c.b0 == c.b2 && c.b1 == -2.0 * c.b0
    ensures c.b0 + c.b1 + c.b2 == 0.0
    ensures c.b0 - c.b1 + c.b2 == 1.0 - c.a1 + c.a2
  {
    var alpha := Filters.Alpha(sinW, q);
    var e := 1.0 + alpha;
    assert (1.0 + cosW) / (2.0 + 2.0 * alpha) * 2.0 == (1.0 + cosW) / e;
    assert 1.0 == e / e;
    Coeffs((1.0 + cosW) / (2.0 + 2.0 * alpha),
           -(1.0 + cosW) / (1.0 + alpha),
           (1.0 + cosW) / (2.0 + 2.0 * alpha),
           -2.0 * cosW / (1.0 + alpha),
           (1.0 - alpha) / (1.0 + alpha))
  }

  /** changeParameters computes exactly the normalised High-pass branch of
      the design tool for the same cutoff, Q and sample rate. */
  lemma HighPassMatchesDesignTable(p: Filters.DesignInputs)
    requires Filters.Admissible(p)
    ensures Designable(p.sinW, p.q)
    ensures HighPassCoeffs(p.cosW, p.sinW, p.q) == CoeffsOf(Filters.Designed(Filters.HighPass, p))
  {
    var alpha := Filters.Alpha(p.sinW, p.q);
    var k := Filters.Designed(Filters.HighPass, p);
    var h := HighPassCoeffs(p.cosW, p.sinW, p.q);
    assert k.b[0] == ((1.0 + p.cosW) / 2.0) / (1.0 + alpha);
    assert h.b0 == k.b[0];
    assert h.b1 == k.b[1];
    assert h.a1 == k.a[1];
    assert h.a2 == k.a[2];
  }

  /** The normalised cutoff wc == 2*PI*f/fs; a cutoff strictly between 0
      and the Nyquist frequency lies strictly between 0 and PI. */
  function Cutoff(f: real, fs: real): (wc: real)
    requires fs != 0.0
    ensures wc * fs == 2.0 * Pi * f
    ensures fs > 0.0 && 0.0 < f < fs / 2.0 ==> 0.0 < wc < Pi
  {
    2.0 * Pi * f / fs
  }

  class AudioProcessor {
    /** The sine and cosine of the math library, which the model takes as given. */
    const cos: real -> real
    const sin: real -> real

    const fs: real := SampleRate
    var f: real
    var q: real
    var alpha: real
    var wc: real

    var b0: real, b1: real, b2: real, a1: real, a2: real

    var dL0: real, dL1: real, dL2: real, dL3: real
    var dR0: real, dR1: real, dR2: real, dR3: real

    function CurrentCoeffs(): Coeffs
      reads this`b0, this`b1, this`b2, this`a1, this`a2
    {
      Coeffs(b0, b1, b2, a1, a2)
    }

    function Left(): Delay
      reads this`dL0, this`dL1, this`dL2, this`dL3
    {
      Delay(dL0, dL1, dL2, dL3)
    }

    function Right(): Delay
      reads this`dR0, this`dR1, this`dR2, this`dR3
    {
      Delay(dR0, dR1, dR2, dR3)
    }

    /** The coefficients are those of the high-pass design for the current
        f and Q; such coefficients have a symmetric numerator with b1 == -2*b0. */
    ghost predicate Valid()
      reads this`f, this`q, this`wc, this`alpha, this`b0, this`b1, this`b2, this`a1, this`a2
      ensures Valid() ==> b0 == b2 && b1 == -2.0 * b0
    {
      && wc == Cutoff(f, fs)
      && Designable(sin(wc), q)
      && alpha == Filters.Alpha(sin(wc), q)
      && CurrentCoeffs() == HighPassCoeffs(cos(wc), sin(wc), q)
    }

    /** The defaults f == 1000, Q == 0.7, fs == 48000, cleared registers, and
        the coefficients computed from the defaults. */
    constructor (cos: real -> real, sin: real -> real)
      requires Designable(sin(Cutoff(DefaultFrequency, SampleRate)), DefaultQ)
      ensures Valid()
      ensures this.cos == cos && this.sin == sin
      ensures f == DefaultFrequency && q == DefaultQ
      ensures Left() == Silent && Right() == Silent
    {
      this.cos := cos;
      this.sin := sin;
      f := DefaultFrequency;
      q := DefaultQ;
      dL0, dL1, dL2, dL3 := 0.0, 0.0, 0.0, 0.0;
      dR0, dR1, dR2, dR3 := 0.0, 0.0, 0.0, 0.0;
      new;
      ChangeParameters();
    }

    /** changeParameters: recompute wc, alpha and the coefficients from f and
        Q; nothing else changes. */
    method ChangeParameters()
      requires Designable(sin(Cutoff(f, fs)), q)
      modifies this`wc, this`alpha, this`b0, this`b1, this`b2, this`a1, this`a2
      ensures Valid()
      ensures f == old(f) && q == old(q)
    {
      wc := 2.0 * Pi * f / fs;
      alpha := Filters.Alpha(sin(wc), q);
      b0 := (1.0 + cos(wc)) / (2.0 + 2.0 * alpha);
      b1 := -(1.0 + cos(wc)) / (1.0 + alpha);
      b2 := (1.0 + cos(wc)) / (2.0 + 2.0 * alpha);
      a1 := -2.0 * cos(wc) / (1.0 + alpha);
      a2 := (1.0 - alpha) / (1.0 + alpha);
    }

    /** changeFrequency: set f and recompute; Q and the registers are kept. */
    method ChangeFrequency(newF: real)
      requires Designable(sin(Cutoff(newF, fs)), q)
      modifies this`f, this`wc, this`alpha, this`b0, this`b1, this`b2, this`a1, this`a2
      ensures Valid()
      ensures f == newF && q == old(q)
      ensures Left() == old(Left()) && Right() == old(Right())
    {
      f := newF;
      ChangeParameters();
    }

    /** changeQ: set Q and recompute; f and the registers are kept. */
    method ChangeQ(newQ: real)
      requires Designable(sin(Cutoff(f, fs)), newQ)
      modifies this`q, this`wc, this`alpha, this`b0, this`b1, this`b2, this`a1, this`a2
      ensures Valid()
      ensures q == newQ && f == old(f)
      ensures Left() == old(Left()) && Right() == old(Right())
    {
      q := newQ;
      ChangeParameters();
    }

    /** The body of update's loop for sample i: each channel's sample is
        scaled in, run through the difference equation, scaled out and
        written back, and the channel's registers shift. */
    method FilterSample(blockL: array<int>, blockR: array<int>, i: nat)
      requires blockL != blockR && i < blockL.Length && i < blockR.Length
      modifies this`dL0, this`dL1, this`dL2, this`dL3, this`dR0, this`dR1, this`dR2, this`dR3
      modifies blockL, blockR
      ensures var x := FromAdc(old(blockL[i])); var y := Output(CurrentCoeffs(), old(Left()), x);
        Left() == Shift(old(Left()), x, y) && blockL[..] == old(blockL[..])[i := ToDac(y)]
      ensures var x := FromAdc(old(blockR[i])); var y := Output(CurrentCoeffs(), old(Right()), x);
        Right() == Shift(old(Right()), x, y) && blockR[..] == old(blockR[..])[i := ToDac(y)]
    {
      var inL := blockL[i] as real * ConversionConstAdc;
      var inR := blockR[i] as real * ConversionConstAdc;

      var outL := Output(CurrentCoeffs(), Left(), inL);
      var outR := Output(CurrentCoeffs(), Right(), inR);

      dL1 := dL0;
      dL0 := inL;
      dL3 := dL2;
      dL2 := outL;

      dR1 := dR0;
      dR0 := inR;
      dR3 := dR2;
      dR2 := outR;

      blockL[i] := TruncateTowardZero(outL * ConversionConstDac);
      blockR[i] := TruncateTowardZero(outR * ConversionConstDac);
    }

    /** update: blockL and blockR are what receiveWritable gave for inputs 0
        and 1, null when no block was available. Without both blocks nothing
        changes; otherwise each block is replaced in place by its channel's
        filtered samples, each channel's registers advance over its own
        block only, and the design is untouched. */
    method Update(blockL: array?<int>, blockR: array?<int>) returns (transmitted: bool)
      requires blockL != null && blockR != null ==>
        blockL != blockR && blockL.Length == AudioBlockSamples && blockR.Length == AudioBlockSamples
      modifies this`dL0, this`dL1, this`dL2, this`dL3, this`dR0, this`dR1, this`dR2, this`dR3
      modifies blockL, blockR
      ensures transmitted <==> blockL != null && blockR != null
      ensures CurrentCoeffs() == old(CurrentCoeffs())
      ensures !transmitted ==>
        unchanged(this) && (blockL != null ==> unchanged(blockL)) && (blockR != null ==> unchanged(blockR))
      ensures transmitted ==>
        && blockL[..] == ProcessBlock(CurrentCoeffs(), old(Left()), old(blockL[..]))
        && blockR[..] == ProcessBlock(CurrentCoeffs(), old(Right()), old(blockR[..]))
        && Left() == BlockAfter(CurrentCoeffs(), old(Left()), old(blockL[..]))
        && Right() == BlockAfter(CurrentCoeffs(), old(Right()), old(blockR[..]))
    {
      if blockL == null {
        return false;
      }
      if blockR == null {
        return false;
      }
      ghost var c, l, r := CurrentCoeffs(), Left(), Right();
      ghost var oldL, oldR := blockL[..], blockR[..];
      ghost var ysL, rsL := TraceOf(c, l, AdcBlock(oldL));
      ghost var ysR, rsR := TraceOf(c, r, AdcBlock(oldR));
      var i := 0;
      while i < AudioBlockSamples
        invariant 0 <= i <= AudioBlockSamples
        invariant CurrentCoeffs() == c
        invariant ChannelProgress(oldL, blockL[..], ysL, rsL, Left(), i)
        invariant ChannelProgress(oldR, blockR[..], ysR, rsR, Right(), i)
      {
        ghost var nowL, nowR := blockL[..], blockR[..];
        FilterSample(blockL, blockR, i);
        ChannelStep(c, l, AdcBlock(oldL), oldL, nowL, ysL, rsL, i, blockL[..], Left());
        ChannelStep(c, r, AdcBlock(oldR), oldR, nowR, ysR, rsR, i, blockR[..], Right());
        i := i + 1;
      }
      TraceIsFilter(c, l, AdcBlock(oldL), ysL, rsL);
      TraceIsFilter(c, r, AdcBlock(oldR), ysR, rsR);
      return true;
    }
  }

  /** The outputs ys and the register states rs of one channel along the
      stream xs: rs[k] holds the registers before sample k, ys[k] is the
      difference equation on them and rs[k + 1] their shift. */
  ghost predicate Trace(c: Coeffs, d: Delay, xs: seq<real>, ys: seq<real>, rs: seq<Delay>)
  {
    && |ys| == |xs| && |rs| == |xs| + 1 && rs[0] == d
    && forall k {:trigger ys[k]} :: 0 <= k < |xs| ==>
         ys[k] == Output(c, rs[k], xs[k]) && rs[k + 1] == Shift(rs[k], xs[k], ys[k])
  }

  /** Every stream has a trace. */
  lemma {:induction false} TraceOf(c: Coeffs, d: Delay, xs: seq<real>) returns (ys: seq<real>, rs: seq<Delay>)
    ensures Trace(c, d, xs, ys, rs)
    decreases |xs|
  {
    if xs == [] {
      ys, rs := [], [d];
    } else {
      var y := Output(c, d, xs[0]);
      var ys', rs' := TraceOf(c, Shift(d, xs[0], y), xs[1..]);
      ys, rs := [y] + ys', [d] + rs';
      forall k | 0 <= k < |xs|
        ensures ys[k] == Output(c, rs[k], xs[k]) && rs[k + 1] == Shift(rs[k], xs[k], ys[k])
      {
        if k > 0 {
          assert ys[k] == ys'[k - 1] && rs[k] == rs'[k - 1] && rs[k + 1] == rs'[k] && xs[k] == xs[1..][k - 1];
        }
      }
    }
  }

  /** A trace is the filter: its outputs are Filter's and its last state is
      After's. */
  lemma {:induction false} TraceIsFilter(c: Coeffs, d: Delay, xs: seq<real>, ys: seq<real>, rs: seq<Delay>)
    requires Trace(c, d, xs, ys, rs)
    ensures ys == Filter(c, d, xs) && rs[|xs|] == After(c, d, xs)
    decreases |xs|
  {
    if xs != [] {
      var ys', rs' := ys[1..], rs[1..];
      forall k | 0 <= k < |xs| - 1
        ensures ys'[k] == Output(c, rs'[k], xs[1..][k]) && rs'[k + 1] == Shift(rs'[k], xs[1..][k], ys'[k])
      {
        assert ys'[k] == ys[k + 1] && rs'[k] == rs[k + 1] && rs'[k + 1] == rs[k + 2];
      }
      TraceIsFilter(c, rs[1], xs[1..], ys', rs');
      assert ys == [ys[0]] + ys';
    }
  }

  /** The loop of update after i samples of one channel: the first i samples
      of the block are the trace's outputs scaled out, the rest of the block
      is untouched, and the registers are the trace's i-th state. */
  ghost predicate ChannelProgress(orig: seq<int>, now: seq<int>, ys: seq<real>, rs: seq<Delay>,
                                  regs: Delay, i: nat)
  {
    && i <= |orig| == |now| == |ys| && |rs| == |orig| + 1
    && regs == rs[i]
    && (forall k :: 0 <= k < i ==> now[k] == ToDac(ys[k]))
    && (forall k :: i <= k < |orig| ==> now[k] == orig[k])
  }

  /** One iteration of update's loop for one channel: writing the i-th
      output scaled out into the block and shifting the registers keeps the
      loop's progress. */
  lemma ChannelStep(c: Coeffs, d: Delay, xs: seq<real>, orig: seq<int>, now: seq<int>,
                    ys: seq<real>, rs: seq<Delay>, i: nat, now': seq<int>, regs': Delay)
    requires Trace(c, d, xs, ys, rs) && xs == AdcBlock(orig) && i < |orig|
    requires ChannelProgress(orig, now, ys, rs, rs[i], i)
    requires var x := FromAdc(now[i]); var y := Output(c, rs[i], x);
      now' == now[i := ToDac(y)] && regs' == Shift(rs[i], x, y)
    ensures ChannelProgress(orig, now', ys, rs, regs', i + 1)
  {
    assert now[i] == orig[i] && xs[i] == FromAdc(orig[i]);
    assert ys[i] == Output(c, rs[i], xs[i]) && rs[i + 1] == Shift(rs[i], xs[i], ys[i]);
  }

  /** Two successive updates of a processor process the two left blocks and
      the two right blocks as one continuous stream per channel. */
  method UpdateTwice(p: AudioProcessor, l1: array<int>, r1: array<int>, l2: array<int>, r2: array<int>)
    requires l1.Length == r1.Length == l2.Length == r2.Length == AudioBlockSamples
    requires l1 != r1 && l1 != l2 && l1 != r2 && r1 != l2 && r1 != r2 && l2 != r2
    modifies p`dL0, p`dL1, p`dL2, p`dL3, p`dR0, p`dR1, p`dR2, p`dR3
    modifies l1, r1, l2, r2
    ensures p.f == old(p.f) && p.q == old(p.q) && p.wc == old(p.wc) && p.alpha == old(p.alpha)
    ensures p.CurrentCoeffs() == old(p.CurrentCoeffs())
    ensures old(p.Valid()) ==> p.Valid()
    ensures l1[..] + l2[..] == ProcessBlock(p.CurrentCoeffs(), old(p.Left()), old(l1[..]) + old(l2[..]))
    ensures r1[..] + r2[..] == ProcessBlock(p.CurrentCoeffs(), old(p.Right()), old(r1[..]) + old(r2[..]))
    ensures p.Left() == BlockAfter(p.CurrentCoeffs(), old(p.Left()), old(l1[..]) + old(l2[..]))
    ensures p.Right() == BlockAfter(p.CurrentCoeffs(), old(p.Right()), old(r1[..]) + old(r2[..]))
  {
    ghost var f, q, wc, alpha := p.f, p.q, p.wc, p.alpha;
    var ok1 := p.Update(l1, r1);
    var ok2 := p.Update(l2, r2);
    assert p.f == f && p.q == q && p.wc == wc && p.alpha == alpha;
    BlocksFormOneStream(p.CurrentCoeffs(), old(p.Left()), old(l1[..]), old(l2[..]));
    BlocksFormOneStream(p.CurrentCoeffs(), old(p.Right()), old(r1[..]), old(r2[..]));
  }
}
