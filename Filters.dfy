/** The biquad design table of the filter-design tool: second-order IIR
    coefficients for seven filter shapes after the Audio EQ Cookbook formulas,
    normalised so that the leading denominator coefficient is 1.

    The transcendental values the tool takes from numpy (cos and sin of the
    normalised cutoff, 10^(dBgain/40) and its square root) are inputs here,
    constrained by the algebraic facts they satisfy. */
module Filters {

  /** The seven shapes the design table knows. */
  datatype FilterType = LowPass | HighPass | BandPass | Peaking | LowShelf | HighShelf | Notch

  /** The name under which the tool selects each shape. */
  function Name(t: FilterType): string {
    match t
    case LowPass => "Low-pass"
    case HighPass => "High-pass"
    case BandPass => "Band-pass"
    case Peaking => "Peaking"
    case LowShelf => "Low Shelf"
    case HighShelf => "High Shelf"
    case Notch => "Notch"
  }

  datatype Option<T> = None | Some(value: T)

  /** The dispatch of the if/elif chain on the type name: exactly the seven
      names are recognised, compared verbatim. */
  function ParseFilterType(name: string): (r: Option<FilterType>)
    ensures r.Some? ==> Name(r.value) == name
    ensures r.None? ==> forall t: FilterType :: Name(t) != name
  {
    if name == "Low-pass" then Some(LowPass)
    else if name == "High-pass" then Some(HighPass)
    else if name == "Band-pass" then Some(BandPass)
    else if name == "Peaking" then Some(Peaking)
    else if name == "Low Shelf" then Some(LowShelf)
    else if name == "High Shelf" then Some(HighShelf)
    else if name == "Notch" then Some(Notch)
    else None
  }

  /** Every shape is selected by its own name, so Name is injective. */
  lemma ParseName(t: FilterType)
    ensures ParseFilterType(Name(t)) == Some(t)
  {
  }

  /** The inputs of the design, with the transcendental values already
      evaluated: cosW == cos(wc) and sinW == sin(wc) for wc == 2*pi*Fc/fs,
      q the quality factor, gain == A == 10^(dBgain/40), sqrtGain == sqrt(A). */
  datatype DesignInputs = DesignInputs(cosW: real, sinW: real, q: real, gain: real, sqrtGain: real)

  /** What these values satisfy for a cutoff strictly between 0 and the
      Nyquist frequency, a positive quality factor and any dBgain for which
      10^(dBgain/40) is a positive float. */
  predicate Admissible(p: DesignInputs) {
    && p.cosW * p.cosW + p.sinW * p.sinW == 1.0
    && -1.0 <= p.cosW <= 1.0
    && p.sinW > 0.0
    && p.q > 0.0
    && p.gain > 0.0
    && p.sqrtGain > 0.0
    && p.sqrtGain * p.sqrtGain == p.gain
  }

  /** The bandwidth term alpha == sin(wc) / (2*Q), shared by the design tool
      and the board's changeParameters; positive for admissible inputs. */
  function Alpha(sinW: real, q: real): (alpha: real)
    requires q != 0.0
    ensures alpha * 2.0 * q == sinW
    ensures sinW > 0.0 && q > 0.0 ==> alpha > 0.0
  {
    sinW / (2.0 * q)
  }

  /** The six coefficients of one branch before normalisation. */
  datatype Biquad = Biquad(b0: real, b1: real, b2: real, a0: real, a1: real, a2: real)

  /** (A+1) +- (A-1)*cos(wc) is positive for every positive A: it equals
      A*(1 +- c) + (1 -+ c). */
  lemma ShelfTermsPositive(gain: real, c: real)
    requires gain > 0.0 && -1.0 <= c <= 1.0
    ensures (gain + 1.0) + (gain - 1.0) * c > 0.0
    ensures (gain + 1.0) - (gain - 1.0) * c > 0.0
  {
    var m := gain * c;
    assert (gain - 1.0) * c == m - c;
    assert -gain <= m <= gain by {
      if c >= 0.0 {
        assert gain * (1.0 - c) >= 0.0;
        assert gain * (c + 1.0) >= 0.0;
      } else {
        assert gain * (-c) <= gain * 1.0;
      }
    }
    if c == 1.0 {
      assert m == gain;
    } else if c == -1.0 {
      assert m == -gain;
    } else {
      assert gain * (1.0 + c) > 0.0 && gain * (1.0 - c) > 0.0;
      assert gain + m > 0.0 && gain - m > 0.0;
    }
  }

  /** The low-shelf coefficients in A, cos(wc), sqrt(A) and alpha;
      the denominator is positive for every admissible design. */
  function LowShelfBiquad(A: real, c: real, sA: real, alpha: real): (d: Biquad)
    requires A > 0.0 && -1.0 <= c <= 1.0 && sA > 0.0 && alpha > 0.0
    ensures d.a0 > 0.0
  {
    var w := 2.0 * sA * alpha;
    assert w > 0.0;
    ShelfTermsPositive(A, c);
    Biquad(A * ((A + 1.0) - (A - 1.0) * c + w),
           2.0 * A * ((A - 1.0) - (A + 1.0) * c),
           A * ((A + 1.0) - (A - 1.0) * c - w),
           (A + 1.0) + (A - 1.0) * c + w,
           -2.0 * ((A - 1.0) + (A + 1.0) * c),
           (A + 1.0) + (A - 1.0) * c - w)
  }

  /** The high-shelf coefficients, likewise with a positive denominator. */
  function HighShelfBiquad(A: real, c: real, sA: real, alpha: real): (d: Biquad)
    requires A > 0.0 && -1.0 <= c <= 1.0 && sA > 0.0 && alpha > 0.0
    ensures d.a0 > 0.0
  {
    var w := 2.0 * sA * alpha;
    assert w > 0.0;
    ShelfTermsPositive(A, c);
    Biquad(A * ((A + 1.0) + (A - 1.0) * c + w),
           -2.0 * A * ((A - 1.0) + (A + 1.0) * c),
           A * ((A + 1.0) + (A - 1.0) * c - w),
           (A + 1.0) - (A - 1.0) * c + w,
           2.0 * ((A - 1.0) - (A + 1.0) * c),
           (A + 1.0) - (A - 1.0) * c - w)
  }

  /** The per-shape formulas of the if/elif chain. Every branch has a
      positive a0, so the normalisation never divides by zero. */
  function Design(t: FilterType, p: DesignInputs): (d: Biquad)
    requires Admissible(p)
    ensures d.a0 > 0.0
  {
    var c, alpha, A, sA := p.cosW, Alpha(p.sinW, p.q), p.gain, p.sqrtGain;
    assert alpha / A > 0.0;
    match t
    case LowPass =>
      Biquad((1.0 - c) / 2.0, 1.0 - c, (1.0 - c) / 2.0, 1.0 + alpha, -2.0 * c, 1.0 - alpha)
    case HighPass =>
      Biquad((1.0 + c) / 2.0, -(1.0 + c), (1.0 + c) / 2.0, 1.0 + alpha, -2.0 * c, 1.0 - alpha)
    case BandPass =>
      Biquad(alpha, 0.0, -alpha, 1.0 + alpha, -2.0 * c, 1.0 - alpha)
    case Peaking =>
      Biquad(1.0 + alpha * A, -2.0 * c, 1.0 - alpha * A, 1.0 + alpha / A, -2.0 * c, 1.0 - alpha / A)
    case LowShelf => LowShelfBiquad(A, c, sA, alpha)
    case HighShelf => HighShelfBiquad(A, c, sA, alpha)
    case Notch =>
      Biquad(1.0, -2.0 * c, 1.0, 1.0 + alpha, -2.0 * c, 1.0 - alpha)
  }

  /** The two returned lists b and a. */
  datatype Coefficients = Coefficients(b: seq<real>, a: seq<real>)

  /** Division of every coefficient by a0: three numerator and three
      denominator coefficients, a[0] == 1, and multiplying back by a0 gives
      the raw coefficients again, so the transfer function is unchanged. */
  function Normalise(d: Biquad): (k: Coefficients)
    requires d.a0 != 0.0
    ensures |k.b| == 3 && |k.a| == 3
    ensures k.a[0] == 1.0
    ensures k.b[0] * d.a0 == d.b0 && k.b[1] * d.a0 == d.b1 && k.b[2] * d.a0 == d.b2
    ensures k.a[1] * d.a0 == d.a1 && k.a[2] * d.a0 == d.a2
  {
    Coefficients([d.b0 / d.a0, d.b1 / d.a0, d.b2 / d.a0], [1.0, d.a1 / d.a0, d.a2 / d.a0])
  }

  /** The result of get_filter_coefficients: the two lists, or the ValueError
      raised for an unknown type name. */
  datatype Outcome = Ok(coefficients: Coefficients) | ValueError(fType: string)

  /** get_filter_coefficients: once A = 10^(dBgain/40) has been evaluated to
      a positive float, a ValueError exactly when the name is none of the
      seven, whatever the other inputs, otherwise two three-element lists
      with a[0] == 1. */
  function GetFilterCoefficients(fType: string, p: DesignInputs): (r: Outcome)
    requires ParseFilterType(fType).Some? ==> Admissible(p)
    ensures r.ValueError? <==> forall t: FilterType :: Name(t) != fType
    ensures r.ValueError? ==> r.fType == fType
    ensures r.Ok? ==> |r.coefficients.b| == 3 && |r.coefficients.a| == 3 && r.coefficients.a[0] == 1.0
  {
    match ParseFilterType(fType)
    case None => ValueError(fType)
    case Some(t) => Ok(Normalise(Design(t, p)))
  }

  /** The coefficients of a known shape: what GetFilterCoefficients returns
      for that shape's name. */
  function Designed(t: FilterType, p: DesignInputs): (k: Coefficients)
    requires Admissible(p)
    ensures GetFilterCoefficients(Name(t), p) == Ok(k)
  {
    ParseName(t);
    Normalise(Design(t, p))
  }

  /** Response at DC (z == 1) of numerator and denominator. */
  function AtDc(s: seq<real>): real
    requires |s| == 3
  {
    s[0] + s[1] + s[2]
  }

  /** Response at the Nyquist frequency (z == -1). */
  function AtNyquist(s: seq<real>): real
    requires |s| == 3
  {
    s[0] - s[1] + s[2]
  }

  /** The raw numerator sum is gDc times the raw denominator sum at z == 1,
      and gNy times it at z == -1. */
  predicate RawGains(d: Biquad, gDc: real, gNy: real)
  {
    && d.b0 + d.b1 + d.b2 == gDc * (d.a0 + d.a1 + d.a2)
    && d.b0 - d.b1 + d.b2 == gNy * (d.a0 - d.a1 + d.a2)
  }

  /** Division by a0 preserves the relations between responses that hold
      before normalisation. */
  lemma NormalisedResponses(d: Biquad, gDc: real, gNy: real)
    requires d.a0 != 0.0
    requires RawGains(d, gDc, gNy)
    ensures AtDc(Normalise(d).b) == gDc * AtDc(Normalise(d).a)
    ensures AtNyquist(Normalise(d).b) == gNy * AtNyquist(Normalise(d).a)
  {
    var k := Normalise(d);
    assert AtDc(k.b) * d.a0 == d.b0 + d.b1 + d.b2;
    assert AtDc(k.a) * d.a0 == d.a0 + d.a1 + d.a2;
    assert AtNyquist(k.b) * d.a0 == d.b0 - d.b1 + d.b2;
    assert AtNyquist(k.a) * d.a0 == d.a0 - d.a1 + d.a2;
  }

  /** Low-pass: symmetric numerator with b1 == 2*b0, hence a zero at the
      Nyquist frequency and unit gain at DC. */
  lemma LowPassShape(p: DesignInputs)
    requires Admissible(p)
    ensures var k := Designed(LowPass, p);
      && k.b[0] == k.b[2] && k.b[1] == 2.0 * k.b[0]
      && AtNyquist(k.b) == 0.0
      && AtDc(k.b) == AtDc(k.a)
  {
    var d := Design(LowPass, p);
    NormalisedResponses(d, 1.0, 0.0);
  }

  /** High-pass: symmetric numerator with b1 == -2*b0, hence a zero at DC and
      unit gain at the Nyquist frequency. */
  lemma HighPassShape(p: DesignInputs)
    requires Admissible(p)
    ensures var k := Designed(HighPass, p);
      && k.b[0] == k.b[2] && k.b[1] == -2.0 * k.b[0]
      && AtDc(k.b) == 0.0
      && AtNyquist(k.b) == AtNyquist(k.a)
  {
    var d := Design(HighPass, p);
    NormalisedResponses(d, 0.0, 1.0);
  }

  /** Band-pass: b1 == 0 and b2 == -b0, hence zeros at both DC and the
      Nyquist frequency. */
  lemma BandPassShape(p: DesignInputs)
    requires Admissible(p)
    ensures var k := Designed(BandPass, p);
      && k.b[1] == 0.0 && k.b[2] == -k.b[0] && k.b[0] > 0.0
      && AtDc(k.b) == 0.0 && AtNyquist(k.b) == 0.0
  {
    var d := Design(BandPass, p);
    NormalisedResponses(d, 0.0, 0.0);
    assert Designed(BandPass, p).b[0] * d.a0 == Alpha(p.sinW, p.q);
  }

  /** Notch: b0 == b2 (both 1 before normalisation), b1 == a1, unit gain at
      DC and at the Nyquist frequency, and the numerator vanishes at
      z == cos(wc) + i*sin(wc), the cutoff on the unit circle
      (real and imaginary part of b0*z^2 + b1*z + b2). */
  lemma NotchShape(p: DesignInputs)
    requires Admissible(p)
    ensures var d := Design(Notch, p); d.b0 == 1.0 && d.b2 == 1.0
    ensures var k := Designed(Notch, p);
      && k.b[0] == k.b[2] && k.b[1] == k.a[1]
      && AtDc(k.b) == AtDc(k.a) && AtNyquist(k.b) == AtNyquist(k.a)
    ensures var k, c, s := Designed(Notch, p), p.cosW, p.sinW;
      && k.b[0] * (c * c - s * s) + k.b[1] * c + k.b[2] == 0.0
      && k.b[0] * (2.0 * c * s) + k.b[1] * s == 0.0
  {
    var d := Design(Notch, p);
    NormalisedResponses(d, 1.0, 1.0);
    var k, c, s := Designed(Notch, p), p.cosW, p.sinW;
    assert k.b[1] == -2.0 * c * k.b[0];
    assert k.b[2] == k.b[0];
    calc {
      k.b[0] * (c * c - s * s) + k.b[1] * c + k.b[2];
      k.b[0] * (c * c - s * s - 2.0 * c * c + 1.0);
      k.b[0] * (1.0 - (c * c + s * s));
    }
  }

  /** Peaking: unit gain at DC and at the Nyquist frequency, whatever A. */
  lemma PeakingShape(p: DesignInputs)
    requires Admissible(p)
    ensures var k := Designed(Peaking, p);
      && AtDc(k.b) == AtDc(k.a) && AtNyquist(k.b) == AtNyquist(k.a)
  {
    NormalisedResponses(Design(Peaking, p), 1.0, 1.0);
  }

  /** The polynomial identities behind the shelf responses, with
      w == 2*sqrt(A)*alpha left abstract. */
  lemma ShelfSums(A: real, c: real, w: real)
    ensures A * ((A + 1.0) - (A - 1.0) * c + w) + 2.0 * A * ((A - 1.0) - (A + 1.0) * c)
              + A * ((A + 1.0) - (A - 1.0) * c - w) == 4.0 * A * A * (1.0 - c)
    ensures A * ((A + 1.0) - (A - 1.0) * c + w) - 2.0 * A * ((A - 1.0) - (A + 1.0) * c)
              + A * ((A + 1.0) - (A - 1.0) * c - w) == 4.0 * A * (1.0 + c)
    ensures ((A + 1.0) + (A - 1.0) * c + w) + -2.0 * ((A - 1.0) + (A + 1.0) * c)
              + ((A + 1.0) + (A - 1.0) * c - w) == 4.0 * (1.0 - c)
    ensures ((A + 1.0) + (A - 1.0) * c + w) - -2.0 * ((A - 1.0) + (A + 1.0) * c)
              + ((A + 1.0) + (A - 1.0) * c - w) == 4.0 * A * (1.0 + c)
    ensures A * ((A + 1.0) + (A - 1.0) * c + w) + -2.0 * A * ((A - 1.0) + (A + 1.0) * c)
              + A * ((A + 1.0) + (A - 1.0) * c - w) == 4.0 * A * (1.0 - c)
    ensures A * ((A + 1.0) + (A - 1.0) * c + w) - -2.0 * A * ((A - 1.0) + (A + 1.0) * c)
              + A * ((A + 1.0) + (A - 1.0) * c - w) == 4.0 * A * A * (1.0 + c)
    ensures ((A + 1.0) - (A - 1.0) * c + w) + 2.0 * ((A - 1.0) - (A + 1.0) * c)
              + ((A + 1.0) - (A - 1.0) * c - w) == 4.0 * A * (1.0 - c)
    ensures ((A + 1.0) - (A - 1.0) * c + w) - 2.0 * ((A - 1.0) - (A + 1.0) * c)
              + ((A + 1.0) - (A - 1.0) * c - w) == 4.0 * (1.0 + c)
  {
  }

  /** The shelf sums at DC and at the Nyquist frequency. */
  lemma LowShelfSums(A: real, c: real, sA: real, alpha: real)
    requires A > 0.0 && -1.0 <= c <= 1.0 && sA > 0.0 && alpha > 0.0
    ensures RawGains(LowShelfBiquad(A, c, sA, alpha), A * A, 1.0)
  {
    ShelfSums(A, c, 2.0 * sA * alpha);
  }

  lemma HighShelfSums(A: real, c: real, sA: real, alpha: real)
    requires A > 0.0 && -1.0 <= c <= 1.0 && sA > 0.0 && alpha > 0.0
    ensures RawGains(HighShelfBiquad(A, c, sA, alpha), 1.0, A * A)
  {
    ShelfSums(A, c, 2.0 * sA * alpha);
  }

  /** Low shelf: gain A^2 == 10^(dBgain/20) at DC and unit gain at the
      Nyquist frequency. */
  lemma LowShelfShape(p: DesignInputs)
    requires Admissible(p)
    ensures var k := Designed(LowShelf, p);
      && AtDc(k.b) == p.gain * p.gain * AtDc(k.a) && AtNyquist(k.b) == AtNyquist(k.a)
  {
    LowShelfSums(p.gain, p.cosW, p.sqrtGain, Alpha(p.sinW, p.q));
    NormalisedResponses(Design(LowShelf, p), p.gain * p.gain, 1.0);
  }

  /** High shelf: unit gain at DC and gain A^2 at the Nyquist frequency. */
  lemma HighShelfShape(p: DesignInputs)
    requires Admissible(p)
    ensures var k := Designed(HighShelf, p);
      && AtDc(k.b) == AtDc(k.a) && AtNyquist(k.b) == p.gain * p.gain * AtNyquist(k.a)
  {
    HighShelfSums(p.gain, p.cosW, p.sqrtGain, Alpha(p.sinW, p.q));
    NormalisedResponses(Design(HighShelf, p), 1.0, p.gain * p.gain);
  }

  /** The shapes whose formulas do not use the gain. */
  predicate GainFree(t: FilterType) {
    t == LowPass || t == HighPass || t == BandPass || t == Notch
  }

  /** Low-pass, high-pass, band-pass and notch share the denominator
      1 + alpha, -2*cos(wc), 1 - alpha, and their coefficients do not depend
      on dBgain. */
  lemma GainIndependent(t: FilterType, p: DesignInputs, gain: real, sqrtGain: real)
    requires GainFree(t)
    requires Admissible(p) && Admissible(p.(gain := gain, sqrtGain := sqrtGain))
    ensures var d := Design(t, p);
      d.a0 == 1.0 + Alpha(p.sinW, p.q) && d.a1 == -2.0 * p.cosW && d.a2 == 1.0 - Alpha(p.sinW, p.q)
    ensures GetFilterCoefficients(Name(t), p)
         == GetFilterCoefficients(Name(t), p.(gain := gain, sqrtGain := sqrtGain))
  {
    var p' := p.(gain := gain, sqrtGain := sqrtGain);
    assert Alpha(p.sinW, p.q) == Alpha(p'.sinW, p'.q);
    assert Design(t, p) == Design(t, p');
    assert Designed(t, p) == Designed(t, p');
  }

  /** The shapes whose formulas use the gain. */
  predicate Boosting(t: FilterType) {
    t == Peaking || t == LowShelf || t == HighShelf
  }

  /** At 0 dB (A == 1) the peaking and shelving shapes have numerator equal
      to denominator: the identity filter. */
  lemma ZeroDbIsIdentity(t: FilterType, p: DesignInputs)
    requires Boosting(t) && Admissible(p) && p.gain == 1.0
    ensures Designed(t, p).b == Designed(t, p).a
  {
    var d := Design(t, p);
    assert d.b0 == d.a0 && d.b1 == d.a1 && d.b2 == d.a2 by {
      ZeroDbRaw(t, p);
    }
    NumeratorIsDenominator(d);
  }

  /** At A == 1 the three boosting branches have b0 == a0, b1 == a1, b2 == a2. */
  lemma ZeroDbRaw(t: FilterType, p: DesignInputs)
    requires Boosting(t) && Admissible(p) && p.gain == 1.0
    ensures var d := Design(t, p); d.b0 == d.a0 && d.b1 == d.a1 && d.b2 == d.a2
  {
    assert p.sqrtGain == 1.0 by {
      assert (p.sqrtGain - 1.0) * (p.sqrtGain + 1.0) == 0.0;
    }
  }

  /** A biquad whose raw numerator equals its raw denominator normalises to
      b == a. */
  lemma NumeratorIsDenominator(d: Biquad)
    requires d.a0 != 0.0 && d.b0 == d.a0 && d.b1 == d.a1 && d.b2 == d.a2
    ensures Normalise(d).b == Normalise(d).a
  {
    var k := Normalise(d);
    assert k.b == [d.b0 / d.a0, d.b1 / d.a0, d.b2 / d.a0];
    assert k.a == [1.0, d.a1 / d.a0, d.a2 / d.a0];
    assert d.b0 / d.a0 == 1.0;
  }
}
