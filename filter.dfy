/** The spectral filter stage (src/filter.py): filters that rescale the bins
    of a Fourier spectrum in place, each bin by a weight that depends only on
    the absolute frequency of that bin, and `apply_filter`, which transforms a
    block of samples, runs a list of filters over the one spectrum in list
    order and transforms back. */
module Filters {
  import opened Wrappers
  import opened Numerics
  import opened Utils

  /** The filter classes of src/filter.py. A `Peak` value is only ever made
      by `NewPeakFilter`, which enforces its band ordering. */
  datatype Filter =
    | Peak(lowerTarget: real, lowerSmooth: real, higherSmooth: real, higherTarget: real, gain: real)
    | LowPass(passFreq: real, cutoff: real)
    | HighPass(passFreq: real, cutoff: real)
    | BandPass(target: real, smooth: real)
  {
    /** The band ordering checked by the `PeakFilter` constructor. */
    predicate BandOrdered()
      requires Peak?
    {
      higherTarget >= higherSmooth && higherSmooth >= lowerSmooth && lowerSmooth >= lowerTarget
    }

    /** What `apply` needs in order to run without a Python division by zero:
        a peak filter as its constructor admits it, a low- or high-pass filter
        whose ramp `[passFreq, cutoff]` is not empty. */
    predicate WellFormed()
    {
      match this
      case Peak(_, _, _, _, _) => BandOrdered()
      case LowPass(p, c) => c != p
      case HighPass(p, c) => c != p
      case BandPass(_, _) => true
    }

    /** `apply(fourier, frequencies)`: the size check of the base class, then
        the per-bin loop of the subclass; `BandPassFilter.apply` raises after
        the size check. `ok == false` stands for the exception, which is
        raised before any bin is touched. */
    method Apply(fourier: array<Complex>, frequencies: seq<real>) returns (ok: bool)
      requires WellFormed()
      modifies fourier
      ensures ok == Filtered(this, old(fourier[..]), frequencies).Some?
      ensures ok ==> fourier[..] == Filtered(this, old(fourier[..]), frequencies).value
      ensures !ok ==> fourier[..] == old(fourier[..])
    {
      if fourier.Length != |frequencies| {
        return false;
      }
      if BandPass? {
        return false;
      }
      var i := 0;
      while i < fourier.Length
        invariant 0 <= i <= fourier.Length
        invariant forall k :: 0 <= k < i ==> fourier[k] == FilteredBin(this, old(fourier[k]), frequencies[k])
        invariant forall k :: i <= k < fourier.Length ==> fourier[k] == old(fourier[k])
      {
        fourier[i] := BinAfter(fourier[i], frequencies[i]);
        i := i + 1;
      }
      assert fourier[..] == Filtered(this, old(fourier[..]), frequencies).value;
      ok := true;
    }

    /** The body of the `apply` loops for one bin, dispatched on the kind of
        filter as the subclasses do. */
    method BinAfter(bin: Complex, frequency: real) returns (r: Complex)
      requires WellFormed() && !BandPass?
      ensures r == FilteredBin(this, bin, frequency)
    {
      match this {
        case Peak(_, _, _, _, _) => r := PeakBin(bin, frequency);
        case LowPass(_, _) => r := LowPassBin(bin, frequency);
        case HighPass(_, _) => r := HighPassBin(bin, frequency);
      }
    }

    /** `PeakFilter.apply` for one bin: add the bin scaled by the gain and
        the band weight. */
    method PeakBin(bin: Complex, frequency: real) returns (r: Complex)
      requires Peak? && BandOrdered()
      ensures r == bin.Plus(bin.Scale(gain).Scale(PeakWeight(this, frequency)))
    {
      var binFrequency := Abs(frequency);
      var distanceFromTarget := 1.0;
      if binFrequency <= lowerSmooth {
        distanceFromTarget := (binFrequency - lowerTarget) / ((lowerSmooth - lowerTarget) + 0.0001);
      } else if binFrequency >= higherSmooth {
        distanceFromTarget := (higherTarget - binFrequency) / ((higherTarget - higherSmooth) + 0.0001);
      }
      var smoothedDistance := SmoothLerp(distanceFromTarget, 0.0, 1.0);
      r := bin.Plus(bin.Scale(gain).Scale(smoothedDistance));
    }

    /** `LowPassFilter.apply` for one bin: bins above `passFreq` are scaled
        down towards `cutoff`. */
    method LowPassBin(bin: Complex, frequency: real) returns (r: Complex)
      requires LowPass? && WellFormed()
      ensures Abs(frequency) > passFreq ==> r == bin.Scale(LowPassWeight(this, frequency))
      ensures Abs(frequency) <= passFreq ==> r == bin
    {
      r := bin;
      var binFrequency := Abs(frequency);
      var smooth := cutoff - passFreq;
      if binFrequency > passFreq {
        var distanceFromTarget := (cutoff - binFrequency) / smooth;
        r := r.Scale(SmoothLerp(distanceFromTarget, 0.0, 1.0));
      }
    }

    /** `HighPassFilter.apply` for one bin: bins below `passFreq` are scaled
        down towards `cutoff`. */
    method HighPassBin(bin: Complex, frequency: real) returns (r: Complex)
      requires HighPass? && WellFormed()
      ensures Abs(frequency) < passFreq ==> r == bin.Scale(HighPassWeight(this, frequency))
      ensures Abs(frequency) >= passFreq ==> r == bin
    {
      r := bin;
      var binFrequency := Abs(frequency);
      var smooth := passFreq - cutoff;
      if binFrequency < passFreq {
        var distanceFromTarget := (binFrequency - cutoff) / smooth;
        r := r.Scale(SmoothLerp(distanceFromTarget, 0.0, 1.0));
      }
    }
  }

  /** `PeakFilter(lower_target, lower_smooth, higher_smooth, higher_target, gain)`:
      the constructor raises unless the four band edges are ordered. */
  function NewPeakFilter(lowerTarget: real, lowerSmooth: real, higherSmooth: real, higherTarget: real, gain: real): (r: Option<Filter>)
    ensures r.Some? <==> lowerTarget <= lowerSmooth <= higherSmooth <= higherTarget
    ensures r.Some? ==> r.value == Peak(lowerTarget, lowerSmooth, higherSmooth, higherTarget, gain) && r.value.WellFormed()
  {
    var f := Peak(lowerTarget, lowerSmooth, higherSmooth, higherTarget, gain);
    if f.BandOrdered() then Some(f) else None
  }

  /** The peak filter's band weight of one bin: a ramp up from `lowerTarget`
      to `lowerSmooth`, a plateau, a ramp down from `higherSmooth` to
      `higherTarget`, each ramp eased by the cubic curve. */
  function PeakWeight(f: Filter, frequency: real): (w: real)
    requires f.Peak? && f.BandOrdered()
    ensures 0.0 <= w <= 1.0
  {
    var a := Abs(frequency);
    var distance :=
      if a <= f.lowerSmooth then (a - f.lowerTarget) / ((f.lowerSmooth - f.lowerTarget) + 0.0001)
      else if a >= f.higherSmooth then (f.higherTarget - a) / ((f.higherTarget - f.higherSmooth) + 0.0001)
      else 1.0;
    SmoothLerp(distance, 0.0, 1.0)
  }

  /** The factor a low-pass filter applies above `passFreq`. */
  function LowPassWeight(f: Filter, frequency: real): (w: real)
    requires f.LowPass? && f.WellFormed()
    ensures 0.0 <= w <= 1.0
  {
    SmoothLerp((f.cutoff - Abs(frequency)) / (f.cutoff - f.passFreq), 0.0, 1.0)
  }

  /** The factor a high-pass filter applies below `passFreq`. */
  function HighPassWeight(f: Filter, frequency: real): (w: real)
    requires f.HighPass? && f.WellFormed()
    ensures 0.0 <= w <= 1.0
  {
    SmoothLerp((Abs(frequency) - f.cutoff) / (f.passFreq - f.cutoff), 0.0, 1.0)
  }

  /** One bin after a (non band-pass) filter. */
  function FilteredBin(f: Filter, c: Complex, frequency: real): Complex
    requires f.WellFormed() && !f.BandPass?
  {
    match f
    case Peak(_, _, _, _, gain) => c.Plus(c.Scale(gain).Scale(PeakWeight(f, frequency)))
    case LowPass(passFreq, _) =>
      if Abs(frequency) > passFreq then c.Scale(LowPassWeight(f, frequency)) else c
    case HighPass(passFreq, _) =>
      if Abs(frequency) < passFreq then c.Scale(HighPassWeight(f, frequency)) else c
  }

  /** The spectrum after `f.apply`, or `None` where `apply` raises. */
  function Filtered(f: Filter, spectrum: seq<Complex>, frequencies: seq<real>): (r: Option<seq<Complex>>)
    requires f.WellFormed()
    ensures r.None? <==> |spectrum| != |frequencies| || f.BandPass?
    ensures r.Some? ==> |r.value| == |spectrum|
  {
    if |spectrum| != |frequencies| || f.BandPass? then None
    else Some(seq(|spectrum|, i requires 0 <= i < |spectrum| => FilteredBin(f, spectrum[i], frequencies[i])))
  }

  predicate AllWellFormed(filters: seq<Filter>)
  {
    forall k :: 0 <= k < |filters| ==> filters[k].WellFormed()
  }

  /** The filters run one after another on the same spectrum, the first
      filter of the list first; the first one that raises stops the chain. */
  function Chain(filters: seq<Filter>, spectrum: seq<Complex>, frequencies: seq<real>): Option<seq<Complex>>
    requires AllWellFormed(filters)
    decreases |filters|
  {
    if filters == [] then Some(spectrum)
    else match Filtered(filters[0], spectrum, frequencies)
      case None => None
      case Some(next) => Chain(filters[1..], next, frequencies)
  }

  /** `apply_filter`: forward transform, the chain, the real part of the
      inverse transform; `None` if a filter raised. */
  function FilterSignal(samples: seq<real>, frequencies: seq<real>, filters: seq<Filter>, lib: Library): Option<seq<real>>
    requires AllWellFormed(filters)
  {
    match Chain(filters, lib.fft(samples), frequencies)
    case None => None
    case Some(spectrum) => Some(lib.ifftReal(spectrum))
  }

  /** `apply_filter(samples, samplerate, frequencies_cache, filters)`: the
      filters mutate one shared spectrum array, in list order. */
  method ApplyFilter(samples: seq<real>, frequencies: seq<real>, filters: seq<Filter>, lib: Library)
    returns (r: Option<seq<real>>)
    requires AllWellFormed(filters)
    ensures r == FilterSignal(samples, frequencies, filters, lib)
  {
    var transformed := lib.fft(samples);
    var fourier := new Complex[|transformed|](i requires 0 <= i < |transformed| => transformed[i]);
    assert fourier[..] == transformed;
    var i := 0;
    while i < |filters|
      invariant 0 <= i <= |filters|
      invariant Chain(filters[..i], transformed, frequencies) == Some(fourier[..])
    {
      ChainAppend(filters[..i], [filters[i]], transformed, frequencies);
      assert filters[..i] + [filters[i]] == filters[..i + 1];
      var ok := filters[i].Apply(fourier, frequencies);
      if !ok {
        ChainAppend(filters[..i + 1], filters[i + 1..], transformed, frequencies);
        assert filters[..i + 1] + filters[i + 1..] == filters;
        return None;
      }
      i := i + 1;
    }
    assert filters[..i] == filters;
    r := Some(lib.ifftReal(fourier[..]));
  }

  /** Running `a ++ b` is running `a`, then `b` on its result. */
  lemma {:induction false} ChainAppend(a: seq<Filter>, b: seq<Filter>, spectrum: seq<Complex>, frequencies: seq<real>)
    requires AllWellFormed(a) && AllWellFormed(b)
    ensures AllWellFormed(a + b)
    ensures Chain(a + b, spectrum, frequencies) ==
      match Chain(a, spectrum, frequencies)
      case None => None
      case Some(s) => Chain(b, s, frequencies)
  {
    assert AllWellFormed(a + b) by {
      forall k | 0 <= k < |a + b| ensures (a + b)[k].WellFormed() {
        if k < |a| { assert (a + b)[k] == a[k]; } else { assert (a + b)[k] == b[k - |a|]; }
      }
    }
    if a != [] {
      assert (a + b)[0] == a[0];
      assert (a + b)[1..] == a[1..] + b;
      match Filtered(a[0], spectrum, frequencies)
      case None =>
      case Some(next) => ChainAppend(a[1..], b, next, frequencies);
    } else {
      assert a + b == b;
    }
  }

  /** Inside the plateau `(lowerSmooth, higherSmooth)` the weight is 1. */
  lemma PeakWeightPlateau(f: Filter, frequency: real)
    requires f.Peak? && f.BandOrdered()
    requires f.lowerSmooth < Abs(frequency) < f.higherSmooth
    ensures PeakWeight(f, frequency) == 1.0
  {
  }

  /** At or below `lowerTarget`, and at or above `higherTarget` (once past
      `lowerSmooth`, where the lower ramp no longer decides), the weight
      is 0. */
  lemma PeakWeightOutsideBand(f: Filter, frequency: real)
    requires f.Peak? && f.BandOrdered()
    requires Abs(frequency) <= f.lowerTarget || (Abs(frequency) >= f.higherTarget && Abs(frequency) > f.lowerSmooth)
    ensures PeakWeight(f, frequency) == 0.0
  {
    var a := Abs(frequency);
    if a <= f.lowerSmooth {
      QuotientSign(a - f.lowerTarget, (f.lowerSmooth - f.lowerTarget) + 0.0001);
    } else {
      QuotientSign(f.higherTarget - a, (f.higherTarget - f.higherSmooth) + 0.0001);
    }
  }

  /** `fourier[i] += gain * fourier[i] * w` multiplies the bin by
      `1 + gain * w`. */
  lemma PeakBinScales(f: Filter, c: Complex, frequency: real)
    requires f.Peak? && f.BandOrdered()
    ensures FilteredBin(f, c, frequency) == c.Scale(1.0 + f.gain * PeakWeight(f, frequency))
  {
    var w := PeakWeight(f, frequency);
    assert FilteredBin(f, c, frequency) == c.Plus(c.Scale(f.gain).Scale(w));
    AddScaled(c.re, f.gain, w);
    AddScaled(c.im, f.gain, w);
  }

  lemma AddScaled(x: real, g: real, w: real)
    ensures x + x * g * w == x * (1.0 + g * w)
  {
    assert x * g * w == x * (g * w);
  }

  /** A peak filter with zero gain leaves a well-sized spectrum unchanged. */
  lemma PeakZeroGainIsIdentity(f: Filter, spectrum: seq<Complex>, frequencies: seq<real>)
    requires f.Peak? && f.BandOrdered() && f.gain == 0.0
    requires |spectrum| == |frequencies|
    ensures Filtered(f, spectrum, frequencies) == Some(spectrum)
  {
    var r := Filtered(f, spectrum, frequencies).value;
    forall i | 0 <= i < |spectrum| ensures r[i] == spectrum[i] {
      PeakBinScales(f, spectrum[i], frequencies[i]);
      assert 1.0 + f.gain * PeakWeight(f, frequencies[i]) == 1.0;
    }
    assert r == spectrum;
  }

  /** A low-pass filter with `cutoff > passFreq` passes bins up to
      `passFreq` untouched and silences bins from `cutoff` up. */
  lemma LowPassBands(f: Filter, c: Complex, frequency: real)
    requires f.LowPass? && f.cutoff > f.passFreq
    ensures Abs(frequency) <= f.passFreq ==> FilteredBin(f, c, frequency) == c
    ensures Abs(frequency) >= f.cutoff ==> FilteredBin(f, c, frequency) == ZeroBin
  {
    QuotientSign(f.cutoff - Abs(frequency), f.cutoff - f.passFreq);
  }

  /** A high-pass filter with `cutoff < passFreq` passes bins from
      `passFreq` up untouched and silences bins up to `cutoff`. */
  lemma HighPassBands(f: Filter, c: Complex, frequency: real)
    requires f.HighPass? && f.cutoff < f.passFreq
    ensures Abs(frequency) >= f.passFreq ==> FilteredBin(f, c, frequency) == c
    ensures Abs(frequency) <= f.cutoff ==> FilteredBin(f, c, frequency) == ZeroBin
  {
    QuotientSign(Abs(frequency) - f.cutoff, f.passFreq - f.cutoff);
  }

  /** Two peak filters on one band scale a bin by one factor and then by
      the other; this differs from one filter with the summed gain wherever
      both gains are non-zero and the weight is positive, because the second
      filter boosts what the first already boosted. */
  lemma StackedPeaks(f1: Filter, f2: Filter, c: Complex, frequency: real)
    requires f1.Peak? && f1.BandOrdered()
    requires f2.Peak? && f2 == f1.(gain := f2.gain)
    ensures FilteredBin(f2, FilteredBin(f1, c, frequency), frequency)
         == c.Scale(1.0 + f1.gain * PeakWeight(f1, frequency)).Scale(1.0 + f2.gain * PeakWeight(f2, frequency))
    ensures PeakWeight(f2, frequency) == PeakWeight(f1, frequency)
    ensures var w := PeakWeight(f1, frequency);
            f1.gain * f2.gain * w * w != 0.0 ==>
              (1.0 + f1.gain * w) * (1.0 + f2.gain * w) != 1.0 + (f1.gain + f2.gain) * w
  {
    assert PeakWeight(f2, frequency) == PeakWeight(f1, frequency);
    PeakBinScales(f1, c, frequency);
    PeakBinScales(f2, FilteredBin(f1, c, frequency), frequency);
    ProductOfFactors(f1.gain, f2.gain, PeakWeight(f1, frequency));
  }

  lemma ProductOfFactors(g1: real, g2: real, w: real)
    ensures (1.0 + g1 * w) * (1.0 + g2 * w) == 1.0 + (g1 + g2) * w + g1 * g2 * w * w
  {
  }

  /** Every filter only rescales bins, so a silent spectrum stays silent
      through any chain that does not raise. */
  lemma {:induction false} ChainKeepsSilence(filters: seq<Filter>, spectrum: seq<Complex>, frequencies: seq<real>)
    requires AllWellFormed(filters) && Silent(spectrum)
    ensures Chain(filters, spectrum, frequencies).Some? ==> Silent(Chain(filters, spectrum, frequencies).value)
    decreases |filters|
  {
    if filters != [] {
      var f := filters[0];
      match Filtered(f, spectrum, frequencies)
      case None =>
      case Some(next) =>
        forall i | 0 <= i < |next| ensures next[i] == ZeroBin {
          if f.Peak? { PeakBinScales(f, spectrum[i], frequencies[i]); }
        }
        assert AllWellFormed(filters[1..]);
        ChainKeepsSilence(filters[1..], next, frequencies);
    }
  }

  /** With no filter, `apply_filter` returns the real part of the inverse
      transform of the transform: the input itself when the library's
      transform pair round-trips on it. */
  lemma EmptyChainRoundTrip(samples: seq<real>, frequencies: seq<real>, lib: Library)
    requires lib.ifftReal(lib.fft(samples)) == samples
    ensures FilterSignal(samples, frequencies, [], lib) == Some(samples)
  {
  }

  /** A chain raises exactly when the spectrum and the frequency list differ
      in size or a band-pass filter is reached; otherwise the spectrum keeps
      its size. */
  lemma {:induction false} ChainOutcome(filters: seq<Filter>, spectrum: seq<Complex>, frequencies: seq<real>)
    requires AllWellFormed(filters)
    ensures Chain(filters, spectrum, frequencies).None? <==>
      filters != [] && (|spectrum| != |frequencies| || exists k :: 0 <= k < |filters| && filters[k].BandPass?)
    ensures Chain(filters, spectrum, frequencies).Some? ==> |Chain(filters, spectrum, frequencies).value| == |spectrum|
    decreases |filters|
  {
    if filters != [] {
      match Filtered(filters[0], spectrum, frequencies)
      case None =>
        if |spectrum| == |frequencies| { assert filters[0].BandPass?; }
      case Some(next) =>
        assert AllWellFormed(filters[1..]);
        ChainOutcome(filters[1..], next, frequencies);
        if exists k :: 0 <= k < |filters| && filters[k].BandPass? {
          var k :| 0 <= k < |filters| && filters[k].BandPass?;
          assert k != 0;
          assert filters[1..][k - 1].BandPass?;
        }
        if exists k :: 0 <= k < |filters[1..]| && filters[1..][k].BandPass? {
          var k :| 0 <= k < |filters[1..]| && filters[1..][k].BandPass?;
          assert filters[k + 1].BandPass?;
        }
    }
  }

  /** `np.fft.fftfreq(n, d=1/samplerate)`: bin i holds i * samplerate / n
      for the first `(n - 1) / 2 + 1` bins and (i - n) * samplerate / n for
      the rest. numpy divides by n, so n must be positive. */
  function FftFreq(n: nat, samplerate: real): (r: seq<real>)
    requires n > 0
    ensures |r| == n
  {
    seq(n, i requires 0 <= i < n => BinFrequency(FftIndex(n, i), samplerate, n))
  }

  /** The frequency of the bin with signed index `k`. */
  function BinFrequency(k: int, samplerate: real, n: nat): real
    requires n > 0
  {
    k as real * samplerate / n as real
  }

  /** The signed index of bin `i`: non-negative frequencies first, then the
      negative ones. */
  function FftIndex(n: nat, i: nat): (k: int)
    requires i < n
    ensures 2 * (if k >= 0 then k else -k) <= n
  {
    if i < (n - 1) / 2 + 1 then i else i - n
  }

  /** No bin lies above the Nyquist frequency `samplerate / 2`, and bin 0 is
      the zero frequency. */
  lemma FftFreqBelowNyquist(n: nat, samplerate: real, i: nat)
    requires n > 0 && samplerate >= 0.0 && i < n
    ensures FftFreq(n, samplerate)[0] == 0.0
    ensures Abs(FftFreq(n, samplerate)[i]) <= samplerate / 2.0
  {
    var k := FftIndex(n, i);
    var m: nat := if k >= 0 then k else -k;
    var f := FftFreq(n, samplerate);
    assert f[0] == BinFrequency(0, samplerate, n) == 0.0;
    assert f[i] == BinFrequency(k, samplerate, n);
    AbsQuotient(k, samplerate, n);
    HalfAtMost(m, n, samplerate);
  }

  /** The magnitude of bin `k`'s frequency is that of bin `|k|`. */
  lemma AbsQuotient(k: int, samplerate: real, n: nat)
    requires n > 0 && samplerate >= 0.0
    ensures Abs(BinFrequency(k, samplerate, n)) == BinFrequency(if k >= 0 then k else -k, samplerate, n)
  {
    var d := n as real;
    if k >= 0 {
      var x := k as real * samplerate;
      MulMonotone(0.0, k as real, samplerate);
      QuotientSign(x, d);
      assert BinFrequency(k, samplerate, n) == x / d;
    } else {
      var y := (-k) as real * samplerate;
      MulMonotone(0.0, (-k) as real, samplerate);
      QuotientSign(y, d);
      assert k as real * samplerate == -y;
      assert BinFrequency(k, samplerate, n) == -y / d;
      assert BinFrequency(-k, samplerate, n) == y / d;
      assert -y / d == -(y / d);
    }
  }

  lemma HalfAtMost(m: nat, n: nat, samplerate: real)
    requires 0 < n && 2 * m <= n && samplerate >= 0.0
    ensures BinFrequency(m, samplerate, n) <= samplerate / 2.0
  {
    MulMonotone(2.0 * m as real, n as real, samplerate);
    DivMonotone(m as real * samplerate, n as real * samplerate / 2.0, n as real);
    assert n as real * samplerate / 2.0 / n as real == samplerate / 2.0;
  }
}
