/** The sound sources of BrushSfx/sound_source.py: a source reads a window
    of `2 * blocksize` samples out of a looping base sound, scales it by the
    stroke's speed and pressure, runs it through its spectral filters, fades
    the previous call's second half into the first half of the new block,
    hands out the first `blocksize` samples and keeps the rest for the next
    call. */
module SoundSources {
  import opened Wrappers
  import opened Numerics
  import opened Utils
  import opened Filters

  /** `max_speed`: ten screen heights per second count as full speed. */
  const MAX_SPEED := 10.0

  /** `SFXSource.__init__`'s default sample rate, and the one the pen noise
      is generated at. */
  const DEFAULT_SAMPLERATE := 48000.0

  /** `np.linspace(start=0, stop=1, num=num)`; a single point is the start. */
  function Linspace(num: nat): (r: seq<real>)
    ensures |r| == num
  {
    if num == 1 then [0.0]
    else seq(num, i requires 0 <= i < num => i as real / (num - 1) as real)
  }

  /** The points run from 0 to 1 without ever going down. */
  lemma LinspaceShape(num: nat, i: nat, j: nat)
    requires i <= j < num
    ensures 0.0 <= Linspace(num)[i] <= Linspace(num)[j] <= 1.0
    ensures Linspace(num)[0] == 0.0
    ensures num > 1 ==> Linspace(num)[num - 1] == 1.0
  {
    if num > 1 {
      var l := Linspace(num);
      var d := (num - 1) as real;
      assert l[i] == i as real / d;
      assert l[j] == j as real / d;
      assert l[0] == 0.0 / d;
      assert l[num - 1] == d / d;
      SelfQuotient(d);
      QuotientSign(i as real, d);
      DivMonotone(i as real, j as real, d);
      DivMonotone(j as real, d, d);
    }
  }

  /** The crossfade ramp of `SFXSource.__init__`: `blocksize // 2` points of
      `linspace(0, 1)` followed by as many ones, every entry then eased by
      the cubic curve (which leaves the ones at 1). */
  function Ramp(blocksize: nat): (r: seq<real>)
    ensures |r| == 2 * (blocksize / 2)
  {
    var half := blocksize / 2;
    var points := Linspace(half) + seq(half, _ => 1.0);
    seq(|points|, i requires 0 <= i < |points| => SmoothCurve(points[i]))
  }

  /** The ramp rises from 0 to 1 over its first half, never going down, and
      stays at 1 over its second half. */
  lemma RampShape(blocksize: nat, i: nat, j: nat)
    requires i <= j < 2 * (blocksize / 2)
    ensures 0.0 <= Ramp(blocksize)[i] <= Ramp(blocksize)[j] <= 1.0
    ensures Ramp(blocksize)[0] == 0.0
    ensures i >= blocksize / 2 ==> Ramp(blocksize)[i] == 1.0
  {
    var half := blocksize / 2;
    var points := Linspace(half) + seq(half, _ => 1.0);
    assert points[0] == Linspace(half)[0];
    LinspaceShape(half, 0, 0);
    var p, q := points[i], points[j];
    if j < half {
      LinspaceShape(half, i, j);
    } else if i < half {
      LinspaceShape(half, i, i);
    }
    assert 0.0 <= p <= q <= 1.0;
    SmoothCurveRange(p);
    SmoothCurveRange(q);
    SmoothCurveMonotone(p, q);
    SmoothCurveRange(0.0);
    SmoothCurveRange(1.0);
  }

  /** `np.roll(base, shift=-framesProcessed)[:count]`: the base sound read
      circularly from `framesProcessed` on, no longer than the base itself. */
  function Window(base: seq<real>, framesProcessed: nat, count: nat): (r: seq<real>)
    ensures |r| == Min(count, |base|)
  {
    seq(Min(count, |base|), i requires 0 <= i < Min(count, |base|) => base[(framesProcessed + i) % |base|])
  }

  /** Consecutive calls read overlapping windows: the second half of one
      call's window is the first half of the next call's, which is what the
      crossfade of the next call blends with. */
  lemma WindowOverlap(base: seq<real>, framesProcessed: nat, blocksize: nat, i: nat)
    requires i < blocksize && 2 * blocksize <= |base|
    ensures Window(base, framesProcessed, 2 * blocksize)[blocksize + i]
         == Window(base, framesProcessed + blocksize, 2 * blocksize)[i]
  {
    assert framesProcessed + (blocksize + i) == (framesProcessed + blocksize) + i;
  }

  /** The window only depends on the position modulo the base length: the
      base sound loops. */
  lemma WindowLoops(base: seq<real>, framesProcessed: nat, count: nat)
    requires |base| > 0
    ensures Window(base, framesProcessed + |base|, count) == Window(base, framesProcessed, count)
  {
    var n := |base|;
    var later, now := Window(base, framesProcessed + n, count), Window(base, framesProcessed, count);
    forall i | 0 <= i < Min(count, n) ensures later[i] == now[i] {
      ModShift(framesProcessed + i, n);
      assert framesProcessed + n + i == (framesProcessed + i) + n;
    }
  }

  lemma ModShift(k: nat, n: nat)
    requires n > 0
    ensures (k + n) % n == k % n
  {
    var q, r := k / n, k % n;
    assert k == q * n + r;
    assert k + n == (q + 1) * n + r;
    DivModUnique(k + n, n, q + 1, r);
  }

  /** `__getSpeed(deltaTime, cursor_movement)`, from the distance moved
      `deltaPx`: a zero time step counts as one second, the pixel speed is
      taken relative to the screen height and to `MAX_SPEED`, then clamped. */
  function Speed(deltaTime: real, deltaPx: real, heightPx: real): (r: real)
    requires heightPx != 0.0
    ensures 0.0 <= r <= 1.0
  {
    var dt := if deltaTime == 0.0 then 1.0 else deltaTime;
    Clamp(deltaPx / dt / heightPx / MAX_SPEED, 0.0, 1.0)
  }

  /** No movement, no speed. */
  lemma SpeedStill(deltaTime: real, heightPx: real)
    requires heightPx != 0.0
    ensures Speed(deltaTime, 0.0, heightPx) == 0.0
  {
    var dt := if deltaTime == 0.0 then 1.0 else deltaTime;
    assert 0.0 / dt == 0.0;
    assert 0.0 / heightPx == 0.0;
  }

  /** Over a positive time step, a longer movement is at least as fast, and
      ten screen heights per second or more is full speed. */
  lemma SpeedMonotone(deltaTime: real, shorter: real, longer: real, heightPx: real)
    requires deltaTime > 0.0 && heightPx > 0.0 && shorter <= longer
    ensures Speed(deltaTime, shorter, heightPx) <= Speed(deltaTime, longer, heightPx)
    ensures longer >= MAX_SPEED * heightPx * deltaTime ==> Speed(deltaTime, longer, heightPx) == 1.0
  {
    var x, y := shorter / deltaTime / heightPx / MAX_SPEED, longer / deltaTime / heightPx / MAX_SPEED;
    assert Speed(deltaTime, shorter, heightPx) == Clamp(x, 0.0, 1.0);
    assert Speed(deltaTime, longer, heightPx) == Clamp(y, 0.0, 1.0);
    RateMonotone(shorter, longer, deltaTime, heightPx);
    ClampMonotone(x, y, 0.0, 1.0);
    if longer >= MAX_SPEED * heightPx * deltaTime {
      FullRate(longer, deltaTime, heightPx);
    }
  }

  /** The speed before clamping grows with the distance. */
  lemma RateMonotone(shorter: real, longer: real, deltaTime: real, heightPx: real)
    requires deltaTime > 0.0 && heightPx > 0.0 && shorter <= longer
    ensures shorter / deltaTime / heightPx / MAX_SPEED <= longer / deltaTime / heightPx / MAX_SPEED
  {
    DivMonotone(shorter, longer, deltaTime);
    DivMonotone(shorter / deltaTime, longer / deltaTime, heightPx);
    DivMonotone(shorter / deltaTime / heightPx, longer / deltaTime / heightPx, MAX_SPEED);
  }

  /** Ten screen heights per second reach 1 before clamping. */
  lemma FullRate(longer: real, deltaTime: real, heightPx: real)
    requires deltaTime > 0.0 && heightPx > 0.0 && longer >= MAX_SPEED * heightPx * deltaTime
    ensures longer / deltaTime / heightPx / MAX_SPEED >= 1.0
  {
    var full := MAX_SPEED * heightPx * deltaTime;
    RateMonotone(full, longer, deltaTime, heightPx);
    assert full / deltaTime == MAX_SPEED * heightPx by {
      assert full == (MAX_SPEED * heightPx) * deltaTime;
    }
    assert MAX_SPEED * heightPx / heightPx == MAX_SPEED;
  }

  /** The shapes `_mix_samples` can combine: numpy broadcasts the previous
      tail `a`, the ramp and `b[:blocksize]` only when they have one length
      (a length-1 operand is not considered). */
  predicate MixFits(a: seq<real>, b: seq<real>, ramp: seq<real>, blocksize: nat)
  {
    |a| == |ramp| && Min(blocksize, |b|) == |ramp|
  }

  /** `_mix_samples(A, B)`: `B[:blocksize] = A * (1 - ramp) + B[:blocksize] * ramp`;
      `None` where numpy raises on the shapes. */
  function Mixed(a: seq<real>, b: seq<real>, ramp: seq<real>, blocksize: nat): (r: Option<seq<real>>)
    ensures r.Some? <==> MixFits(a, b, ramp, blocksize)
    ensures r.Some? ==> |r.value| == |b| && r.value[|ramp|..] == b[|ramp|..]
  {
    if !MixFits(a, b, ramp, blocksize) then None
    else Some(seq(|b|, i requires 0 <= i < |b| =>
      if i < |ramp| then a[i] * (1.0 - ramp[i]) + b[i] * ramp[i] else b[i]))
  }

  /** Each mixed sample lies between the old tail's sample and the new one,
      equal to the old where the ramp is 0 and to the new where it is 1. */
  lemma MixCrossfade(a: seq<real>, b: seq<real>, ramp: seq<real>, blocksize: nat, i: nat)
    requires MixFits(a, b, ramp, blocksize) && i < |ramp| && 0.0 <= ramp[i] <= 1.0
    ensures Between(Mixed(a, b, ramp, blocksize).value[i], a[i], b[i])
    ensures ramp[i] == 0.0 ==> Mixed(a, b, ramp, blocksize).value[i] == a[i]
    ensures ramp[i] == 1.0 ==> Mixed(a, b, ramp, blocksize).value[i] == b[i]
  {
    var t := ramp[i];
    assert a[i] * (1.0 - t) + b[i] * t == a[i] + (b[i] - a[i]) * t;
    FractionBetween(t, a[i], b[i]);
  }

  /** `_mix_samples` writing into `b` in place: nothing is written when
      the shapes do not broadcast. */
  method MixSamples(a: seq<real>, b: array<real>, ramp: seq<real>, blocksize: nat) returns (ok: bool)
    modifies b
    ensures ok == MixFits(a, old(b[..]), ramp, blocksize)
    ensures ok ==> b[..] == Mixed(a, old(b[..]), ramp, blocksize).value
    ensures !ok ==> b[..] == old(b[..])
  {
    if |a| != |ramp| || Min(blocksize, b.Length) != |ramp| {
      return false;
    }
    ghost var before := b[..];
    ghost var after := Mixed(a, before, ramp, blocksize).value;
    var i := 0;
    while i < |ramp|
      invariant 0 <= i <= |ramp|
      invariant forall k :: 0 <= k < i ==> b[k] == after[k]
      invariant forall k :: i <= k < b.Length ==> b[k] == before[k]
    {
      b[i] := a[i] * (1.0 - ramp[i]) + b[i] * ramp[i];
      i := i + 1;
    }
    assert b[..] == after;
    ok := true;
  }

  /** The pen's filters: a band around 650-1320 Hz that moves up with the
      speed, boosted twice on the same band, by 2 and then by 6. */
  function PenFilters(speed: real): (r: seq<Filter>)
    ensures |r| == 2 && AllWellFormed(r)
    ensures r[0].Peak? && r[0].gain == 2.0 && r[1] == r[0].(gain := 6.0)
  {
    var shift := -50.0 + 175.0 * (speed * speed);
    var f := Peak(650.0 + shift, 700.0 + shift, 720.0 + shift, 1320.0 + shift, 2.0);
    [f, f.(gain := 6.0)]
  }

  /** The pen band moves between -50 Hz (standing still) and +125 Hz (full
      speed). */
  lemma PenShiftRange(speed: real)
    requires 0.0 <= speed <= 1.0
    ensures 650.0 - 50.0 <= PenFilters(speed)[0].lowerTarget <= 650.0 + 125.0
    ensures speed == 0.0 ==> PenFilters(speed)[0].lowerTarget == 600.0
  {
    ProductBelow(speed, speed);
    MulMonotone(0.0, speed, speed);
  }

  /** The pen band's weight for a bin. */
  function PenWeight(speed: real, frequency: real): real
  {
    PeakWeight(PenFilters(speed)[0], frequency)
  }

  /** Two stacked pen filters are not one filter with the summed gain 8:
      wherever the band weight `w` is positive a bin is multiplied by
      `(1 + 2w)(1 + 6w)`, more than `1 + 8w`. */
  lemma PenStackingCompounds(speed: real, c: Complex, frequency: real)
    ensures Chain(PenFilters(speed), [c], [frequency])
         == Some([c.Scale((1.0 + 2.0 * PenWeight(speed, frequency)) * (1.0 + 6.0 * PenWeight(speed, frequency)))])
    ensures PenWeight(speed, frequency) > 0.0 ==>
              (1.0 + 2.0 * PenWeight(speed, frequency)) * (1.0 + 6.0 * PenWeight(speed, frequency))
                > 1.0 + 8.0 * PenWeight(speed, frequency)
  {
    var fs := PenFilters(speed);
    var w := PeakWeight(fs[0], frequency);
    StackedPeaks(fs[0], fs[1], c, frequency);
    var once := FilteredBin(fs[0], c, frequency);
    var twice := FilteredBin(fs[1], once, frequency);
    var first := Filtered(fs[0], [c], [frequency]).value;
    assert first[0] == once;
    assert first == [once];
    var second := Filtered(fs[1], [once], [frequency]).value;
    assert second[0] == twice;
    assert second == [twice];
    assert fs[1..][1..] == [];
    assert Chain(fs[1..][1..], [twice], [frequency]) == Some([twice]);
    assert Chain(fs[1..], [once], [frequency]) == Some([twice]);
    assert Chain(fs, [c], [frequency]) == Chain(fs[1..], [once], [frequency]);
    assert twice == c.Scale((1.0 + 2.0 * w) * (1.0 + 6.0 * w));
    assert Chain(fs, [c], [frequency]) == Some([twice]);
    assert PenWeight(speed, frequency) == w;
    var k := (1.0 + 2.0 * w) * (1.0 + 6.0 * w);
    assert [twice] == [c.Scale(k)];
    assert Chain(PenFilters(speed), [c], [frequency]) == Some([c.Scale(k)]);
    assert k == (1.0 + 2.0 * PenWeight(speed, frequency)) * (1.0 + 6.0 * PenWeight(speed, frequency));
    CompoundGain(w);
  }

  lemma CompoundGain(w: real)
    ensures w > 0.0 ==> (1.0 + 2.0 * w) * (1.0 + 6.0 * w) > 1.0 + 8.0 * w
  {
    if w > 0.0 {
      assert (1.0 + 2.0 * w) * (1.0 + 6.0 * w) == 1.0 + 8.0 * w + 12.0 * (w * w);
      MulMonotone(0.0, w, w);
      assert w * w > 0.0;
    }
  }

  /** The pencil's filter: one boost around 400-1000 Hz whose gain grows
      from 0 at half pressure to 2.5 at full pressure. */
  function PencilFilters(pressure: real): (r: seq<Filter>)
    ensures |r| == 1 && AllWellFormed(r) && r[0].Peak?
    ensures 0.0 <= r[0].gain <= 2.5
  {
    [Peak(200.0, 400.0, 1000.0, 1700.0, 2.5 * Clamp(2.0 * pressure - 1.0, 0.0, 1.0))]
  }

  /** Up to half pressure the pencil filter is flat: the spectrum passes
      unchanged; at full pressure the gain is the full 2.5. */
  lemma PencilSoftIsFlat(pressure: real, spectrum: seq<Complex>, frequencies: seq<real>)
    requires |spectrum| == |frequencies|
    ensures pressure <= 0.5 ==> Chain(PencilFilters(pressure), spectrum, frequencies) == Some(spectrum)
    ensures pressure >= 1.0 ==> PencilFilters(pressure)[0].gain == 2.5
  {
    var f := PencilFilters(pressure)[0];
    if pressure <= 0.5 {
      PeakZeroGainIsIdentity(f, spectrum, frequencies);
      assert PencilFilters(pressure)[1..] == [];
    }
  }

  datatype SourceKind = PlainSource | PenSource | PencilSource

  /** The filters a source applies on one call. */
  function KindFilters(kind: SourceKind, speed: real, pressure: real): (r: seq<Filter>)
    requires kind != PlainSource
    ensures AllWellFormed(r)
  {
    if kind == PenSource then PenFilters(speed) else PencilFilters(pressure)
  }

  /** The `2 * blocksize` samples one call produces before they are split:
      the window scaled by `speed * lerp(pressure, 0.3, 1.0)`, filtered, and
      crossfaded with the previous tail. `None` where `apply_filter` or
      `_mix_samples` raises. */
  function Rendered(kind: SourceKind, window: seq<real>, speed: real, pressure: real, frequencies: seq<real>,
                    tail: seq<real>, ramp: seq<real>, blocksize: nat, lib: Library): Option<seq<real>>
    requires kind != PlainSource
  {
    var filters := KindFilters(kind, speed, pressure);
    AfterFilter(FilterSignal(ScaleAll(window, speed * Lerp(pressure, 0.3, 1.0)), frequencies, filters, lib), tail, ramp, blocksize)
  }

  lemma RenderedSteps(kind: SourceKind, window: seq<real>, speed: real, pressure: real, frequencies: seq<real>,
                      tail: seq<real>, ramp: seq<real>, blocksize: nat, lib: Library)
    requires kind != PlainSource
    ensures Rendered(kind, window, speed, pressure, frequencies, tail, ramp, blocksize, lib)
         == AfterFilter(FilterSignal(ScaleAll(window, speed * Lerp(pressure, 0.3, 1.0)), frequencies,
                                     KindFilters(kind, speed, pressure), lib), tail, ramp, blocksize)
  {
  }

  /** The crossfade step, once filtering has either raised or produced
      `filtered`. */
  function AfterFilter(filtered: Option<seq<real>>, tail: seq<real>, ramp: seq<real>, blocksize: nat): Option<seq<real>>
  {
    match filtered
    case None => None
    case Some(samples) => Mixed(tail, samples, ramp, blocksize)
  }

  /** Standing still is silent: with speed 0, a silent tail and a transform
      pair that maps silence to silence, every rendered sample is 0. */
  lemma StillIsSilent(kind: SourceKind, window: seq<real>, pressure: real, frequencies: seq<real>,
                      tail: seq<real>, ramp: seq<real>, blocksize: nat, lib: Library)
    requires kind != PlainSource && KeepsSilence(lib) && AllZero(tail)
    ensures Rendered(kind, window, 0.0, pressure, frequencies, tail, ramp, blocksize, lib).Some? ==>
            AllZero(Rendered(kind, window, 0.0, pressure, frequencies, tail, ramp, blocksize, lib).value)
  {
    var filters := KindFilters(kind, 0.0, pressure);
    var scaled := ScaleAll(window, 0.0 * Lerp(pressure, 0.3, 1.0));
    assert AllZero(scaled);
    var spectrum := lib.fft(scaled);
    assert Silent(spectrum);
    ChainKeepsSilence(filters, spectrum, frequencies);
    match Chain(filters, spectrum, frequencies)
    case None =>
    case Some(filtered) =>
      var samples := lib.ifftReal(filtered);
      assert AllZero(samples);
      var m := Mixed(tail, samples, ramp, blocksize);
      if m.Some? {
        forall i | 0 <= i < |m.value| ensures m.value[i] == 0.0 {
          if i < |ramp| {
            assert m.value[i] == tail[i] * (1.0 - ramp[i]) + samples[i] * ramp[i];
          } else {
            assert m.value[i] == samples[i];
          }
        }
      }
  }

  /** With an even block size, a window of `2 * blocksize` samples, one bin
      frequency per sample, a tail of `blocksize` samples and transforms that
      keep lengths, rendering never raises and yields `2 * blocksize`
      samples: `blocksize` to hand out and `blocksize` for the next tail. */
  lemma RenderedLength(kind: SourceKind, window: seq<real>, speed: real, pressure: real, frequencies: seq<real>,
                       tail: seq<real>, ramp: seq<real>, blocksize: nat, lib: Library)
    requires kind != PlainSource && LengthPreserving(lib)
    requires blocksize % 2 == 0 && ramp == Ramp(blocksize)
    requires |window| == 2 * blocksize && |frequencies| == 2 * blocksize && |tail| == blocksize
    ensures Rendered(kind, window, speed, pressure, frequencies, tail, ramp, blocksize, lib).Some?
    ensures |Rendered(kind, window, speed, pressure, frequencies, tail, ramp, blocksize, lib).value| == 2 * blocksize
  {
    var filters := KindFilters(kind, speed, pressure);
    assert forall k :: 0 <= k < |filters| ==> filters[k].Peak?;
    var spectrum := lib.fft(ScaleAll(window, speed * Lerp(pressure, 0.3, 1.0)));
    assert |spectrum| == 2 * blocksize;
    ChainOutcome(filters, spectrum, frequencies);
    var samples := lib.ifftReal(Chain(filters, spectrum, frequencies).value);
    assert |samples| == 2 * blocksize;
    assert MixFits(tail, samples, ramp, blocksize);
  }

  /** With an odd block size the ramp has `blocksize - 1` entries against a
      tail of `blocksize`: numpy cannot broadcast the crossfade, so every
      call raises, whatever the filters do. */
  lemma RenderedOddBlocksize(kind: SourceKind, window: seq<real>, speed: real, pressure: real, frequencies: seq<real>,
                             tail: seq<real>, ramp: seq<real>, blocksize: nat, lib: Library)
    requires kind != PlainSource && blocksize % 2 == 1 && ramp == Ramp(blocksize) && |tail| == blocksize
    ensures Rendered(kind, window, speed, pressure, frequencies, tail, ramp, blocksize, lib).None?
  {
    assert |ramp| == blocksize - 1;
    match FilterSignal(ScaleAll(window, speed * Lerp(pressure, 0.3, 1.0)), frequencies, KindFilters(kind, speed, pressure), lib)
    case None =>
    case Some(samples) => assert !MixFits(tail, samples, ramp, blocksize);
  }

  /** A sound file as `WavObject` holds it: its rate and its normalised
      samples. */
  datatype WavData = WavData(samplerate: real, samples: seq<real>)

  newtype int16 = x: int | -0x8000 <= x < 0x8000

  /** The slice `raw[0::step]`: every `step`-th sample, from the first on. */
  function Stride(raw: seq<int16>, step: nat): seq<int16>
    requires step > 0
    decreases |raw|
  {
    if |raw| == 0 then [] else [raw[0]] + Stride(raw[Min(step, |raw|)..], step)
  }

  /** The slice keeps `ceil(|raw| / step)` samples, sample `i` being
      `raw[i * step]`. */
  lemma StrideIndex(raw: seq<int16>, step: nat)
    requires step > 0
    ensures |Stride(raw, step)| == (|raw| + step - 1) / step
    ensures forall i :: 0 <= i < |Stride(raw, step)| ==> i * step < |raw| && Stride(raw, step)[i] == raw[i * step]
  {
    StrideLength(raw, step);
    forall i | 0 <= i < |Stride(raw, step)| ensures i * step < |raw| && Stride(raw, step)[i] == raw[i * step] {
      StrideAt(raw, step, i);
    }
  }

  lemma {:induction false} StrideLength(raw: seq<int16>, step: nat)
    requires step > 0
    ensures |Stride(raw, step)| == (|raw| + step - 1) / step
    decreases |raw|
  {
    if |raw| > 0 {
      StrideLength(raw[Min(step, |raw|)..], step);
      CeilStep(|raw|, step);
    }
  }

  lemma {:induction false} StrideAt(raw: seq<int16>, step: nat, i: nat)
    requires step > 0 && i < |Stride(raw, step)|
    ensures i * step < |raw| && Stride(raw, step)[i] == raw[i * step]
    decreases i
  {
    if i > 0 {
      var rest := raw[Min(step, |raw|)..];
      assert Stride(raw, step)[i] == Stride(rest, step)[i - 1];
      StrideAt(rest, step, i - 1);
      var j := (i - 1) * step;
      assert i * step == j + step;
      assert rest[j] == raw[j + step];
    }
  }

  /** Dropping the first `step` samples drops one kept sample. */
  lemma CeilStep(n: nat, step: nat)
    requires n > 0 && step > 0
    ensures (n + step - 1) / step == 1 + (n - Min(step, n) + step - 1) / step
  {
    if step >= n {
      DivModUnique(n + step - 1, step, 1, n - 1);
      DivModUnique(step - 1, step, 0, step - 1);
    } else {
      var a := n - step + step - 1;
      var q := a / step;
      assert a == q * step + a % step;
      assert a + step == (q + 1) * step + a % step;
      DivModUnique(a + step, step, q + 1, a % step);
    }
  }

  /** The normalisation of `generate_from_file`: every `step`-th int16
      sample (`step` is the channel count), divided by 2**15. */
  function Normalised(raw: seq<int16>, step: nat): (r: seq<real>)
    requires step > 0
    ensures |r| == (|raw| + step - 1) / step
    ensures forall i :: 0 <= i < |r| ==> -1.0 <= r[i] < 1.0
  {
    StrideIndex(raw, step);
    var kept := Stride(raw, step);
    seq(|kept|, i requires 0 <= i < |kept| => kept[i] as int as real / 32768.0)
  }

  /** Each normalised sample is the matching raw sample over 2**15. */
  lemma NormalisedSample(raw: seq<int16>, step: nat, i: nat)
    requires step > 0 && i < |Normalised(raw, step)|
    ensures i * step < |raw| && Normalised(raw, step)[i] * 32768.0 == raw[i * step] as int as real
  {
    StrideIndex(raw, step);
  }

  /** A sound source (`SFXSource` and its two subclasses). The per-call
      state is `framesProcessed`, `lastCallbackTime` and `tail`
      (`__samples_as_last_callback`); the rest is fixed at construction. */
  class SfxSource {
    const kind: SourceKind
    const blocksize: nat
    const samplerate: real
    const base: seq<real>
    const ramp: seq<real>
    /** `__frequencies_cache`: the bin frequencies of a `2 * blocksize` block. */
    const frequencies: seq<real>
    /** The primary screen's height in pixels. */
    const heightPx: real
    var framesProcessed: nat
    var lastCallbackTime: real
    var tail: seq<real>

    /** What the constructors establish; it only involves constants. */
    predicate Valid()
    {
      && ramp == Ramp(blocksize)
      && (kind != PlainSource ==>
            blocksize > 0 && samplerate > 0.0 && heightPx > 0.0
            && frequencies == FftFreq(2 * blocksize, samplerate))
    }

    /** `SFXSource(blocksize)`: the base class, which only produces silence. */
    constructor Plain(blocksize: nat)
      ensures Valid() && kind == PlainSource && this.blocksize == blocksize
      ensures samplerate == DEFAULT_SAMPLERATE
    {
      kind := PlainSource;
      this.blocksize := blocksize;
      samplerate := DEFAULT_SAMPLERATE;
      base := [];
      ramp := Ramp(blocksize);
      frequencies := [];
      heightPx := 1.0;
      framesProcessed := 0;
      lastCallbackTime := 0.0;
      tail := [];
    }

    /** `PenSFXSource(blocksize)` over the pen noise `noise`, at 48 kHz. */
    constructor Pen(blocksize: nat, noise: seq<real>, heightPx: real)
      requires blocksize > 0 && heightPx > 0.0
      ensures Valid() && kind == PenSource && this.blocksize == blocksize
      ensures samplerate == DEFAULT_SAMPLERATE && base == noise && this.heightPx == heightPx
      ensures framesProcessed == 0 && lastCallbackTime == 0.0 && tail == Zeros(blocksize)
    {
      kind := PenSource;
      this.blocksize := blocksize;
      samplerate := DEFAULT_SAMPLERATE;
      base := noise;
      ramp := Ramp(blocksize);
      frequencies := FftFreq(2 * blocksize, DEFAULT_SAMPLERATE);
      this.heightPx := heightPx;
      framesProcessed := 0;
      lastCallbackTime := 0.0;
      tail := Zeros(blocksize);
    }

    /** `PencilSFXSource(blocksize)` over a recorded sound, at its rate. */
    constructor Pencil(blocksize: nat, sound: WavData, heightPx: real)
      requires blocksize > 0 && sound.samplerate > 0.0 && heightPx > 0.0
      ensures Valid() && kind == PencilSource && this.blocksize == blocksize
      ensures samplerate == sound.samplerate && base == sound.samples && this.heightPx == heightPx
      ensures framesProcessed == 0 && lastCallbackTime == 0.0 && tail == Zeros(blocksize)
    {
      kind := PencilSource;
      this.blocksize := blocksize;
      samplerate := sound.samplerate;
      base := sound.samples;
      ramp := Ramp(blocksize);
      frequencies := FftFreq(2 * blocksize, sound.samplerate);
      this.heightPx := heightPx;
      framesProcessed := 0;
      lastCallbackTime := 0.0;
      tail := Zeros(blocksize);
    }

    /** The full `2 * blocksize` block the next call renders. */
    function Upcoming(currentTime: real, movement: Point, pressure: real, lib: Library): Option<seq<real>>
      reads this
      requires Valid() && kind != PlainSource
    {
      var speed := Speed(currentTime - lastCallbackTime, Length(movement, lib), heightPx);
      Rendered(kind, Window(base, framesProcessed, 2 * blocksize), speed, pressure, frequencies, tail, ramp, blocksize, lib)
    }

    /** What the next `get_samples` call returns. */
    function Next(currentTime: real, movement: Point, pressure: real, lib: Library): Option<seq<real>>
      reads this
      requires Valid()
    {
      if kind == PlainSource then Some(Zeros(blocksize))
      else match Upcoming(currentTime, movement, pressure, lib)
        case None => None
        case Some(block) => Some(block[..Min(blocksize, |block|)])
    }

    /** The state `get_samples` leaves behind for a pen or pencil source,
        against the state before the call and the block it rendered then:
        the window moved on by `blocksize`; the tail and the callback time
        replaced on success and kept where the call raised. */
    ghost predicate SteppedFrom(framesBefore: nat, tailBefore: seq<real>, timeBefore: real,
                                rendered: Option<seq<real>>, currentTime: real)
      reads this
    {
      && framesProcessed == framesBefore + blocksize
      && match rendered
         case None => tail == tailBefore && lastCallbackTime == timeBefore
         case Some(block) => tail == block[Min(blocksize, |block|)..] && lastCallbackTime == currentTime
    }

    /** For an even block size, a base sound of at least `2 * blocksize`
        samples, a tail of `blocksize` and transforms that keep lengths, the
        next call succeeds: it hands out `blocksize` samples and keeps the
        other `blocksize` as the next tail, so the same holds on the call
        after it. */
    lemma UpcomingSucceeds(currentTime: real, movement: Point, pressure: real, lib: Library)
      requires Valid() && kind != PlainSource && LengthPreserving(lib)
      requires blocksize % 2 == 0 && |base| >= 2 * blocksize && |tail| == blocksize
      ensures Upcoming(currentTime, movement, pressure, lib).Some?
      ensures |Upcoming(currentTime, movement, pressure, lib).value| == 2 * blocksize
      ensures Next(currentTime, movement, pressure, lib).Some?
      ensures |Next(currentTime, movement, pressure, lib).value| == blocksize
    {
      var speed := Speed(currentTime - lastCallbackTime, Length(movement, lib), heightPx);
      RenderedLength(kind, Window(base, framesProcessed, 2 * blocksize), speed, pressure, frequencies, tail, ramp, blocksize, lib);
    }

    /** With an odd block size every call of a pen or pencil source raises. */
    lemma UpcomingOddBlocksize(currentTime: real, movement: Point, pressure: real, lib: Library)
      requires Valid() && kind != PlainSource && blocksize % 2 == 1 && |tail| == blocksize
      ensures Upcoming(currentTime, movement, pressure, lib).None?
      ensures Next(currentTime, movement, pressure, lib).None?
    {
      var speed := Speed(currentTime - lastCallbackTime, Length(movement, lib), heightPx);
      RenderedOddBlocksize(kind, Window(base, framesProcessed, 2 * blocksize), speed, pressure, frequencies, tail, ramp, blocksize, lib);
    }

    /** `__getSamples()`: the window at `framesProcessed`, which then moves
        on by `blocksize`. */
    method TakeWindow() returns (window: seq<real>)
      requires Valid() && kind != PlainSource
      modifies this
      ensures window == Window(base, old(framesProcessed), 2 * blocksize)
      ensures framesProcessed == old(framesProcessed) + blocksize
      ensures lastCallbackTime == old(lastCallbackTime) && tail == old(tail)
    {
      window := Window(base, framesProcessed, 2 * blocksize);
      framesProcessed := framesProcessed + blocksize;
    }

    /** `get_samples(cffi_time, cursor_movement, pressure)`. The window
        position moves on even when filtering or mixing then raises; the
        tail and the callback time only change on success. */
    method GetSamples(currentTime: real, movement: Point, pressure: real, lib: Library) returns (r: Option<seq<real>>)
      requires Valid()
      modifies this
      ensures r == old(Next(currentTime, movement, pressure, lib))
      ensures kind == PlainSource ==> unchanged(this)
      ensures kind != PlainSource ==> framesProcessed == old(framesProcessed) + blocksize
      ensures kind != PlainSource ==>
        match old(Upcoming(currentTime, movement, pressure, lib))
        case None => tail == old(tail) && lastCallbackTime == old(lastCallbackTime)
        case Some(block) => tail == block[Min(blocksize, |block|)..] && lastCallbackTime == currentTime
    {
      if kind == PlainSource {
        return Some(Zeros(blocksize));
      }
      var deltaTime := currentTime - lastCallbackTime;
      var speed := Speed(deltaTime, Length(movement, lib), heightPx);
      ghost var window0 := Window(base, framesProcessed, 2 * blocksize);
      ghost var tail0 := tail;
      ghost var expected := Rendered(kind, window0, speed, pressure, frequencies, tail0, ramp, blocksize, lib);
      assert expected == Upcoming(currentTime, movement, pressure, lib);
      var window := TakeWindow();
      assert window == window0;
      var scaled := ScaleAll(window, speed * Lerp(pressure, 0.3, 1.0));
      var filtered := ApplyFilter(scaled, frequencies, KindFilters(kind, speed, pressure), lib);
      assert filtered == FilterSignal(ScaleAll(window0, speed * Lerp(pressure, 0.3, 1.0)), frequencies, KindFilters(kind, speed, pressure), lib);
      RenderedSteps(kind, window0, speed, pressure, frequencies, tail0, ramp, blocksize, lib);
      assert expected == AfterFilter(filtered, tail0, ramp, blocksize);
      if filtered.None? {
        assert expected.None?;
        return None;
      }
      assert expected == Mixed(tail, filtered.value, ramp, blocksize);
      var buffer := new real[|filtered.value|](i requires 0 <= i < |filtered.value| => filtered.value[i]);
      assert buffer[..] == filtered.value;
      var ok := MixSamples(tail, buffer, ramp, blocksize);
      if !ok {
        return None;
      }
      assert Some(buffer[..]) == expected;
      var cut := Min(blocksize, buffer.Length);
      tail := buffer[cut..];
      lastCallbackTime := currentTime;
      r := Some(buffer[..cut]);
    }
  }
}
