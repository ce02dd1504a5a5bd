/** The earlier player of src/sound.py: pen noise generated once from random
    draws and a fixed peak-filter chain, then played in blocks of 1000
    samples by a player that reads a window twice a block long, scales it
    by speed and pressure, crossfades the previous tail into it and hands
    out the first `frames` samples. */
module PrototypeSound {
  import opened Wrappers
  import opened Numerics
  import opened Utils
  import opened Filters
  import opened SoundSources

  /** `self.blocksize`. */
  const PROTOTYPE_BLOCKSIZE := 1000

  /** The peak level `generate_pen_noise` rescales its output to. */
  const NOISE_PEAK := 0.55

  /** `range(int(duration * frequency))`: `int` truncates toward zero, and a
      negative count draws nothing. */
  function SampleCount(duration: real, frequency: real): (n: nat)
    ensures duration * frequency >= 0.0 ==> n as real <= duration * frequency < n as real + 1.0
    ensures duration * frequency < 1.0 ==> n == 0
  {
    var x := duration * frequency;
    if x < 0.0 then 0 else x.Floor
  }

  /** The noise drawn from `random.random()` values: `draw * 2 - 1`. */
  function Noise(draws: seq<real>): (r: seq<real>)
    ensures |r| == |draws|
  {
    seq(|draws|, i requires 0 <= i < |draws| => draws[i] * 2.0 - 1.0)
  }

  /** Draws from `[0, 1)` give noise in `[-1, 1)`, and the map is one to one. */
  lemma NoiseRange(draws: seq<real>, i: nat)
    requires i < |draws|
    ensures 0.0 <= draws[i] < 1.0 ==> -1.0 <= Noise(draws)[i] < 1.0
    ensures (Noise(draws)[i] + 1.0) / 2.0 == draws[i]
  {
  }

  /** The drawing loop of `generate_pen_noise`, `random.random()` supplying
      the values of `draws` in order. */
  method DrawNoise(count: nat, draws: seq<real>) returns (samples: seq<real>)
    requires count <= |draws|
    ensures samples == Noise(draws[..count])
  {
    samples := [];
    var i := 0;
    while i < count
      invariant 0 <= i <= count
      invariant samples == Noise(draws[..i])
    {
      var noise := draws[i] * 2.0 - 1.0;
      samples := samples + [noise];
      i := i + 1;
      assert draws[..i] == draws[..i - 1] + [draws[i - 1]];
    }
  }

  /** The seven peak filters `generate_pen_noise` applies. */
  const PEN_NOISE_FILTERS: seq<Filter> := [
    Peak(-100.0, 0.0, 25000.0, 38000.0, -0.94),
    Peak(-300.0, 570.0, 980.0, 2800.0, 12.0),
    Peak(0.0, 100.0, 100.0, 150.0, 1.0),
    Peak(650.0, 700.0, 720.0, 1320.0, 12.0),
    Peak(70.0, 360.0, 360.0, 460.0, 1.5),
    Peak(2500.0, 3000.0, 3010.0, 3500.0, 0.6),
    Peak(8000.0, 8300.0, 15000.0, 18000.0, -0.9)
  ]

  /** Every one of the seven is accepted by the `PeakFilter` constructor,
      so the list is built without raising. */
  lemma PenNoiseFiltersAccepted()
    ensures AllWellFormed(PEN_NOISE_FILTERS)
    ensures forall k :: 0 <= k < |PEN_NOISE_FILTERS| ==>
              var f := PEN_NOISE_FILTERS[k];
              NewPeakFilter(f.lowerTarget, f.lowerSmooth, f.higherSmooth, f.higherTarget, f.gain) == Some(f)
  {
    forall k | 0 <= k < |PEN_NOISE_FILTERS|
      ensures PEN_NOISE_FILTERS[k].Peak? && PEN_NOISE_FILTERS[k].BandOrdered()
    {
    }
  }

  /** `samples.max()`. */
  function MaxOf(s: seq<real>): (m: real)
    requires |s| > 0
    ensures forall i :: 0 <= i < |s| ==> s[i] <= m
    ensures exists i :: 0 <= i < |s| && s[i] == m
  {
    if |s| == 1 then s[0]
    else
      var rest := MaxOf(s[1..]);
      assert forall i :: 1 <= i < |s| ==> s[i] == s[1..][i - 1];
      if s[0] >= rest then s[0] else rest
  }

  /** `samples.min()`. */
  function MinOf(s: seq<real>): (m: real)
    requires |s| > 0
    ensures forall i :: 0 <= i < |s| ==> m <= s[i]
    ensures exists i :: 0 <= i < |s| && s[i] == m
  {
    if |s| == 1 then s[0]
    else
      var rest := MinOf(s[1..]);
      assert forall i :: 1 <= i < |s| ==> s[i] == s[1..][i - 1];
      if s[0] <= rest then s[0] else rest
  }

  /** `max(abs(samples.max()), abs(samples.min()))`. */
  function Amplitude(s: seq<real>): (a: real)
    requires |s| > 0
    ensures a >= 0.0
  {
    var hi, lo := Abs(MaxOf(s)), Abs(MinOf(s));
    if hi >= lo then hi else lo
  }

  /** The amplitude is the largest magnitude of any sample, and some sample
      reaches it. */
  lemma AmplitudeIsLargestMagnitude(s: seq<real>)
    requires |s| > 0
    ensures forall i :: 0 <= i < |s| ==> Abs(s[i]) <= Amplitude(s)
    ensures exists i :: 0 <= i < |s| && Abs(s[i]) == Amplitude(s)
  {
    var hi, lo := MaxOf(s), MinOf(s);
    var i :| 0 <= i < |s| && s[i] == hi;
    var j :| 0 <= j < |s| && s[j] == lo;
    if Abs(hi) >= Abs(lo) {
      assert Abs(s[i]) == Amplitude(s);
    } else {
      assert Abs(s[j]) == Amplitude(s);
    }
  }

  /** The rescaling step, `samples * (0.55 / max_amplitude)`; `None` where
      `samples.max()` raises on an empty array, and where the amplitude is
      zero (numpy then yields NaN rather than raising). */
  function Rescaled(s: seq<real>): Option<seq<real>>
  {
    if |s| == 0 || Amplitude(s) == 0.0 then None
    else Some(ScaleAll(s, NOISE_PEAK / Amplitude(s)))
  }

  /** After rescaling, no sample is louder than 0.55 and the loudest is
      exactly 0.55; only empty or silent input cannot be rescaled. */
  lemma RescaledPeak(s: seq<real>)
    ensures Rescaled(s).None? <==> AllZero(s)
    ensures Rescaled(s).Some? ==>
              var r := Rescaled(s).value;
              |r| == |s|
              && (forall i :: 0 <= i < |r| ==> Abs(r[i]) <= NOISE_PEAK)
              && (exists i :: 0 <= i < |r| && Abs(r[i]) == NOISE_PEAK)
  {
    if |s| > 0 {
      AmplitudeIsLargestMagnitude(s);
      if Amplitude(s) == 0.0 {
        assert AllZero(s);
      } else {
        var j :| 0 <= j < |s| && Abs(s[j]) == Amplitude(s);
        assert s[j] != 0.0;
        ScaledBounds(s);
      }
    }
  }

  /** Scaling by `0.55 / amplitude` brings every sample within 0.55 and
      the loudest one to 0.55. */
  lemma ScaledBounds(s: seq<real>)
    requires |s| > 0 && Amplitude(s) != 0.0
    ensures var r := ScaleAll(s, NOISE_PEAK / Amplitude(s));
            && (forall i :: 0 <= i < |r| ==> Abs(r[i]) <= NOISE_PEAK)
            && (exists i :: 0 <= i < |r| && Abs(r[i]) == NOISE_PEAK)
  {
    AmplitudeIsLargestMagnitude(s);
    var m := Amplitude(s);
    var k := NOISE_PEAK / m;
    assert m > 0.0;
    ScaledWithin(s, m, k);
  }

  lemma ScaledWithin(s: seq<real>, m: real, k: real)
    requires m > 0.0 && k == NOISE_PEAK / m
    requires forall i :: 0 <= i < |s| ==> Abs(s[i]) <= m
    requires exists i :: 0 <= i < |s| && Abs(s[i]) == m
    ensures var r := ScaleAll(s, k);
            && (forall i :: 0 <= i < |r| ==> Abs(r[i]) <= NOISE_PEAK)
            && (exists i :: 0 <= i < |r| && Abs(r[i]) == NOISE_PEAK)
  {
    ScaledBelowPeak(s, m, k);
    var j :| 0 <= j < |s| && Abs(s[j]) == m;
    ScaledAtPeak(s, m, k, j);
  }

  lemma ScaledBelowPeak(s: seq<real>, m: real, k: real)
    requires m > 0.0 && k == NOISE_PEAK / m
    requires forall i :: 0 <= i < |s| ==> Abs(s[i]) <= m
    ensures forall i :: 0 <= i < |s| ==> Abs(ScaleAll(s, k)[i]) <= NOISE_PEAK
  {
    forall i | 0 <= i < |s| ensures Abs(ScaleAll(s, k)[i]) <= NOISE_PEAK {
      assert ScaleAll(s, k)[i] == s[i] * k;
      ScaledMagnitude(s[i], m, k);
    }
  }

  lemma ScaledAtPeak(s: seq<real>, m: real, k: real, j: nat)
    requires m > 0.0 && k == NOISE_PEAK / m
    requires j < |s| && Abs(s[j]) == m
    ensures Abs(ScaleAll(s, k)[j]) == NOISE_PEAK
  {
    assert ScaleAll(s, k)[j] == s[j] * k;
    ScaledMagnitude(s[j], m, k);
  }

  /** With `k == 0.55 / m`, `|x * k|` is at most 0.55 when `|x| <= m`, and
      exactly 0.55 when `|x| == m`. */
  lemma ScaledMagnitude(x: real, m: real, k: real)
    requires m > 0.0 && k == NOISE_PEAK / m && Abs(x) <= m
    ensures Abs(x * k) <= NOISE_PEAK
    ensures Abs(x) == m ==> Abs(x * k) == NOISE_PEAK
  {
    QuotientProduct(NOISE_PEAK, m);
    MulMonotone(Abs(x), m, k);
    if x < 0.0 {
      MulMonotone(x, 0.0, k);
      assert Abs(x * k) == Abs(x) * k;
    } else {
      MulMonotone(0.0, x, k);
      assert Abs(x * k) == Abs(x) * k;
    }
  }

  /** `generate_pen_noise` from its drawn noise: filtered with the seven
      peak filters over `fftfreq(n, d=1/frequency)`, then rescaled. `None`
      where the source raises: `fftfreq` of no samples or at frequency 0
      divides by zero, a filter raises on a size mismatch, or there is no
      amplitude to rescale by. */
  function PenNoise(noise: seq<real>, frequency: real, lib: Library): Option<WavData>
  {
    PenNoiseFiltersAccepted();
    if |noise| == 0 || frequency == 0.0 then None
    else match FilterSignal(noise, FftFreq(|noise|, frequency), PEN_NOISE_FILTERS, lib)
      case None => None
      case Some(filtered) =>
        match Rescaled(filtered)
        case None => None
        case Some(samples) => Some(WavData(frequency, samples))
  }

  /** `generate_pen_noise(duration, frequency)`, with `draws` standing for
      the values `random.random()` returns. */
  method GeneratePenNoise(duration: real, frequency: real, draws: seq<real>, lib: Library)
    returns (r: Option<WavData>)
    requires SampleCount(duration, frequency) <= |draws|
    ensures r == PenNoise(Noise(draws[..SampleCount(duration, frequency)]), frequency, lib)
  {
    var samples := DrawNoise(SampleCount(duration, frequency), draws);
    if |samples| == 0 || frequency == 0.0 {
      return None;
    }
    PenNoiseFiltersAccepted();
    var filtered := ApplyFilter(samples, FftFreq(|samples|, frequency), PEN_NOISE_FILTERS, lib);
    if filtered.None? {
      return None;
    }
    var rescaled := Rescaled(filtered.value);
    if rescaled.None? {
      return None;
    }
    r := Some(WavData(frequency, rescaled.value));
  }

  /** The generated sound plays at `frequency` and peaks at exactly 0.55. */
  lemma PenNoiseLevel(noise: seq<real>, frequency: real, lib: Library)
    ensures PenNoise(noise, frequency, lib).Some? ==>
              var sound := PenNoise(noise, frequency, lib).value;
              sound.samplerate == frequency
              && (forall i :: 0 <= i < |sound.samples| ==> Abs(sound.samples[i]) <= NOISE_PEAK)
              && (exists i :: 0 <= i < |sound.samples| && Abs(sound.samples[i]) == NOISE_PEAK)
  {
    PenNoiseFiltersAccepted();
    if PenNoise(noise, frequency, lib).Some? {
      var filtered := FilterSignal(noise, FftFreq(|noise|, frequency), PEN_NOISE_FILTERS, lib).value;
      RescaledPeak(filtered);
    }
  }

  /** With no filter in the list, a block is only the inverse transform of
      its transform. */
  function Unfiltered(samples: seq<real>, lib: Library): seq<real>
  {
    lib.ifftReal(lib.fft(samples))
  }

  /** The prototype's empty filter list never raises: `apply_filter` always
      returns the transform round trip. */
  lemma EmptyFilterListNeverRaises(samples: seq<real>, frequencies: seq<real>, lib: Library)
    ensures FilterSignal(samples, frequencies, [], lib) == Some(Unfiltered(samples, lib))
  {
  }

  /** Mixing a silent tail into a silent block gives silence. */
  lemma MixedSilence(a: seq<real>, b: seq<real>, ramp: seq<real>, blocksize: nat)
    requires AllZero(a) && AllZero(b)
    ensures Mixed(a, b, ramp, blocksize).Some? ==> AllZero(Mixed(a, b, ramp, blocksize).value)
  {
    var m := Mixed(a, b, ramp, blocksize);
    if m.Some? {
      forall i | 0 <= i < |m.value| ensures m.value[i] == 0.0 {
        if i < |ramp| {
          assert m.value[i] == a[i] * (1.0 - ramp[i]) + b[i] * ramp[i];
        }
      }
    }
  }

  /** `SoundPlayer` of src/sound.py. The input listener is read through the
      callback's parameters (`is_pressing`, `pressure` and the movement that
      `cursor_movement` returns). */
  class PrototypePlayer {
    const blocksize: nat
    /** `pencil_sound_data`. */
    const base: seq<real>
    const samplerate: real
    /** `__zero_to_one`: line 92 replaces line 91's ramp by a plain
        `linspace(0, 1, blocksize)`. */
    const ramp: seq<real>
    /** `__frequencies_cache`, for blocks of `2 * blocksize` samples. */
    const frequencies: seq<real>
    /** `__window_height_px`. */
    const heightPx: real
    var framesProcessed: nat
    var lastCallbackTime: real
    /** `__samples_as_last_callback`. */
    var tail: seq<real>

    predicate Valid()
    {
      blocksize > 0 && ramp == Linspace(blocksize) && frequencies == FftFreq(2 * blocksize, samplerate)
      && heightPx > 0.0
    }

    /** `SoundPlayer(input_data)`, over the generated pen noise `sound`. */
    constructor(sound: WavData, heightPx: real)
      requires sound.samplerate != 0.0 && heightPx > 0.0
      ensures Valid() && blocksize == PROTOTYPE_BLOCKSIZE && base == sound.samples && samplerate == sound.samplerate && this.heightPx == heightPx
      ensures framesProcessed == 0 && lastCallbackTime == 0.0 && tail == Zeros(blocksize)
    {
      base := sound.samples;
      samplerate := sound.samplerate;
      blocksize := PROTOTYPE_BLOCKSIZE;
      ramp := Linspace(PROTOTYPE_BLOCKSIZE);
      frequencies := FftFreq(2 * PROTOTYPE_BLOCKSIZE, sound.samplerate);
      this.heightPx := heightPx;
      framesProcessed := 0;
      lastCallbackTime := 0.0;
      tail := Zeros(PROTOTYPE_BLOCKSIZE);
    }

    /** The speed of the callback: `__getSpeed(deltaTime) * is_pressing`. */
    function CallbackSpeed(currentTime: real, isPressing: bool, movement: Point, lib: Library): (r: real)
      reads this`lastCallbackTime
      requires Valid()
      ensures 0.0 <= r <= 1.0
      ensures !isPressing ==> r == 0.0
    {
      Speed(currentTime - lastCallbackTime, Length(movement, lib), heightPx) * (if isPressing then 1.0 else 0.0)
    }

    /** The whole block the next callback renders, after the crossfade. */
    function Upcoming(frames: nat, currentTime: real, isPressing: bool, movement: Point, pressure: real, lib: Library)
      : Option<seq<real>>
      reads this
      requires Valid()
    {
      Render(Window(base, framesProcessed, 2 * frames), CallbackSpeed(currentTime, isPressing, movement, lib),
             pressure, tail, ramp, blocksize, lib)
    }

    /** What the next callback writes to `outdata`; `None` where it raises,
        including a block too short to fill `frames` samples. */
    function Next(frames: nat, currentTime: real, isPressing: bool, movement: Point, pressure: real, lib: Library)
      : Option<seq<real>>
      reads this
      requires Valid()
    {
      match Upcoming(frames, currentTime, isPressing, movement, pressure, lib)
      case None => None
      case Some(block) => if |block| < frames then None else Some(block[..frames])
    }

    /** `__getSamples(frames)`: the window at `frames_processed`, which then
        moves on by `frames // 2`. */
    method GetSamples(frames: nat) returns (window: seq<real>)
      modifies this
      ensures window == Window(base, old(framesProcessed), frames)
      ensures framesProcessed == old(framesProcessed) + frames / 2
      ensures lastCallbackTime == old(lastCallbackTime) && tail == old(tail)
    {
      window := Window(base, framesProcessed, frames);
      framesProcessed := framesProcessed + frames / 2;
    }

    /** `callback(outdata, frames, cffi_time, status)`. The window moves on
        by `frames` first; the tail and the callback time only change once
        `outdata` has been written. */
    method Callback(frames: nat, currentTime: real, isPressing: bool, movement: Point, pressure: real, lib: Library)
      returns (r: Option<seq<real>>)
      requires Valid()
      modifies this
      ensures r == old(Next(frames, currentTime, isPressing, movement, pressure, lib))
      ensures framesProcessed == old(framesProcessed) + frames
      ensures r.Some? ==>
                var block := old(Upcoming(frames, currentTime, isPressing, movement, pressure, lib)).value;
                tail == block[frames..] && lastCallbackTime == currentTime
      ensures r.None? ==> tail == old(tail) && lastCallbackTime == old(lastCallbackTime)
    {
      ghost var window0 := Window(base, framesProcessed, 2 * frames);
      ghost var speed0 := CallbackSpeed(currentTime, isPressing, movement, lib);
      ghost var tail0 := tail;
      ghost var expected := Render(window0, speed0, pressure, tail0, ramp, blocksize, lib);
      assert expected == Upcoming(frames, currentTime, isPressing, movement, pressure, lib);
      var allSamples := GetSamples(frames * 2);
      DivModUnique(frames * 2, 2, frames, 0);
      var speed := CallbackSpeed(currentTime, isPressing, movement, lib);
      assert allSamples == window0 && speed == speed0;
      var scaled := ScaleAll(allSamples, speed * Lerp(pressure, 0.3, 1.0));
      var filtered := ApplyFilter(scaled, frequencies, [], lib);
      EmptyFilterListNeverRaises(scaled, frequencies, lib);
      ghost var block := filtered.value;
      assert expected == Render(allSamples, speed, pressure, tail0, ramp, blocksize, lib);
      RenderSteps(allSamples, speed, pressure, tail0, ramp, blocksize, lib);
      assert expected == Mixed(tail0, block, ramp, blocksize);
      var buffer := new real[|filtered.value|](i requires 0 <= i < |filtered.value| => filtered.value[i]);
      assert buffer[..] == block;
      var ok := MixSamples(tail, buffer, ramp, blocksize);
      if !ok || buffer.Length < frames {
        return None;
      }
      assert buffer[..] == Mixed(tail0, block, ramp, blocksize).value;
      r := Some(buffer[..frames]);
      tail := buffer[frames..];
      lastCallbackTime := currentTime;
    }
  }

  /** One callback's block from its window: scaled by `speed` and by
      `lerp(pressure, 0.3, 1.0)`, passed through `apply_filter` with no
      filter, then crossfaded with the previous tail. */
  function Render(window: seq<real>, speed: real, pressure: real, tail: seq<real>, ramp: seq<real>, blocksize: nat,
                  lib: Library): Option<seq<real>>
  {
    Mixed(tail, Unfiltered(ScaleAll(window, speed * Lerp(pressure, 0.3, 1.0)), lib), ramp, blocksize)
  }

  lemma RenderSteps(window: seq<real>, speed: real, pressure: real, tail: seq<real>, ramp: seq<real>, blocksize: nat,
                    lib: Library)
    ensures Render(window, speed, pressure, tail, ramp, blocksize, lib)
         == Mixed(tail, Unfiltered(ScaleAll(window, speed * Lerp(pressure, 0.3, 1.0)), lib), ramp, blocksize)
  {
  }

  /** Not pressing is silent: the speed is multiplied by `is_pressing`, so
      with a silent tail and a transform pair that maps silence to silence
      every sample the callback renders is 0. */
  lemma NotPressingIsSilent(p: PrototypePlayer, frames: nat, currentTime: real, movement: Point, pressure: real,
                            lib: Library)
    requires p.Valid() && KeepsSilence(lib) && AllZero(p.tail)
    ensures p.Upcoming(frames, currentTime, false, movement, pressure, lib).Some? ==>
              AllZero(p.Upcoming(frames, currentTime, false, movement, pressure, lib).value)
  {
    var window := Window(p.base, p.framesProcessed, 2 * frames);
    assert p.CallbackSpeed(currentTime, false, movement, lib) == 0.0;
    var scaled := ScaleAll(window, 0.0 * Lerp(pressure, 0.3, 1.0));
    assert AllZero(scaled);
    assert Silent(lib.fft(scaled));
    RenderSteps(window, 0.0, pressure, p.tail, p.ramp, p.blocksize, lib);
    MixedSilence(p.tail, Unfiltered(scaled, lib), p.ramp, p.blocksize);
  }

  /** The callback fails exactly when the shapes do not fit: the tail and
      the unfiltered block must both cover the ramp, and the block must hold
      `frames` samples. */
  lemma CallbackFailsOnShapes(window: seq<real>, speed: real, pressure: real, tail: seq<real>, blocksize: nat,
                              frames: nat, lib: Library)
    requires blocksize > 0
    ensures var block := Unfiltered(ScaleAll(window, speed * Lerp(pressure, 0.3, 1.0)), lib);
            var out := Render(window, speed, pressure, tail, Linspace(blocksize), blocksize, lib);
            (out.Some? && |out.value| >= frames) <==>
              (|tail| == blocksize && |block| >= blocksize && |block| >= frames)
  {
    RenderSteps(window, speed, pressure, tail, Linspace(blocksize), blocksize, lib);
  }
}
