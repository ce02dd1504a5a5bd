/** The helpers of brush_sfx/sound.py, the oldest layout of the plug-in:
    the cubic `smoothstep` and a reader that keeps the first channel of a
    two-channel recording. Its `clamp` is the one of `Utils`. */
module LegacySound {
  import opened Wrappers
  import opened Utils
  import opened SoundSources

  /** `smoothstep(edge0, edge1, x)`: x scaled so that the edges go to 0 and
      1, clamped to [0, 1], then eased by the cubic curve; `None` where the
      scaling divides by zero, when the edges coincide. */
  function Smoothstep(edge0: real, edge1: real, x: real): (r: Option<real>)
    ensures r.None? <==> edge0 == edge1
    ensures r.Some? ==> 0.0 <= r.value <= 1.0
  {
    if edge0 == edge1 then None
    else
      var t := Clamp((x - edge0) / (edge1 - edge0), 0.0, 1.0);
      SmoothCurveRange(t);
      Some(SmoothCurve(t))
  }

  /** With `edge0 < edge1`: 0 at and below the first edge, 1 at and above
      the second, and never decreasing in between. */
  lemma SmoothstepEdges(edge0: real, edge1: real, x: real, y: real)
    requires edge0 < edge1 && x <= y
    ensures x <= edge0 ==> Smoothstep(edge0, edge1, x) == Some(0.0)
    ensures x >= edge1 ==> Smoothstep(edge0, edge1, x) == Some(1.0)
    ensures Smoothstep(edge0, edge1, x).value <= Smoothstep(edge0, edge1, y).value
  {
    var d := edge1 - edge0;
    QuotientSign(x - edge0, d);
    if x >= edge1 {
      DivMonotone(d, x - edge0, d);
      SelfQuotient(d);
    }
    DivMonotone(x - edge0, y - edge0, d);
    var s := Clamp((x - edge0) / d, 0.0, 1.0);
    var t := Clamp((y - edge0) / d, 0.0, 1.0);
    ClampMonotone((x - edge0) / d, (y - edge0) / d, 0.0, 1.0);
    SmoothCurveMonotone(s, t);
    SmoothCurveRange(0.0);
    SmoothCurveRange(1.0);
  }

  /** With the edges swapped the curve runs backwards: 1 at and below
      `edge1`, 0 at and above `edge0`. */
  lemma SmoothstepReversed(edge0: real, edge1: real, x: real)
    requires edge1 < edge0
    ensures x >= edge0 ==> Smoothstep(edge0, edge1, x) == Some(0.0)
    ensures x <= edge1 ==> Smoothstep(edge0, edge1, x) == Some(1.0)
  {
    var d := edge0 - edge1;
    assert (x - edge0) / (edge1 - edge0) == (edge0 - x) / d;
    QuotientSign(edge0 - x, d);
    if x <= edge1 {
      DivMonotone(d, edge0 - x, d);
      SelfQuotient(d);
    }
    SmoothCurveRange(0.0);
    SmoothCurveRange(1.0);
  }

  /** `generate_from_file(path)` once the file is read: the rate, and
      every second int16 sample (`[0::2]`) over 2**15. */
  function LegacyWav(samplerate: real, raw: seq<int16>): WavData
  {
    WavData(samplerate, Normalised(raw, 2))
  }

  /** The reader keeps the even-indexed samples, the first channel of an
      interleaved stereo file: `ceil(n / 2)` of them, each in [-1, 1). */
  lemma LegacyKeepsFirstChannel(samplerate: real, raw: seq<int16>)
    ensures var wav := LegacyWav(samplerate, raw);
            wav.samplerate == samplerate
            && |wav.samples| == (|raw| + 1) / 2
            && forall i :: 0 <= i < |wav.samples| ==>
                 2 * i < |raw| && wav.samples[i] * 32768.0 == raw[2 * i] as int as real
                 && -1.0 <= wav.samples[i] < 1.0
  {
    var wav := LegacyWav(samplerate, raw);
    forall i | 0 <= i < |wav.samples|
      ensures 2 * i < |raw| && wav.samples[i] * 32768.0 == raw[2 * i] as int as real
    {
      NormalisedSample(raw, 2, i);
      assert i * 2 == 2 * i;
    }
  }
}
