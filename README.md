# brush_sfx in Dafny

brush_sfx is a Krita plug-in that plays a drawing sound while the user
paints. It has three generations:

- **BrushSfx/** is the current one. An input listener follows the pen or
  mouse on the canvas. Sound sources turn a looping base sound (pen noise or
  a pencil recording) into blocks. Each block is scaled by stroke speed and
  pressure, shaped by spectral peak filters and crossfaded with the previous
  block. A playback engine routes every audio callback to the brush sound,
  the eraser sound or silence, then applies the volume curve and the
  tool gate. A line store keeps the sound settings of each brush preset.
- **src/** is the prototype. It has the filter stage, a player built on
  generated pen noise, and a first stroke listener and looping player.
- **brush_sfx/sound.py** is the oldest reader and `smoothstep` helper.

The model has one module per source file:

| module | file |
|---|---|
| `Utils` | BrushSfx/utils.py, src/__init__.py, the `clamp` of brush_sfx/sound.py |
| `Filters` | src/filter.py |
| `SoundSources` | BrushSfx/sound_source.py |
| `Engine` | BrushSfx/sound.py |
| `Input` | BrushSfx/input.py |
| `Resources` | BrushSfx/resources.py |
| `PrototypeSound` | src/sound.py |
| `PrototypeListener` | src/brush_sfx.py |
| `LegacySound` | brush_sfx/sound.py |

`Numerics` and `Wrappers` hold shared values: complex bins, the foreign
numeric library, and `Option`.

How the source's behaviour is represented:

- Samples, gains and frequencies are `real`.
- Python exceptions become `None`. This covers numpy shape errors, a filter
  size mismatch, the band-pass filter, an empty array's `max()`, and a
  preset line with too few fields (`Malformed`).
- Objects whose fields change become classes. Their methods are proved
  against pure functions of the old state (`Next`, `Upcoming`, `StrokeStep`,
  `Saved`, `Removed`, `Step`), and the lemmas are stated over those
  functions.
- The filter `apply` loops and `_mix_samples` work in place on arrays.
- `math.sqrt`, `math.pow`, `np.fft.fft` and the real part of `np.fft.ifft`
  are a `Library` value passed in. Every property holds for any such
  functions. Where a lemma needs more, such as "silence in, silence out",
  it says so in its `requires`.
- Clocks, random draws, the screen height and Python's float text
  formatting are parameters.

## Model

| member | source | states |
|---|---|---|
| `Utils.Clamp` | BrushSfx/utils.py:60-65 | with lower ≤ upper the result lies in [lower, upper]; inside the range it is x itself; below it, lower; above it, upper. The copies at src/__init__.py:17-22 and brush_sfx/sound.py:38-43 are the same code |
| `Utils.ClampIdempotent` | src/__init__.py:17-22 | clamping a clamped value changes nothing |
| `Utils.ClampMonotone` | brush_sfx/sound.py:38-43 | clamp keeps the order of its arguments |
| `Utils.Lerp` | BrushSfx/utils.py:48-50 | t is clamped first, so t ≤ 0 gives a, t ≥ 1 gives b, and every result lies between a and b (same code at src/__init__.py:6-8) |
| `Utils.SmoothLerp` | BrushSfx/utils.py:54-57 | the same endpoints as lerp, and the eased result stays between a and b (same code at src/__init__.py:11-14) |
| `Utils.SmoothCurveRange` | src/__init__.py:11-14 | the ease curve t²(3−2t) maps [0, 1] into [0, 1] and fixes 0 and 1 |
| `Utils.SmoothCurveMonotone` | BrushSfx/utils.py:56 | the ease curve never decreases on [0, 1] |
| `Utils.LerpArray` | src/__init__.py:25-27 | `np.clip` then lerp keeps the length and agrees entry by entry with the scalar `lerp` (same code at BrushSfx/utils.py:68-70) |
| `Utils.SmoothLerpArray` | BrushSfx/utils.py:72-75 | keeps the length and agrees entry by entry with the scalar `smooth_lerp` (same code at src/__init__.py:29-32) |
| `Utils.PlusMinusInverse` | BrushSfx/utils.py:21-25 | componentwise `-` undoes componentwise `+` |
| `Utils.TimesDividedByInverse` | BrushSfx/utils.py:27-31 | dividing by a non-zero scalar undoes multiplying by it |
| `Utils.DotSymmetricLinear` | BrushSfx/utils.py:18-28 | `dot` is symmetric, and linear in its first argument under `+` and scalar `*` |
| `Filters.NewPeakFilter` | src/filter.py:62-71 | the constructor succeeds exactly when lower_target ≤ lower_smooth ≤ higher_smooth ≤ higher_target, and the filter it builds keeps the given edges and gain |
| `Filters.Filter.Apply` | src/filter.py:11-83 | fails exactly when the spectrum and frequency sizes differ or the filter is a band-pass, and then leaves every bin untouched; otherwise the array becomes the filtered spectrum, bin by bin |
| `Filters.Filter.BinAfter` | src/filter.py:20-83 | one iteration of the subclass loop, dispatched on the kind of filter, computes the filtered bin |
| `Filters.Filter.PeakBin` | src/filter.py:76-83 | one iteration of `PeakFilter.apply` adds gain·w times the bin, w being the peak band weight of its frequency |
| `Filters.Filter.LowPassBin` | src/filter.py:26-32 | one iteration of `LowPassFilter.apply` scales a bin above pass_freq by the low-pass factor and leaves any other bin as it is |
| `Filters.Filter.HighPassBin` | src/filter.py:46-50 | one iteration of `HighPassFilter.apply` scales a bin below pass_freq by the high-pass factor and leaves any other bin as it is |
| `Filters.PeakWeight` | src/filter.py:76-82 | a peak filter's band weight lies in [0, 1] |
| `Filters.LowPassWeight` | src/filter.py:26-29 | the low-pass factor lies in [0, 1] |
| `Filters.HighPassWeight` | src/filter.py:46-49 | the high-pass factor lies in [0, 1] |
| `Filters.Filtered` | src/filter.py:11-13 | `apply` raises exactly on a size mismatch or for a band-pass filter; otherwise the spectrum keeps its size |
| `Filters.ApplyFilter` | src/filter.py:86-103 | running the filters in place on one shared array, in list order, then inverting gives the chained result, or `None` at the first filter that raises |
| `Filters.ChainAppend` | src/filter.py:91-92 | running a list `a ++ b` means running `a`, then `b` on its result: the filters compose left to right |
| `Filters.ChainOutcome` | src/filter.py:91-92 | a chain raises exactly when it is non-empty and either the sizes differ or some filter is a band-pass; otherwise the spectrum keeps its size |
| `Filters.PeakWeightPlateau` | src/filter.py:77-82 | strictly between lower_smooth and higher_smooth the peak weight is exactly 1 |
| `Filters.PeakWeightOutsideBand` | src/filter.py:78-81 | at or below lower_target the weight is 0, and so it is at or above higher_target once past lower_smooth |
| `Filters.PeakBinScales` | src/filter.py:83 | adding gain·w times a bin to it multiplies the bin by 1 + gain·w |
| `Filters.PeakZeroGainIsIdentity` | src/filter.py:73-83 | a peak filter with gain 0 returns the spectrum unchanged |
| `Filters.LowPassBands` | src/filter.py:20-32 | with cutoff > pass_freq, bins at or below pass_freq pass untouched and bins at or above cutoff become 0 |
| `Filters.HighPassBands` | src/filter.py:41-50 | with cutoff < pass_freq, bins at or above pass_freq pass untouched and bins at or below cutoff become 0 |
| `Filters.StackedPeaks` | src/filter.py:91-92 | two peak filters on one band scale a bin by the first factor and then by the second, both with the same band weight; the product of the factors differs from the single factor with the summed gain whenever both gains and the weight are non-zero |
| `Filters.ChainKeepsSilence` | src/filter.py:86-94 | a silent spectrum stays silent through any chain that does not raise |
| `Filters.EmptyChainRoundTrip` | src/filter.py:88-94 | with no filter, `apply_filter` returns its input whenever the library's transform pair round-trips on it |
| `Filters.FftFreq` | BrushSfx/sound_source.py:99 | `fftfreq(n, 1/samplerate)` has n bins |
| `Filters.FftFreqBelowNyquist` | BrushSfx/sound_source.py:150 | bin 0 is 0 Hz and no bin lies beyond samplerate / 2 |
| `SoundSources.Linspace` | BrushSfx/sound_source.py:68 | `linspace(0, 1, num)` has num points |
| `SoundSources.LinspaceShape` | BrushSfx/sound_source.py:68 | the points start at 0, never decrease, stay within [0, 1] and end at 1 |
| `SoundSources.Ramp` | BrushSfx/sound_source.py:68-69 | the crossfade ramp has 2·(N // 2) entries |
| `SoundSources.RampShape` | BrushSfx/sound_source.py:68-69 | the ramp starts at 0, rises without going down, stays in [0, 1] and is exactly 1 over its second half |
| `SoundSources.Window` | BrushSfx/sound_source.py:121-124 | the rolled window has min(count, len) samples |
| `SoundSources.WindowOverlap` | BrushSfx/sound_source.py:170-173 | since the position moves by N while 2N samples are read, the second half of one window is the first half of the next |
| `SoundSources.WindowLoops` | BrushSfx/sound_source.py:122 | the window depends on the position only modulo the base length: the base sound loops |
| `SoundSources.Speed` | BrushSfx/sound_source.py:126-134 | the speed always lies in [0, 1], with a zero time step counted as one second |
| `SoundSources.SpeedStill` | BrushSfx/sound_source.py:175-183 | no movement gives speed 0 |
| `SoundSources.SpeedMonotone` | BrushSfx/sound_source.py:126-134 | over a positive time step a longer movement is at least as fast, and ten screen heights per second or more gives full speed |
| `SoundSources.Mixed` | BrushSfx/sound_source.py:80-81 | mixing succeeds exactly when the tail, the ramp and `B[:blocksize]` have one length; `B` keeps its length and `B[blocksize:]` is unchanged |
| `SoundSources.MixCrossfade` | BrushSfx/sound_source.py:81 | each mixed sample lies between the old tail's and the new block's sample; it equals the old one where the ramp is 0 and the new one where it is 1 |
| `SoundSources.MixSamples` | BrushSfx/sound_source.py:80-81 | the in-place write turns `B` into the mixed block, and leaves `B` untouched when the shapes do not broadcast |
| `SoundSources.PenFilters` | BrushSfx/sound_source.py:108-112 | two well-formed peak filters on the same band, with gain 2 first and gain 6 second |
| `SoundSources.PenShiftRange` | BrushSfx/sound_source.py:108 | for speed in [0, 1] the band's lower edge moves between 600 Hz and 775 Hz (shift −50 + 175·speed²), and sits at 600 Hz when still |
| `SoundSources.PenStackingCompounds` | BrushSfx/sound_source.py:109-112 | the pen chain multiplies a bin by (1+2w)(1+6w), which is more than 1+8w wherever the band weight w is positive |
| `SoundSources.PencilFilters` | BrushSfx/sound_source.py:159-161 | one well-formed peak filter whose gain lies in [0, 2.5] |
| `SoundSources.PencilSoftIsFlat` | BrushSfx/sound_source.py:160 | up to half pressure the pencil filter leaves the spectrum unchanged; at full pressure its gain is 2.5 |
| `SoundSources.StillIsSilent` | BrushSfx/sound_source.py:113-115 | with speed 0 and a silent tail, every rendered sample is 0, given a transform pair that maps silence to silence |
| `SoundSources.RenderedLength` | BrushSfx/sound_source.py:80-81 | with an even block size N, a 2N-sample window, 2N bin frequencies, an N-sample tail and transforms that keep lengths, rendering never raises and yields 2N samples, so N are handed out and N are kept (lines 117-119) |
| `SoundSources.RenderedOddBlocksize` | BrushSfx/sound_source.py:68-69 | with an odd block size the ramp has N−1 entries against an N-sample tail, so the crossfade at line 81 cannot broadcast and rendering always raises |
| `SoundSources.StrideIndex` | BrushSfx/sound_source.py:29 | the slice `[0::step]` keeps ceil(n/step) samples, and sample i is `raw[i·step]` |
| `SoundSources.Normalised` | BrushSfx/sound_source.py:28-33 | normalising keeps ceil(n/channels) samples, each in [−1, 1) |
| `SoundSources.NormalisedSample` | BrushSfx/sound_source.py:32-33 | each normalised sample times 2^15 is the matching raw int16 sample |
| `SoundSources.SfxSource.Plain` | BrushSfx/sound_source.py:64-69 | the base source has the given block size, a 48 kHz rate and the eased ramp |
| `SoundSources.SfxSource.Pen` | BrushSfx/sound_source.py:86-101 | the pen source starts at position 0 and time 0 with a silent tail of N samples, at 48 kHz, with the bin frequencies of a 2N block |
| `SoundSources.SfxSource.Pencil` | BrushSfx/sound_source.py:137-152 | the pencil source takes the recording's rate and samples, and starts like the pen source |
| `SoundSources.SfxSource.TakeWindow` | BrushSfx/sound_source.py:121-124 | `__getSamples` returns the window at the old position and moves the position on by exactly N |
| `SoundSources.SfxSource.GetSamples` | BrushSfx/sound_source.py:103-119 | returns the first N samples of the rendered block; the base source returns N zeros and changes nothing; the position always moves by N; the tail becomes the rest of the block and the callback time becomes the current time only when rendering succeeds |
| `SoundSources.SfxSource.UpcomingSucceeds` | BrushSfx/sound_source.py:103-119 | for an even N, a base sound of at least 2N samples, an N-sample tail and length-keeping transforms, the next call succeeds, hands out N samples and leaves an N-sample tail for the call after |
| `SoundSources.SfxSource.UpcomingOddBlocksize` | BrushSfx/sound_source.py:68-69 | for an odd N every call of a pen or pencil source raises |
| `Engine.RouteOf` | BrushSfx/sound.py:61-66 | the brush source exactly when the eraser is not in use; the eraser source exactly when it is and eraser sounds are on; silence otherwise |
| `Engine.OutputGated` | BrushSfx/sound.py:68-75 | a delivered block has exactly the requested length; a closed tool gate silences it; an open gate multiplies each sample by the volume curve |
| `Engine.SilentRouteOutput` | BrushSfx/sound.py:66-75 | the silent route's BLOCKSIZE zeros pass exactly when the stream asks for BLOCKSIZE frames, and they come out as zeros |
| `Engine.SoundPlayer.constructor` | BrushSfx/sound.py:19-55 | volume 0, eraser sounds off, not playing, both gates 0, the twelve allowed tools, and one stream opened at the brush source's rate |
| `Engine.SoundPlayer.Callback` | BrushSfx/sound.py:58-75 | the cursor movement is read exactly once, before routing, on every route; the output is the routed source's block times the volume curve times the tool gate; a routed pen or pencil source moves its position by N and takes its new tail and callback time from the block it rendered (keeping them when rendering raises), a routed base source is unchanged, and the source that is not routed is left alone |
| `Engine.SoundPlayer.SetSoundSource` | BrushSfx/sound.py:77-81 | always swaps the brush source; opens a new stream exactly when the sample rate changes; keeps `is_playing` and every other setting |
| `Engine.SoundPlayer.RecreateStream` | BrushSfx/sound.py:89-100 | the new stream runs at the brush source's rate with BLOCKSIZE, and `is_playing` ends as it started |
| `Engine.SoundPlayer.EnableUseEraser` | BrushSfx/sound.py:83-84 | sets only the eraser-sound flag |
| `Engine.SoundPlayer.SetEraserSoundSource` | BrushSfx/sound.py:86-87 | swaps only the eraser source |
| `Engine.SoundPlayer.ListenToolChange` | BrushSfx/sound.py:102-104 | a checked tool sets the gate to 1 exactly when it is an allowed tool, otherwise to 0; an unchecked tool changes nothing |
| `Engine.SoundPlayer.ListenEraserMode` | BrushSfx/sound.py:106-107 | stores the eraser mode as 1 or 0 |
| `Engine.SoundPlayer.SetVolume` | BrushSfx/sound.py:112-113 | stores the value clamped to [0, 1], so a value already in range reads back unchanged |
| `Engine.SoundPlayer.StartPlaying` | BrushSfx/sound.py:115-117 | sets `is_playing` and starts the stream |
| `Engine.SoundPlayer.StopPlaying` | BrushSfx/sound.py:118-120 | clears `is_playing` and stops the stream |
| `Input.SecondReadIsStill` | BrushSfx/input.py:32-38 | reading the movement sets last-read to the cursor, so a second read with no event in between gives (0, 0); a read does not change the pressure |
| `Input.OffCanvasIgnored` | BrushSfx/input.py:46-47 | an event on anything but the canvas widget changes nothing |
| `Input.PressureGated` | BrushSfx/input.py:28-29 | the pressure reads 0 whenever the button is up, and a left release sets it to 0 and ends pressing |
| `Input.PressStartsStill` | BrushSfx/input.py:67-72 | a left press starts pressing at the event position, and the next movement read is (0, 0) |
| `Input.OtherButtonsIgnored` | BrushSfx/input.py:67-79 | presses and releases of any other button change nothing |
| `Input.MovesWhilePressing` | BrushSfx/input.py:48-53 | a move changes nothing when not pressing; while pressing it sets the cursor and keeps last-read |
| `Input.MovePressure` | BrushSfx/input.py:56-63 | a tablet move takes the event's pressure, marks tablet input and records the time; a mouse move sets pressure 1.0 and clears the mark only 0.1 s or more after the last tablet event |
| `Input.InputListener.constructor` | BrushSfx/input.py:7-17 | not pressing, cursor and last-read at (0, 0), pressure 0, no tablet, last tablet time now |
| `Input.InputListener.CursorMovement` | BrushSfx/input.py:31-38 | returns last-read minus cursor, then sets last-read to the cursor |
| `Input.InputListener.EventFilter` | BrushSfx/input.py:45-81 | the fields become the step of the event: moves while pressing, then a left press, then a left release |
| `Resources.Strip` | BrushSfx/resources.py:64 | the stripped text is no longer than the input and neither starts nor ends with whitespace |
| `Resources.StripIdempotent` | BrushSfx/resources.py:64 | text with nothing to strip is its own strip, and stripping twice is stripping once |
| `Resources.FindSeparator` | BrushSfx/resources.py:63 | finds the leftmost `;;`, or says that none exists |
| `Resources.Split` | BrushSfx/resources.py:63 | `split(";;")` always gives at least one field |
| `Resources.SplitJoin` | BrushSfx/resources.py:53-57 | splitting a joined record gives back its fields when no field contains `;` |
| `Resources.FirstMatch` | BrushSfx/resources.py:59-66 | finds the first line after the header whose stripped first field is the stripped preset name; no earlier line after the header matches, and `None` means no line after the header matches |
| `Resources.HeaderKept` | BrushSfx/resources.py:59-71 | saving and removing keep line 0; saving appends exactly one line when the preset is absent and keeps the length when present |
| `Resources.SaveTouchesOneLine` | BrushSfx/resources.py:68-71 | saving changes no line other than the preset's first line |
| `Resources.RemoveKeepsOrder` | BrushSfx/resources.py:96-106 | with no match the data is unchanged; otherwise exactly the first matching line is dropped and the others keep their order |
| `Resources.NotFoundMeansAbsent` | BrushSfx/resources.py:76-94 | `get_sfx` finds nothing exactly when no line after the header belongs to the preset |
| `Resources.DecodeFallbacks` | BrushSfx/resources.py:80-91 | fewer than five fields raise; otherwise `use_eraser` holds exactly when the stripped third field is not `0`, and an unparsable volume becomes 1.0 |
| `Resources.SerialiseFields` | BrushSfx/resources.py:53-57 | a saved line splits into the stripped name, the sfx id, `1`/`0`, the eraser sfx id and the volume text, it matches its preset, and it reads back as the same record |
| `Resources.SaveThenGet` | BrushSfx/resources.py:52-93 | round trip: after `save_sfx(name, config)`, `get_sfx(name)` returns the stripped name and `config`, provided the fields hold no `;` and the volume text parses back |
| `Resources.SaveIdempotent` | BrushSfx/resources.py:59-71 | saving the same preset twice gives the same lines as saving it once |
| `Resources.HeaderlessStoreLosesSave` | BrushSfx/resources.py:61-71 | with no header line, the first save lands at index 0, where lookups never look |
| `Resources.Repository.constructor` | BrushSfx/resources.py:35-37 | the repository holds the given lines |
| `Resources.Repository.LineMatches` | BrushSfx/resources.py:63-64 | decides whether a line belongs to the preset |
| `Resources.Repository.FindConfigIndex` | BrushSfx/resources.py:59-66 | the counter loop yields the first matching index after the header, or −1 |
| `Resources.Repository.SaveSfx` | BrushSfx/resources.py:52-72 | the lines become the saved lines: the first match replaced, or the record appended |
| `Resources.Repository.GetSfx` | BrushSfx/resources.py:76-94 | returns the lookup of the preset over the current lines |
| `Resources.Repository.RemoveSfx` | BrushSfx/resources.py:96-108 | the lines become the lines with the first match removed |
| `PrototypeSound.SampleCount` | src/sound.py:41 | `int(duration·frequency)` truncates: the count is the whole part of a non-negative product, and 0 below 1 |
| `PrototypeSound.NoiseRange` | src/sound.py:42 | a draw in [0, 1) gives noise in [−1, 1), and the map is one to one |
| `PrototypeSound.DrawNoise` | src/sound.py:40-43 | the loop builds the noise of the first `count` draws, in order |
| `PrototypeSound.PenNoiseFiltersAccepted` | src/sound.py:55-65 | all seven peak filters pass the constructor's band check |
| `PrototypeSound.MaxOf` | src/sound.py:70 | `max()` is at least every sample and equals one of them |
| `PrototypeSound.MinOf` | src/sound.py:70 | `min()` is at most every sample and equals one of them |
| `PrototypeSound.AmplitudeIsLargestMagnitude` | src/sound.py:70 | `max(abs(max), abs(min))` is the largest magnitude, and some sample reaches it |
| `PrototypeSound.RescaledPeak` | src/sound.py:70-71 | rescaling fails exactly on empty or all-zero input; otherwise no sample exceeds 0.55 in magnitude and the loudest is exactly 0.55 |
| `PrototypeSound.ScaledBounds` | src/sound.py:71 | scaling by 0.55 / amplitude bounds every sample by 0.55 and brings the loudest to 0.55 |
| `PrototypeSound.GeneratePenNoise` | src/sound.py:39-76 | draws `int(duration·frequency)` noise samples, filters them with the seven peak filters and rescales them; `None` where the source raises |
| `PrototypeSound.PenNoiseLevel` | src/sound.py:67-74 | the generated sound plays at `frequency` and peaks at exactly 0.55 |
| `PrototypeSound.EmptyFilterListNeverRaises` | src/sound.py:117-126 | the callback's empty filter list never raises: `apply_filter` gives the transform round trip |
| `PrototypeSound.MixedSilence` | src/sound.py:152-153 | mixing a silent tail into a silent block gives silence |
| `PrototypeSound.PrototypePlayer.constructor` | src/sound.py:80-106 | blocksize 1000, the plain `linspace` ramp of line 92, the bin frequencies of a 2000-sample block, position 0, time 0, a silent tail |
| `PrototypeSound.PrototypePlayer.CallbackSpeed` | src/sound.py:139-150 | the callback's speed lies in [0, 1], and it is 0 when not pressing (line 114) |
| `PrototypeSound.PrototypePlayer.GetSamples` | src/sound.py:134-137 | returns the window at the old position and moves the position by `frames // 2` |
| `PrototypeSound.PrototypePlayer.Callback` | src/sound.py:109-132 | outputs the first `frames` samples of the rendered block; the position moves by exactly `frames`; the tail and the callback time change only when the write succeeds |
| `PrototypeSound.NotPressingIsSilent` | src/sound.py:111-125 | when not pressing, with a silent tail, every rendered sample is 0, given a transform pair that maps silence to silence |
| `PrototypeSound.CallbackFailsOnShapes` | src/sound.py:128-131 | the callback fails exactly when the tail is not one block long, or the unfiltered block is shorter than a block or than `frames` |
| `PrototypeListener.PressPrecedence` | src/brush_sfx.py:58-62 | since `and` binds tighter than `or`, any tablet press starts pressing, while a mouse press does so only with the left button |
| `PrototypeListener.ReleasePrecedence` | src/brush_sfx.py:66-70 | any tablet release ends pressing; a mouse release ends it only with the left button |
| `PrototypeListener.StrayOnlyWhilePressing` | src/brush_sfx.py:73-84 | only a move while pressing writes the misspelled `__preassure` attribute; a tablet move stores the unbound method there |
| `PrototypeListener.PressureNeverChanges` | src/brush_sfx.py:42-84 | as written, no sequence of events ever changes `__pressure` |
| `PrototypeListener.TabletPressureLost` | src/brush_sfx.py:79-84 | counterexample: after a tablet press and a 0.25 tablet move, the pressure is still 1.0 as written, but 0.25 with the intended writes |
| `PrototypeListener.IntendedTracksPressure` | src/brush_sfx.py:79-84 | with the intended writes, a move while pressing records its pressure (1.0 for the mouse), and the button logic is the same as written |
| `PrototypeListener.StrokeListener.constructor` | src/brush_sfx.py:34-42 | not pressing, pressure 1.0 |
| `PrototypeListener.StrokeListener.EventFilter` | src/brush_sfx.py:56-87 | the fields become the as-written step of the event |
| `PrototypeListener.LoopPlayer.constructor` | src/brush_sfx.py:90-102 | plays the recording from position 0 |
| `PrototypeListener.LoopPlayer.Next` | src/brush_sfx.py:107-110 | the block is `base[(position + i) mod len]` for i < frames, and the write raises exactly when the sound is shorter than `frames` |
| `PrototypeListener.LoopPlayer.Callback` | src/brush_sfx.py:106-110 | outputs that block; the position moves by exactly `frames`, even when the write raises |
| `PrototypeListener.ContinuousPlayback` | src/brush_sfx.py:107-109 | two consecutive blocks together are the one block of both lengths: no gap and no repeat |
| `LegacySound.Smoothstep` | brush_sfx/sound.py:31-35 | fails exactly when the edges coincide (division by zero); otherwise it lies in [0, 1] |
| `LegacySound.SmoothstepEdges` | brush_sfx/sound.py:31-35 | with edge0 < edge1: 0 at or below edge0, 1 at or above edge1, and never decreasing |
| `LegacySound.SmoothstepReversed` | brush_sfx/sound.py:31-35 | with the edges swapped: 0 at or above edge0, 1 at or below edge1 |
| `LegacySound.LegacyKeepsFirstChannel` | brush_sfx/sound.py:19-24 | whatever the channel count, the reader keeps the even-indexed samples: ceil(n/2) of them, each `raw[2i] / 2^15` and in [−1, 1) |

## Left out

- Floating point: rounding, NaN, infinities and float32 storage are not modelled; all arithmetic is on `real`.
- `math.sqrt`, `math.pow`, `np.fft.fft` and `np.fft.ifft` are not defined: they are a `Library` parameter, and lemmas state what they need of it (a silent spectrum for silent input; a transform that keeps a block's length).
- `random.random` and `np.random.rand` are not modelled: the drawn values are a `draws` parameter.
- `time.time()` and `cffi_time.currentTime` are parameters (`now`, `currentTime`); the screen height is a constructor parameter.
- The audio I/O is not modelled: `wave.open`, `sd.OutputStream` and its `start`/`stop`. The reader starts from the decoded int16 samples. In `Engine` the stream is ghost state: its parameters, a started flag, and a count of streams opened.
- The prototype players' `startPlaying`/`stopPlaying` (src/sound.py:155-158, src/brush_sfx.py:116-119) only start and stop a stream and are not modelled.
- The Qt/Krita glue is not modelled: signal wiring, the docker widgets, extension registration and every `print`. The `eventFilter` return value (the base class's answer) is not modelled either.
- File access in BrushSfx/resources.py is not modelled (`__load_default`, `__init_file`, `__save_all_data`, the read in `__init__`). The repository is built from the already stripped lines. `config_version` is not part of this model.
- Python's float formatting and `float()` parsing are a `FloatCodec` parameter. `Resources.SaveThenGet` asks that the volume text parses back to the volume.
- Numpy broadcasting of a length-1 operand is not modelled. Any length mismatch in `_mix_samples` or the sample scaling counts as an error (`None`).
- `Filters.Filter.Apply` requires a low-pass or high-pass filter whose pass and cutoff frequencies differ. The source does compute that case: at src/filter.py:29 and :49 the division by a zero `smooth` is numpy float64 arithmetic, which gives ±inf (or NaN on the cutoff itself) instead of raising, so such a filter acts as a brick wall at its cutoff. The model does not cover infinite or NaN values.
- The `log` printing of `apply` and `apply_filter` is not modelled.
- src/sound.py's `generate_pen_noise` on all-zero filtered noise divides by a zero amplitude; numpy yields NaN there. The model returns `None` (`PrototypeSound.Rescaled`).
- `SoundSources.SfxSource.Pen` and `SoundSources.SfxSource.Pencil` take the generated noise or the decoded recording as a parameter. They require a positive block size, rate and screen height, which `fftfreq` and the speed divisions need.
- `PrototypeSound.PrototypePlayer.constructor` requires a non-zero sample rate and a positive screen height for the same reason.
- `Engine.SoundPlayer.constructor` takes both sources as parameters. The source builds a `PencilSFXSource()` without its block size and an `EraserSfx` that BrushSfx/sound_source.py does not define. Sources are used only through their rate and `get_samples`.
- The callbacks of `PrototypeSound.PrototypePlayer` take `is_pressing`, `pressure` and the cursor movement as parameters. Those come from src/input.py, which is not part of this model. The same holds for the destructive `cursor_movement` read inside `__getSpeed`.
- `PrototypeListener.StrokeListener` keeps only the fields events change. Its `@property` getters lack `self` and raise `TypeError` when used, so they are not modelled. `SoundPlayer.getFrames` (src/brush_sfx.py:112-113) lacks `self` and does nothing, so it is not modelled either.
- `Vector2.lenght`, `normalized` and `clamp_lenght`, and `qpoint_lenght` use `math.sqrt` and are not modelled.
- The pen filter band moves by −50 + 175·speed², as BrushSfx/sound_source.py:108 computes it; the model follows that line.
- BrushSfx/filter.py, which the BrushSfx modules import, is not part of this model. The filter stage is the one of src/filter.py.

## Findings

| source | as written | input that shows it | evidently intended | confidence | as-written member | corrected member |
|---|---|---|---|---|---|---|
| src/brush_sfx.py:79-84 | the move branches assign `self.__preassure` (misspelled, and line 80 stores the method `event.pressure` without calling it), so `__pressure` stays at its initial 1.0 forever | a tablet press, then a tablet move with pressure 0.25: the listener's pressure is still 1.0 | a tablet move records `event.pressure()` into `__pressure` and a mouse move records 1.0, as BrushSfx/input.py:56-62 later does | high, not executed | `PrototypeListener.TabletPressureLost` | `PrototypeListener.IntendedTracksPressure` |
