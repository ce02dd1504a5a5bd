/** The playback engine of BrushSfx/sound.py: the audio callback that routes
    each block to the brush source, the eraser source or silence, scales it
    by the volume curve and gates it by the active tool, and the setters and
    listeners that change what the callback does. The sounddevice output
    stream is ghost state: its parameters, whether it is started, and how
    many streams have been opened. */
module Engine {
  import opened Wrappers
  import opened Numerics
  import opened Utils
  import opened Input
  import opened SoundSources

  /** `BLOCKSIZE` of BrushSfx/constants.py. */
  const BLOCKSIZE: nat := 1000

  /** The Krita tools `listen_tool_change` can be told about: the twelve
      drawing tools of `allowed_tools` and every other tool. */
  datatype KritaTool =
    | SvgPath | SvgCalligraphy
    | PaintBrush | PaintLine | PaintRectangle | PaintEllipse | PaintPolygon
    | PaintPolyline | PaintPath | PaintPencil | PaintDynamicBrush | PaintMultiBrush
    | OtherTool(id: string)

  const ALLOWED_TOOLS: seq<KritaTool> := [
    SvgPath, SvgCalligraphy,
    PaintBrush, PaintLine, PaintRectangle, PaintEllipse, PaintPolygon,
    PaintPolyline, PaintPath, PaintPencil, PaintDynamicBrush, PaintMultiBrush
  ]

  /** An `sd.OutputStream`: its rate, its block size and whether it runs. */
  datatype Stream = Stream(samplerate: real, blocksize: nat, started: bool)

  /** Where a callback takes its samples from. */
  datatype Route = BrushRoute | EraserRoute | SilenceRoute

  /** The branch of `callback`: the brush unless the eraser is in use; the
      eraser source if it is and eraser sounds are on; silence otherwise. */
  function RouteOf(isUsingEraser: int, useEraserSfx: bool): (r: Route)
    ensures r == BrushRoute <==> isUsingEraser == 0
    ensures r == EraserRoute <==> isUsingEraser != 0 && useEraserSfx
    ensures r == SilenceRoute <==> isUsingEraser != 0 && !useEraserSfx
  {
    if isUsingEraser == 0 then BrushRoute
    else if useEraserSfx then EraserRoute
    else SilenceRoute
  }

  /** `math.pow(10, 3/10 * volume) - 1.0`. */
  function VolumeFactor(volume: real, lib: Library): real
  {
    lib.pow(10.0, 0.3 * volume) - 1.0
  }

  /** The block `callback` writes to the stream: `samples * factor * gate`.
      `None` where the callback raises: the source raised, the block is empty
      (the peak level taken of it has no maximum), or its length is not
      the `frames` the stream asked for. */
  function Output(samples: Option<seq<real>>, volume: real, gate: int, frames: nat, lib: Library): Option<seq<real>>
  {
    match samples
    case None => None
    case Some(block) =>
      var out := ScaleAll(ScaleAll(block, VolumeFactor(volume, lib)), gate as real);
      if |out| == 0 || |out| != frames then None else Some(out)
  }

  /** Whatever the source produced, a closed tool gate or a volume whose
      factor is 0 silences the block, and a delivered block has exactly the
      requested length. */
  lemma OutputGated(samples: Option<seq<real>>, volume: real, gate: int, frames: nat, lib: Library)
    requires Output(samples, volume, gate, frames, lib).Some?
    ensures |Output(samples, volume, gate, frames, lib).value| == frames > 0
    ensures gate == 0 || VolumeFactor(volume, lib) == 0.0 ==> AllZero(Output(samples, volume, gate, frames, lib).value)
    ensures gate == 1 ==> forall i :: 0 <= i < frames ==>
              Output(samples, volume, gate, frames, lib).value[i] == samples.value[i] * VolumeFactor(volume, lib)
  {
    var out := Output(samples, volume, gate, frames, lib).value;
    var k := VolumeFactor(volume, lib);
    forall i | 0 <= i < frames
      ensures out[i] == samples.value[i] * k * (gate as real)
    {
    }
  }

  /** The silent route produces a block of `BLOCKSIZE` zeros, which passes
      exactly when the stream asks for `BLOCKSIZE` frames. */
  lemma SilentRouteOutput(volume: real, gate: int, frames: nat, lib: Library)
    ensures Output(Some(Zeros(BLOCKSIZE)), volume, gate, frames, lib).Some? <==> frames == BLOCKSIZE
    ensures frames == BLOCKSIZE ==> AllZero(Output(Some(Zeros(BLOCKSIZE)), volume, gate, frames, lib).value)
  {
    var out := ScaleAll(ScaleAll(Zeros(BLOCKSIZE), VolumeFactor(volume, lib)), gate as real);
    assert |out| == BLOCKSIZE;
    forall i | 0 <= i < |out| ensures out[i] == 0.0 {
      assert out[i] == 0.0 * VolumeFactor(volume, lib) * (gate as real);
    }
  }

  /** `SoundPlayer`. */
  class SoundPlayer {
    var volume: real
    var brushSource: SfxSource
    var useEraserSfx: bool
    var eraserSource: SfxSource
    var isPlaying: bool
    var isUsingValidTool: int
    var isUsingEraser: int
    const input: InputListener
    const allowedTools: seq<KritaTool>
    ghost var stream: Stream
    ghost var streamsOpened: nat

    /** Everything but the stream: volume within [0, 1], the two flags 0 or
        1, both sources as their constructors leave them. */
    ghost predicate Settled()
      reads this
    {
      && 0.0 <= volume <= 1.0
      && isUsingValidTool in {0, 1}
      && isUsingEraser in {0, 1}
      && brushSource.Valid() && eraserSource.Valid()
    }

    /** The stream plays at the brush source's rate, with `BLOCKSIZE`, and
        runs exactly when `is_playing` says so. */
    ghost predicate Valid()
      reads this
    {
      Settled() && stream == Stream(brushSource.samplerate, BLOCKSIZE, isPlaying)
    }

    /** `SoundPlayer(input_data)`, given the two sources it creates. */
    constructor(input: InputListener, brush: SfxSource, eraser: SfxSource)
      requires brush.Valid() && eraser.Valid()
      ensures Valid()
      ensures this.input == input && brushSource == brush && eraserSource == eraser
      ensures volume == 0.0 && !useEraserSfx && !isPlaying && isUsingValidTool == 0 && isUsingEraser == 0
      ensures allowedTools == ALLOWED_TOOLS && streamsOpened == 1
    {
      volume := 0.0;
      brushSource := brush;
      useEraserSfx := false;
      eraserSource := eraser;
      isPlaying := false;
      isUsingValidTool := 0;
      isUsingEraser := 0;
      this.input := input;
      allowedTools := ALLOWED_TOOLS;
      stream := Stream(brush.samplerate, BLOCKSIZE, false);
      streamsOpened := 1;
    }

    /** The samples the routed source will hand out for this movement and
        pressure. */
    function RoutedSamples(currentTime: real, movement: Point, pressure: real, lib: Library): Option<seq<real>>
      reads this, brushSource, eraserSource
      requires Settled()
    {
      match RouteOf(isUsingEraser, useEraserSfx)
      case BrushRoute => brushSource.Next(currentTime, movement, pressure, lib)
      case EraserRoute => eraserSource.Next(currentTime, movement, pressure, lib)
      case SilenceRoute => Some(Zeros(BLOCKSIZE))
    }

    /** `callback(outdata, frames, cffi_time, status)`: the movement is read
        once, before routing, on every route; `None` where the callback
        raises. The player's own fields do not change; the routed source
        moves on as `get_samples` does, and the other keeps its state. */
    method Callback(frames: nat, currentTime: real, lib: Library) returns (r: Option<seq<real>>)
      requires Valid()
      modifies input, brushSource, eraserSource
      ensures input.State() == AfterRead(old(input.State()))
      ensures r == Output(old(RoutedSamples(currentTime, Movement(input.State()), ReadPressure(input.State()), lib)),
                          volume, isUsingValidTool, frames, lib)
      ensures RouteOf(isUsingEraser, useEraserSfx) == BrushRoute ==>
        if brushSource.kind == PlainSource then unchanged(brushSource)
        else brushSource.SteppedFrom(old(brushSource.framesProcessed), old(brushSource.tail), old(brushSource.lastCallbackTime),
               old(brushSource.Upcoming(currentTime, Movement(input.State()), ReadPressure(input.State()), lib)), currentTime)
      ensures RouteOf(isUsingEraser, useEraserSfx) == EraserRoute ==>
        if eraserSource.kind == PlainSource then unchanged(eraserSource)
        else eraserSource.SteppedFrom(old(eraserSource.framesProcessed), old(eraserSource.tail), old(eraserSource.lastCallbackTime),
               old(eraserSource.Upcoming(currentTime, Movement(input.State()), ReadPressure(input.State()), lib)), currentTime)
      ensures RouteOf(isUsingEraser, useEraserSfx) == SilenceRoute ==> unchanged(brushSource, eraserSource)
      ensures RouteOf(isUsingEraser, useEraserSfx) == BrushRoute && eraserSource != brushSource ==> unchanged(eraserSource)
      ensures RouteOf(isUsingEraser, useEraserSfx) == EraserRoute && eraserSource != brushSource ==> unchanged(brushSource)
    {
      var movement := input.CursorMovement();
      var pressure := input.Pressure();
      ghost var expected := RoutedSamples(currentTime, movement, pressure, lib);
      var samples: Option<seq<real>>;
      if isUsingEraser == 0 {
        samples := brushSource.GetSamples(currentTime, movement, pressure, lib);
      } else if useEraserSfx {
        samples := eraserSource.GetSamples(currentTime, movement, pressure, lib);
      } else {
        samples := Some(Zeros(BLOCKSIZE));
      }
      assert samples == expected;
      if samples.None? {
        return None;
      }
      var exponentialVolume := lib.pow(10.0, 0.3 * volume) - 1.0;
      assert exponentialVolume == VolumeFactor(volume, lib);
      var output := ScaleAll(ScaleAll(samples.value, exponentialVolume), isUsingValidTool as real);
      if |output| == 0 || |output| != frames {
        return None;
      }
      r := Some(output);
    }

    /** `setSoundSource(sound_source)`: the brush source is always swapped;
        the stream is rebuilt only when the sample rate changes. */
    method SetSoundSource(source: SfxSource)
      requires Valid() && source.Valid()
      modifies this
      ensures Valid() && brushSource == source
      ensures old(brushSource.samplerate) != source.samplerate ==> streamsOpened == old(streamsOpened) + 1
      ensures old(brushSource.samplerate) == source.samplerate ==> stream == old(stream) && streamsOpened == old(streamsOpened)
      ensures isPlaying == old(isPlaying) && volume == old(volume) && eraserSource == old(eraserSource)
      ensures useEraserSfx == old(useEraserSfx) && isUsingValidTool == old(isUsingValidTool)
      ensures isUsingEraser == old(isUsingEraser)
    {
      var previousSamplerate := brushSource.samplerate;
      brushSource := source;
      if previousSamplerate != brushSource.samplerate {
        RecreateStream();
      }
    }

    /** `__recreateStream()`: stop, open a new stream at the brush source's
        rate, and start it again if it was playing. */
    method RecreateStream()
      requires Settled()
      modifies this
      ensures Valid() && isPlaying == old(isPlaying)
      ensures streamsOpened == old(streamsOpened) + 1
      ensures brushSource == old(brushSource) && eraserSource == old(eraserSource)
      ensures volume == old(volume) && useEraserSfx == old(useEraserSfx)
      ensures isUsingValidTool == old(isUsingValidTool) && isUsingEraser == old(isUsingEraser)
    {
      var wasPlaying := isPlaying;
      StopPlaying();
      stream := Stream(brushSource.samplerate, BLOCKSIZE, false);
      streamsOpened := streamsOpened + 1;
      if wasPlaying {
        StartPlaying();
      }
    }

    method EnableUseEraser(enable: bool)
      modifies this
      ensures useEraserSfx == enable
      ensures old(Valid()) ==> Valid()
      ensures volume == old(volume) && brushSource == old(brushSource) && eraserSource == old(eraserSource)
      ensures isPlaying == old(isPlaying) && isUsingValidTool == old(isUsingValidTool) && isUsingEraser == old(isUsingEraser)
      ensures stream == old(stream) && streamsOpened == old(streamsOpened)
    {
      useEraserSfx := enable;
    }

    method SetEraserSoundSource(source: SfxSource)
      requires source.Valid()
      modifies this
      ensures eraserSource == source
      ensures old(Valid()) ==> Valid()
      ensures volume == old(volume) && brushSource == old(brushSource) && useEraserSfx == old(useEraserSfx)
      ensures isPlaying == old(isPlaying) && isUsingValidTool == old(isUsingValidTool) && isUsingEraser == old(isUsingEraser)
      ensures stream == old(stream) && streamsOpened == old(streamsOpened)
    {
      eraserSource := source;
    }

    /** `listen_tool_change(tool_id, is_checked)`: only a checked tool
        changes the gate, to 1 for an allowed tool and 0 for any other. */
    method ListenToolChange(tool: KritaTool, isChecked: bool)
      modifies this
      ensures isChecked ==> (isUsingValidTool == 1 <==> tool in allowedTools)
      ensures isChecked ==> isUsingValidTool in {0, 1}
      ensures !isChecked ==> isUsingValidTool == old(isUsingValidTool)
      ensures old(Valid()) ==> Valid()
      ensures volume == old(volume) && brushSource == old(brushSource) && eraserSource == old(eraserSource)
      ensures useEraserSfx == old(useEraserSfx) && isPlaying == old(isPlaying) && isUsingEraser == old(isUsingEraser)
      ensures stream == old(stream) && streamsOpened == old(streamsOpened)
    {
      if isChecked {
        isUsingValidTool := if tool in allowedTools then 1 else 0;
      }
    }

    /** `listen_eraser_mode(is_using_eraser)`. */
    method ListenEraserMode(usingEraser: bool)
      modifies this
      ensures isUsingEraser == (if usingEraser then 1 else 0)
      ensures old(Valid()) ==> Valid()
      ensures volume == old(volume) && brushSource == old(brushSource) && eraserSource == old(eraserSource)
      ensures useEraserSfx == old(useEraserSfx) && isPlaying == old(isPlaying) && isUsingValidTool == old(isUsingValidTool)
      ensures stream == old(stream) && streamsOpened == old(streamsOpened)
    {
      isUsingEraser := if usingEraser then 1 else 0;
    }

    /** `volume()`. */
    function Volume(): real
      reads this
    {
      volume
    }

    /** `setVolume(value)`: the value clamped to [0, 1]. */
    method SetVolume(value: real)
      modifies this
      ensures volume == Clamp(value, 0.0, 1.0)
      ensures 0.0 <= value <= 1.0 ==> Volume() == value
      ensures old(Valid()) ==> Valid()
      ensures brushSource == old(brushSource) && eraserSource == old(eraserSource) && useEraserSfx == old(useEraserSfx)
      ensures isPlaying == old(isPlaying) && isUsingValidTool == old(isUsingValidTool) && isUsingEraser == old(isUsingEraser)
      ensures stream == old(stream) && streamsOpened == old(streamsOpened)
    {
      volume := Clamp(value, 0.0, 1.0);
    }

    method StartPlaying()
      modifies this
      ensures isPlaying && stream == old(stream).(started := true)
      ensures old(Valid()) ==> Valid()
      ensures volume == old(volume) && brushSource == old(brushSource) && eraserSource == old(eraserSource)
      ensures useEraserSfx == old(useEraserSfx) && isUsingValidTool == old(isUsingValidTool) && isUsingEraser == old(isUsingEraser)
      ensures streamsOpened == old(streamsOpened)
    {
      isPlaying := true;
      stream := stream.(started := true);
    }

    method StopPlaying()
      modifies this
      ensures !isPlaying && stream == old(stream).(started := false)
      ensures old(Valid()) ==> Valid()
      ensures volume == old(volume) && brushSource == old(brushSource) && eraserSource == old(eraserSource)
      ensures useEraserSfx == old(useEraserSfx) && isUsingValidTool == old(isUsingValidTool) && isUsingEraser == old(isUsingEraser)
      ensures streamsOpened == old(streamsOpened)
    {
      isPlaying := false;
      stream := stream.(started := false);
    }
  }
}
