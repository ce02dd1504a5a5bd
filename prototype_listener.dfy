/** The first prototype of src/brush_sfx.py: a stroke listener that only
    tracks whether the left button (or the pen) is down, and a player that
    loops a recorded sound, handing each audio callback the next `frames`
    samples. */
module PrototypeListener {
  import opened Wrappers
  import opened Numerics
  import opened Input
  import opened SoundSources

  /** What the attribute `__preassure` holds. The move branches write to
      this misspelled name, never to `__pressure`: a tablet move stores the
      bound method `event.pressure` itself (it is not called), a mouse
      move stores 1.0. */
  datatype StrayPressure = Unset | PressureMethod | Number(value: real)

  /** The listener's fields that events change (`__cursor_potition` and
      the other fields that stay `None` are left out). */
  datatype StrokeState = StrokeState(isPressing: bool, pressure: real, stray: StrayPressure)

  /** `StrokeListener()`: not pressing, pressure 1.0. */
  const INITIAL_STROKE := StrokeState(false, 1.0, Unset)

  /** The press test as written: `and` binds tighter than `or`, so any
      tablet press counts, but a mouse press only with the left button. */
  predicate Presses(e: Event)
  {
    e.kind == TabletPress || (e.kind == MouseButtonPress && e.leftButton)
  }

  /** The release test, with the same precedence. */
  predicate Releases(e: Event)
  {
    e.kind == TabletRelease || (e.kind == MouseButtonRelease && e.leftButton)
  }

  /** `eventFilter(obj, event)` as written: press, then release, then the
      move branches, which run while pressing after the first two. */
  function StrokeStep(s: StrokeState, e: Event): StrokeState
  {
    var pressed := if Presses(e) then s.(isPressing := true) else s;
    var released := if Releases(e) then pressed.(isPressing := false) else pressed;
    if !released.isPressing then released
    else if e.kind == TabletMove then released.(stray := PressureMethod)
    else if e.kind == MouseMove then released.(stray := Number(1.0))
    else released
  }

  /** The listener after a sequence of events. */
  function StrokeRun(s: StrokeState, events: seq<Event>): StrokeState
    decreases |events|
  {
    if events == [] then s else StrokeRun(StrokeStep(s, events[0]), events[1..])
  }

  /** A tablet press starts a stroke whatever the button; a mouse press
      with another button changes nothing. */
  lemma PressPrecedence(s: StrokeState, e: Event)
    ensures e.kind == TabletPress ==> StrokeStep(s, e).isPressing
    ensures e.kind == MouseButtonPress ==> StrokeStep(s, e).isPressing == (s.isPressing || e.leftButton)
    ensures e.kind == MouseButtonPress && !e.leftButton ==> StrokeStep(s, e) == s
  {
  }

  /** A tablet release ends the stroke whatever the button; a mouse release
      with another button changes nothing. */
  lemma ReleasePrecedence(s: StrokeState, e: Event)
    ensures e.kind == TabletRelease ==> !StrokeStep(s, e).isPressing && StrokeStep(s, e).stray == s.stray
    ensures e.kind == MouseButtonRelease ==> StrokeStep(s, e).isPressing == (s.isPressing && !e.leftButton)
    ensures e.kind == MouseButtonRelease && !e.leftButton ==> StrokeStep(s, e) == s
  {
  }

  /** Only a move while pressing touches the stray attribute. */
  lemma StrayOnlyWhilePressing(s: StrokeState, e: Event)
    ensures StrokeStep(s, e).stray != s.stray ==>
              StrokeStep(s, e).isPressing && (e.kind == TabletMove || e.kind == MouseMove)
    ensures StrokeStep(s, e).isPressing && e.kind == TabletMove ==> StrokeStep(s, e).stray == PressureMethod
  {
  }

  /** No event ever changes `__pressure`: whatever the listener receives, it
      keeps the value it started with, 1.0 from the constructor. */
  lemma {:induction false} PressureNeverChanges(s: StrokeState, events: seq<Event>)
    ensures StrokeRun(s, events).pressure == s.pressure
    decreases |events|
  {
    if events != [] {
      PressureNeverChanges(StrokeStep(s, events[0]), events[1..]);
    }
  }

  /** A tablet press followed by a light tablet move: as written the
      pressure stays at 1.0, where the move was meant to record 0.25. */
  lemma TabletPressureLost()
    ensures var events := [Event(TabletPress, Point(0, 0), 0.0, true), Event(TabletMove, Point(3, 4), 0.25, true)];
            StrokeRun(INITIAL_STROKE, events).pressure == 1.0
            && IntendedRun(INITIAL_STROKE, events).pressure == 0.25
  {
    var events := [Event(TabletPress, Point(0, 0), 0.0, true), Event(TabletMove, Point(3, 4), 0.25, true)];
    assert events[1..][1..] == [];
    assert StrokeRun(INITIAL_STROKE, events) == StrokeRun(StrokeState(true, 1.0, PressureMethod), []);
    assert IntendedRun(INITIAL_STROKE, events) == IntendedRun(StrokeState(true, 0.25, Unset), []);
  }

  /** The move branches as evidently intended (and as the later
      BrushSfx/input.py does): a tablet move records the event's pressure,
      a mouse move full pressure. */
  function IntendedStep(s: StrokeState, e: Event): StrokeState
  {
    var pressed := if Presses(e) then s.(isPressing := true) else s;
    var released := if Releases(e) then pressed.(isPressing := false) else pressed;
    if !released.isPressing then released
    else if e.kind == TabletMove then released.(pressure := e.pressure)
    else if e.kind == MouseMove then released.(pressure := 1.0)
    else released
  }

  function IntendedRun(s: StrokeState, events: seq<Event>): StrokeState
    decreases |events|
  {
    if events == [] then s else IntendedRun(IntendedStep(s, events[0]), events[1..])
  }

  /** With the intended writes, the pressure is the last move's while the
      stroke goes on, and the button state is the same as written. */
  lemma IntendedTracksPressure(s: StrokeState, e: Event)
    ensures IntendedStep(s, e).isPressing == StrokeStep(s, e).isPressing
    ensures IntendedStep(s, e).isPressing && e.kind == TabletMove ==> IntendedStep(s, e).pressure == e.pressure
    ensures IntendedStep(s, e).isPressing && e.kind == MouseMove ==> IntendedStep(s, e).pressure == 1.0
    ensures !(IntendedStep(s, e).isPressing && (e.kind == TabletMove || e.kind == MouseMove)) ==>
              IntendedStep(s, e).pressure == s.pressure
  {
  }

  /** `StrokeListener`, as written. */
  class StrokeListener {
    var isPressing: bool
    var pressure: real
    var stray: StrayPressure

    function State(): StrokeState
      reads this
    {
      StrokeState(isPressing, pressure, stray)
    }

    constructor()
      ensures State() == INITIAL_STROKE
    {
      isPressing := false;
      pressure := 1.0;
      stray := Unset;
    }

    /** `eventFilter(obj, event)`. */
    method EventFilter(event: Event)
      modifies this
      ensures State() == StrokeStep(old(State()), event)
    {
      if event.kind == TabletPress || (event.kind == MouseButtonPress && event.leftButton) {
        isPressing := true;
      }
      if event.kind == TabletRelease || (event.kind == MouseButtonRelease && event.leftButton) {
        isPressing := false;
      }
      if isPressing {
        if event.kind == TabletMove {
          stray := PressureMethod;
        }
        if event.kind == MouseMove {
          stray := Number(1.0);
        }
      }
    }
  }

  /** `SoundPlayer` of src/brush_sfx.py: the recorded sound played on a
      loop, with no effect applied. */
  class LoopPlayer {
    const samples: seq<real>
    var framesProcessed: nat

    constructor(sound: WavData)
      ensures samples == sound.samples && framesProcessed == 0
    {
      samples := sound.samples;
      framesProcessed := 0;
    }

    /** What the next callback writes to `outdata`: the sound read
        circularly from `frames_processed` on; `None` where the assignment
        raises because the sound is shorter than the block. */
    function Next(frames: nat): (r: Option<seq<real>>)
      reads this
      ensures r.Some? <==> frames <= |samples|
      ensures r.Some? ==> |r.value| == frames
                          && forall i :: 0 <= i < frames ==> r.value[i] == samples[(framesProcessed + i) % |samples|]
    {
      var block := Window(samples, framesProcessed, frames);
      if |block| == frames then Some(block) else None
    }

    /** `callback(outdata, frames, time, status)`: `frames_processed` moves
        on by `frames` before `outdata` is written, so it moves on even when
        the write raises. */
    method Callback(frames: nat) returns (r: Option<seq<real>>)
      modifies this
      ensures r == old(Next(frames))
      ensures framesProcessed == old(framesProcessed) + frames
    {
      var allFrames := Window(samples, framesProcessed, frames);
      framesProcessed := framesProcessed + frames;
      if |allFrames| == frames {
        r := Some(allFrames);
      } else {
        r := None;
      }
    }
  }

  /** Consecutive callbacks play the sound without a gap or a repeat: two
      blocks read one after the other are the one block of both lengths. */
  lemma ContinuousPlayback(samples: seq<real>, framesProcessed: nat, first: nat, second: nat)
    requires first + second <= |samples|
    ensures Window(samples, framesProcessed, first) + Window(samples, framesProcessed + first, second)
         == Window(samples, framesProcessed, first + second)
  {
    var joined := Window(samples, framesProcessed, first) + Window(samples, framesProcessed + first, second);
    var whole := Window(samples, framesProcessed, first + second);
    forall i | 0 <= i < first + second ensures joined[i] == whole[i] {
      if i >= first {
        assert framesProcessed + first + (i - first) == framesProcessed + i;
      }
    }
  }
}
