/** The input snapshot of BrushSfx/input.py: an event filter installed on the
    application that follows the pen or mouse over the canvas, and that the
    audio callback reads once per block. */
module Input {
  import opened Numerics

  /** How long after the last tablet event mouse moves are still taken to
      come from the tablet, in seconds. */
  const TABLET_GRACE := 0.1

  /** The Qt event types the filter looks at; every other type is `OtherEvent`. */
  datatype EventType =
    | TabletMove | MouseMove
    | TabletPress | MouseButtonPress
    | TabletRelease | MouseButtonRelease
    | OtherEvent

  /** An event as the filter reads it: its type, `pos()`, `pressure()` (only
      read for tablet moves) and whether `button()` is the left button. */
  datatype Event = Event(kind: EventType, pos: Point, pressure: real, leftButton: bool)

  /** The listener's private fields, as one value. */
  datatype Snapshot = Snapshot(
    isPressing: bool,
    cursor: Point,
    lastRead: Point,
    pressure: real,
    isTablet: bool,
    lastTabletTime: real)

  /** `eventFilter(obj, event)` at time `now`, where `onCanvas` says whether
      `obj` is exactly a `QOpenGLWidget`. */
  function Step(s: Snapshot, onCanvas: bool, e: Event, now: real): Snapshot
  {
    if !onCanvas then s
    else
      var moved :=
        if s.isPressing && (e.kind == TabletMove || e.kind == MouseMove) then s.(cursor := e.pos) else s;
      var tablet :=
        if s.isPressing && e.kind == TabletMove
        then moved.(pressure := e.pressure, lastTabletTime := now, isTablet := true)
        else moved;
      var mouse :=
        if s.isPressing && e.kind == MouseMove && now >= tablet.lastTabletTime + TABLET_GRACE
        then tablet.(pressure := 1.0, isTablet := false)
        else tablet;
      var pressed :=
        if (e.kind == TabletPress || e.kind == MouseButtonPress) && e.leftButton
        then mouse.(isPressing := true, cursor := e.pos, lastRead := e.pos)
        else mouse;
      if (e.kind == TabletRelease || e.kind == MouseButtonRelease) && e.leftButton
      then pressed.(pressure := 0.0, isPressing := false)
      else pressed
  }

  /** The `pressure` property: the stored pressure times `is_pressing`. */
  function ReadPressure(s: Snapshot): real
  {
    if s.isPressing then s.pressure else 0.0
  }

  /** What the `cursor_movement` property returns. */
  function Movement(s: Snapshot): Point
  {
    s.lastRead.Minus(s.cursor)
  }

  /** The state the `cursor_movement` property leaves behind. */
  function AfterRead(s: Snapshot): Snapshot
  {
    s.(lastRead := s.cursor)
  }

  /** Reading the movement twice with no event in between gives nothing the
      second time; reading changes nothing but the last read position. */
  lemma SecondReadIsStill(s: Snapshot)
    ensures Movement(AfterRead(s)) == Point(0, 0)
    ensures AfterRead(AfterRead(s)) == AfterRead(s)
    ensures ReadPressure(AfterRead(s)) == ReadPressure(s)
  {
  }

  /** Events on any other widget change nothing. */
  lemma OffCanvasIgnored(s: Snapshot, e: Event, now: real)
    ensures Step(s, false, e, now) == s
  {
  }

  /** The pressure reads 0 whenever the button is up, and it is up right
      after a left release. */
  lemma PressureGated(s: Snapshot, e: Event, now: real)
    ensures !s.isPressing ==> ReadPressure(s) == 0.0
    ensures (e.kind == TabletRelease || e.kind == MouseButtonRelease) && e.leftButton ==>
              !Step(s, true, e, now).isPressing && ReadPressure(Step(s, true, e, now)) == 0.0
              && Step(s, true, e, now).pressure == 0.0
  {
  }

  /** A left press starts a stroke at the event position, from which the
      next movement read is zero. */
  lemma PressStartsStill(s: Snapshot, e: Event, now: real)
    requires (e.kind == TabletPress || e.kind == MouseButtonPress) && e.leftButton
    ensures Step(s, true, e, now).isPressing && Step(s, true, e, now).cursor == e.pos
    ensures Movement(Step(s, true, e, now)) == Point(0, 0)
  {
  }

  /** Presses and releases of any other button are ignored. */
  lemma OtherButtonsIgnored(s: Snapshot, e: Event, now: real)
    requires e.kind in {TabletPress, MouseButtonPress, TabletRelease, MouseButtonRelease} && !e.leftButton
    ensures Step(s, true, e, now) == s
  {
  }

  /** Moves only count while the button is down: then they set the cursor,
      otherwise they change nothing. */
  lemma MovesWhilePressing(s: Snapshot, e: Event, now: real)
    requires e.kind == TabletMove || e.kind == MouseMove
    ensures !s.isPressing ==> Step(s, true, e, now) == s
    ensures s.isPressing ==> Step(s, true, e, now).cursor == e.pos && Step(s, true, e, now).lastRead == s.lastRead
  {
  }

  /** A tablet move while pressing takes the event's pressure and marks tablet
      input at `now`; a mouse move sets full pressure and clears the tablet
      mark, unless it comes within `TABLET_GRACE` of the last tablet event,
      when it keeps both. */
  lemma MovePressure(s: Snapshot, e: Event, now: real)
    requires s.isPressing
    ensures e.kind == TabletMove ==>
              var t := Step(s, true, e, now);
              t.pressure == e.pressure && t.isTablet && t.lastTabletTime == now
    ensures e.kind == MouseMove && now >= s.lastTabletTime + TABLET_GRACE ==>
              Step(s, true, e, now).pressure == 1.0 && !Step(s, true, e, now).isTablet
    ensures e.kind == MouseMove && now < s.lastTabletTime + TABLET_GRACE ==>
              Step(s, true, e, now).pressure == s.pressure && Step(s, true, e, now).isTablet == s.isTablet
  {
  }

  /** The listener object (`InputListener`). */
  class InputListener {
    var isPressing: bool
    var cursorPosition: Point
    var lastCursorRead: Point
    var pressure: real
    var isTabletInput: bool
    var lastTabletInputTime: real

    function State(): Snapshot
      reads this
    {
      Snapshot(isPressing, cursorPosition, lastCursorRead, pressure, isTabletInput, lastTabletInputTime)
    }

    /** `InputListener()`, created at time `now`. */
    constructor(now: real)
      ensures State() == Snapshot(false, Point(0, 0), Point(0, 0), 0.0, false, now)
    {
      isPressing := false;
      cursorPosition := Point(0, 0);
      lastCursorRead := Point(0, 0);
      pressure := 0.0;
      isTabletInput := false;
      lastTabletInputTime := now;
    }

    /** The `pressure` property. */
    function Pressure(): real
      reads this
    {
      ReadPressure(State())
    }

    /** The `cursor_movement` property: the movement since the last read,
        which becomes the new last read position. */
    method CursorMovement() returns (movement: Point)
      modifies this
      ensures movement == Movement(old(State()))
      ensures State() == AfterRead(old(State()))
    {
      movement := lastCursorRead.Minus(cursorPosition);
      lastCursorRead := cursorPosition;
    }

    /** `eventFilter(obj, event)`, at time `now` (`time.time()`). */
    method EventFilter(onCanvas: bool, event: Event, now: real)
      modifies this
      ensures State() == Step(old(State()), onCanvas, event, now)
    {
      if !onCanvas {
        return;
      }
      if isPressing {
        if event.kind == TabletMove || event.kind == MouseMove {
          cursorPosition := event.pos;
        }
        if event.kind == TabletMove {
          pressure := event.pressure;
          lastTabletInputTime := now;
          isTabletInput := true;
        }
        if event.kind == MouseMove && now >= lastTabletInputTime + TABLET_GRACE {
          pressure := 1.0;
          isTabletInput := false;
        }
      }
      if (event.kind == TabletPress || event.kind == MouseButtonPress) && event.leftButton {
        isPressing := true;
        cursorPosition := event.pos;
        lastCursorRead := event.pos;
      }
      if (event.kind == TabletRelease || event.kind == MouseButtonRelease) && event.leftButton {
        pressure := 0.0;
        isPressing := false;
      }
    }
  }
}
