/** The controller's whole state as a value, one transition function per
    operation of the controller, and what sequences of them do. The class
    in module Controller is proved to follow these transitions. */
module ControllerModel {
  import opened Numeric
  import opened Events
  import opened BoundsWindow
  import opened Motion
  import opened Zoom

  /** Every field the controller reads or writes: the viewport geometry and
      document size it is told about, the cached bounds window, the document
      offset, the motion state, whether the timer runs, whether the canvas
      follows drags, the committed zoom, and the pinch preview's limits,
      scale and pivot. */
  datatype State = State(
    width: real, height: real,
    docWidth: int, docHeight: int,
    margin: int, vastScrolling: real,
    bounds: Window,
    offset: Point,
    force: Vec, velocity: Vec,
    running: bool,
    updateCanvas: bool,
    zoom: real,
    limits: Limits, scale: real, pivot: Vec)

  /** The state after construction: nothing computed yet, timer stopped,
      canvas following drags, zoom 1. The pinch limits, uninitialised until a
      pinch starts, are taken as zero. */
  function Initial(): State {
    State(0.0, 0.0, 0, 0, 0, 0.0, Window(0.0, 0.0, 0.0, 0.0), Point(0, 0),
          Zero, Zero, false, true, 1.0, Limits(0.0, 0.0), 1.0, Zero)
  }

  /** The bounds window the current geometry calls for. */
  function WindowOf(s: State): Window {
    Compute(s.width, s.height, s.docWidth, s.docHeight, s.margin, s.vastScrolling)
  }

  function UpdateMinMax(s: State): State {
    s.(bounds := WindowOf(s))
  }

  function SetVastScrolling(s: State, factor: real): State {
    UpdateMinMax(s.(vastScrolling := factor))
  }

  function UpdateDocumentSize(s: State, w: int, h: int): State {
    UpdateMinMax(s.(docWidth := w, docHeight := h))
  }

  function SetMargin(s: State, margin: int): State {
    UpdateMinMax(s.(margin := margin))
  }

  /** A change of the item's width or height: only re-rendering follows, so
      the cached window is left as it was. */
  function Resize(s: State, w: real, h: real): State {
    s.(width := w, height := h)
  }

  /** Setting the offset emits moveDocumentOffset, whose slot
      documentOffsetMoved recomputes the window. */
  function ResetDocumentOffset(s: State, p: Point): State {
    UpdateMinMax(s.(offset := p))
  }

  /** The state-changing tail of setCanvas: the window is recomputed, the
      offset put at its top-left corner and the timer started. */
  function AttachCanvas(s: State): State {
    var s1 := UpdateMinMax(s);
    ResetDocumentOffset(s1, Point(Trunc(s1.bounds.minX), Trunc(s1.bounds.minY))).(running := true)
  }

  function ScrollContentsBy(s: State, dx: int, dy: int): State {
    if !s.updateCanvas then s
    else
      var s1 := if Degenerate(s.bounds) then UpdateMinMax(s) else s;
      ResetDocumentOffset(s1, Point(s1.offset.x + dx, s1.offset.y + dy))
  }

  function HandleMouseMoveEvent(s: State, lastPos: Vec, pos: Vec): State {
    var f := Sub(lastPos, pos);
    ScrollContentsBy(s.(force := f), Trunc(f.x), Trunc(f.y))
  }

  function ZoomBy(s: State, center: Point, factor: real, minZoom: real, maxZoom: real): State {
    if !Accepts(s.zoom, factor, minZoom, maxZoom) then s
    else
      var o := ZoomedPoint(s.offset, center, factor);
      ResetDocumentOffset(UpdateMinMax(s.(zoom := s.zoom * factor)), o).(running := true)
  }

  /** zoomIn and zoomOut zoom about the viewport's centre when given the
      null point. */
  function CenterOrMiddle(s: State, center: Point): Point {
    if center == Point(0, 0) then Point(Trunc(s.width / 2.0), Trunc(s.height / 2.0)) else center
  }

  function ZoomIn(s: State, center: Point, sqrtTwo: real, minZoom: real, maxZoom: real): State {
    ZoomBy(s, CenterOrMiddle(s, center), sqrtTwo, minZoom, maxZoom)
  }

  function ZoomOut(s: State, center: Point, sqrtHalf: real, minZoom: real, maxZoom: real): State {
    ZoomBy(s, CenterOrMiddle(s, center), sqrtHalf, minZoom, maxZoom)
  }

  function PinchUpdate(s: State, p: Pinch): State {
    s.(pivot := p.centerPoint, scale := PinchStep(s.scale, s.limits, p.scaleFactor - p.lastScaleFactor))
  }

  /** handleGesture; `zoomX` is the zoom handler's current zoom. A started
      gesture falls through into the update step. */
  function HandleGesture(s: State, pinch: Option<Pinch>, zoomX: real, minZoom: real, maxZoom: real): State
    requires StartsPinch(pinch) ==> zoomX > 0.0
  {
    match pinch
    case None => s
    case Some(p) =>
      match p.state
      case GestureStarted =>
        PinchUpdate(s.(updateCanvas := false, limits := PinchLimits(zoomX, minZoom, maxZoom), scale := 1.0), p)
      case GestureUpdated => PinchUpdate(s, p)
      case GestureFinished =>
        ZoomBy(s, RoundVec(p.centerPoint), s.scale, minZoom, maxZoom).(updateCanvas := true)
      case _ => s
  }

  /** eventFilter: `ours` says whether the event is aimed at the controller or
      its canvas item; the boolean result says whether the event was
      consumed (false: left to the base class). */
  function EventFilter(s: State, ev: Event, ours: bool, zoomX: real, minZoom: real, maxZoom: real): (State, bool)
    requires StartsPinchEvent(ev) ==> zoomX > 0.0
  {
    if !ours then (s, false)
    else
      match ev
      case MousePress => (s.(velocity := Zero, running := false), true)
      case MouseMove(lastPos, pos) => (if s.updateCanvas then HandleMouseMoveEvent(s, lastPos, pos) else s, true)
      case MouseRelease => (s.(running := true), true)
      case TouchBegin => (s, true)
      case Gesture(pinch) => (HandleGesture(s, pinch, zoomX, minZoom, maxZoom), true)
      case OtherEvent => (s, false)
  }

  /** timerUpdate: the position moves by the velocity from before the tick,
      edge resistance applies per axis, the velocity then takes the
      acceleration, and the consumed force is reset. */
  function TimerUpdate(s: State): State {
    var v := Vec(NextVelocity(s.velocity.x, s.force.x), NextVelocity(s.velocity.y, s.force.y));
    var p := Point(NextCoordinate(s.offset.x, s.velocity.x, s.bounds.minX, s.bounds.maxX),
                   NextCoordinate(s.offset.y, s.velocity.y, s.bounds.minY, s.bounds.maxY));
    ResetDocumentOffset(s.(force := Zero, velocity := v), p)
  }

  function Ticks(s: State, n: nat): State
    decreases n
  {
    if n == 0 then s else Ticks(TimerUpdate(s), n - 1)
  }

  // ---- Bounds ----

  /** The freshly constructed controller has a degenerate window, so the first
      scroll recomputes it. */
  lemma InitialWindowDegenerate()
    ensures Degenerate(Initial().bounds)
  {
  }

  /** Scrolling, when the canvas follows drags, shifts the offset by exactly
      (dx, dy) and leaves the window matching the current geometry, stale or
      degenerate as it was; nothing else changes. Otherwise it does nothing. */
  lemma ScrollShifts(s: State, dx: int, dy: int)
    ensures !s.updateCanvas ==> ScrollContentsBy(s, dx, dy) == s
    ensures s.updateCanvas ==>
      ScrollContentsBy(s, dx, dy) == s.(offset := Point(s.offset.x + dx, s.offset.y + dy), bounds := WindowOf(s))
  {
  }

  // ---- Timer tick ----

  /** A tick consumes the force, recomputes the window and touches nothing but
      the offset, the velocity, the force and the window. */
  lemma TickFrame(s: State)
    ensures var t := TimerUpdate(s);
      t.force == Zero && t.bounds == WindowOf(s) &&
      t == s.(offset := t.offset, velocity := t.velocity, force := Zero, bounds := t.bounds)
  {
  }

  /** The new velocity is the old one damped by one eighth plus 2.5 times the
      force; the new offset does not depend on the force at all, so it uses
      the velocity from before the tick. */
  lemma TickOrdering(s: State, f: Vec)
    ensures var t := TimerUpdate(s);
      t.velocity == Vec(0.875 * s.velocity.x + 2.5 * s.force.x, 0.875 * s.velocity.y + 2.5 * s.force.y) &&
      t.offset == TimerUpdate(s.(force := f)).offset
  {
  }

  /** With no force, no velocity and the offset inside the window, a tick
      leaves offset and velocity unchanged. */
  lemma TickAtRest(s: State)
    requires s.force == Zero && s.velocity == Zero
    requires s.bounds.minX <= s.offset.x as real <= s.bounds.maxX
    requires s.bounds.minY <= s.offset.y as real <= s.bounds.maxY
    ensures TimerUpdate(s).offset == s.offset && TimerUpdate(s).velocity == Zero
  {
  }

  /** A push of (100, 0) from rest at the origin: the offset stays at the
      origin for this tick and the velocity becomes (250, 0). */
  lemma TickFromPush(s: State)
    requires s.offset == Point(0, 0) && s.velocity == Zero && s.force == Vec(100.0, 0.0)
    requires s.bounds.minX <= 0.0 <= s.bounds.maxX && s.bounds.minY <= 0.0 <= s.bounds.maxY
    ensures TimerUpdate(s).offset == Point(0, 0) && TimerUpdate(s).velocity == Vec(250.0, 0.0)
  {
  }

  /** Once the force is consumed and the window is current, repeated ticks
      act on each axis separately as `Coast` does. */
  lemma {:induction false} TicksFollowAxes(s: State, n: nat)
    requires s.force == Zero && s.bounds == WindowOf(s)
    ensures var e := Ticks(s, n);
      Axis(e.offset.x, e.velocity.x) == Coast(Axis(s.offset.x, s.velocity.x), s.bounds.minX, s.bounds.maxX, n) &&
      Axis(e.offset.y, e.velocity.y) == Coast(Axis(s.offset.y, s.velocity.y), s.bounds.minY, s.bounds.maxY, n) &&
      e.bounds == s.bounds && e.force == Zero
    decreases n
  {
    if n > 0 {
      var t := TimerUpdate(s);
      assert Axis(t.offset.x, t.velocity.x) == Step(Axis(s.offset.x, s.velocity.x), 0.0, s.bounds.minX, s.bounds.maxX);
      assert Axis(t.offset.y, t.velocity.y) == Step(Axis(s.offset.y, s.velocity.y), 0.0, s.bounds.minY, s.bounds.maxY);
      TicksFollowAxes(t, n - 1);
    }
  }

  /** A viewport at rest past the right and bottom edges of a window around
      the origin moves back and comes to rest exactly at the integer parts of
      maxX and maxY. */
  lemma SettlesAtFarEdges(s: State, n: nat)
    requires s.force == Zero && s.velocity == Zero && s.bounds == WindowOf(s)
    requires s.bounds.minX <= 0.0 <= s.bounds.maxX && s.bounds.minY <= 0.0 <= s.bounds.maxY
    requires s.bounds.maxX.Floor <= s.offset.x && s.bounds.maxY.Floor <= s.offset.y
    requires n >= s.offset.x - s.bounds.maxX.Floor && n >= s.offset.y - s.bounds.maxY.Floor
    ensures Ticks(s, n).offset == Point(s.bounds.maxX.Floor, s.bounds.maxY.Floor)
    ensures Ticks(s, n).velocity == Zero
  {
    TicksFollowAxes(s, n);
    ReboundFromMax(Axis(s.offset.x, 0.0), s.bounds.minX, s.bounds.maxX, n);
    ReboundFromMax(Axis(s.offset.y, 0.0), s.bounds.minY, s.bounds.maxY, n);
  }

  /** Without force, the velocity on each axis decays as `Decay` says: by 7/8
      per tick, never changing sign. The window plays no part, so this holds
      on a stale window after a resize too. */
  lemma {:induction false} VelocityDecays(s: State, n: nat)
    requires s.force == Zero
    ensures Ticks(s, n).velocity == Vec(Decay(s.velocity.x, n), Decay(s.velocity.y, n))
    decreases n
  {
    if n > 0 {
      VelocityDecays(TimerUpdate(s), n - 1);
    }
  }

  // ---- Drag input ----

  /** A press zeroes the velocity and stops the timer; nothing else changes
      and the event is consumed. */
  lemma PressStops(s: State, zoomX: real, minZoom: real, maxZoom: real)
    ensures EventFilter(s, MousePress, true, zoomX, minZoom, maxZoom) ==
      (s.(velocity := Zero, running := false), true)
  {
  }

  /** A release, whatever came before it, starts the timer; nothing else
      changes and the event is consumed. */
  lemma ReleaseRestarts(s: State, zoomX: real, minZoom: real, maxZoom: real)
    ensures EventFilter(s, MouseRelease, true, zoomX, minZoom, maxZoom) == (s.(running := true), true)
  {
  }

  /** A move, while the canvas follows drags, sets the force to
      lastPos - pos and shifts the offset by that vector truncated toward
      zero on each axis; only the window is refreshed besides. */
  lemma DragShiftsByDelta(s: State, lastPos: Vec, pos: Vec, zoomX: real, minZoom: real, maxZoom: real)
    requires s.updateCanvas
    ensures var (r, h) := EventFilter(s, MouseMove(lastPos, pos), true, zoomX, minZoom, maxZoom);
      h && r.force == Sub(lastPos, pos) &&
      r.offset == Point(s.offset.x + Trunc(lastPos.x - pos.x), s.offset.y + Trunc(lastPos.y - pos.y)) &&
      r == s.(force := r.force, offset := r.offset, bounds := WindowOf(s))
  {
    ScrollShifts(s.(force := Sub(lastPos, pos)), Trunc(lastPos.x - pos.x), Trunc(lastPos.y - pos.y));
  }

  /** Between whole-pixel positions the shift is exactly the pointer delta. */
  lemma WholePixelDrag(s: State, lastPos: Point, pos: Point, zoomX: real, minZoom: real, maxZoom: real)
    requires s.updateCanvas
    ensures var (r, h) := EventFilter(s, MouseMove(ToVec(lastPos), ToVec(pos)), true, zoomX, minZoom, maxZoom);
      h && r.offset == Point(s.offset.x + lastPos.x - pos.x, s.offset.y + lastPos.y - pos.y)
  {
    DragShiftsByDelta(s, ToVec(lastPos), ToVec(pos), zoomX, minZoom, maxZoom);
    assert Trunc(ToVec(lastPos).x - ToVec(pos).x) == lastPos.x - pos.x;
    assert Trunc(ToVec(lastPos).y - ToVec(pos).y) == lastPos.y - pos.y;
  }

  /** A slow drag: a move of less than a pixel on each axis sets the force
      but leaves the offset where it was. */
  lemma SubPixelMoveKeepsOffset(s: State, lastPos: Vec, pos: Vec, zoomX: real, minZoom: real, maxZoom: real)
    requires s.updateCanvas
    requires -1.0 < lastPos.x - pos.x < 1.0 && -1.0 < lastPos.y - pos.y < 1.0
    ensures var (r, h) := EventFilter(s, MouseMove(lastPos, pos), true, zoomX, minZoom, maxZoom);
      r.offset == s.offset && r.force == Sub(lastPos, pos)
  {
    DragShiftsByDelta(s, lastPos, pos, zoomX, minZoom, maxZoom);
  }

  /** Each move overwrites the force instead of adding to it: after two moves
      only the second delta remains. */
  lemma MoveOverwritesForce(s: State, l1: Vec, p1: Vec, l2: Vec, p2: Vec)
    ensures HandleMouseMoveEvent(HandleMouseMoveEvent(s, l1, p1), l2, p2).force == Sub(l2, p2)
  {
  }

  /** While the canvas does not follow drags, a move is consumed and changes
      nothing. */
  lemma MoveGated(s: State, lastPos: Vec, pos: Vec, zoomX: real, minZoom: real, maxZoom: real)
    requires !s.updateCanvas
    ensures EventFilter(s, MouseMove(lastPos, pos), true, zoomX, minZoom, maxZoom) == (s, true)
  {
  }

  // ---- Zoom ----

  /** zoomBy either changes nothing, or multiplies the zoom by the factor,
      moves the offset so the centre point stays put, refreshes the window and
      starts the timer. */
  lemma ZoomByEffect(s: State, center: Point, factor: real, minZoom: real, maxZoom: real)
    ensures var r := ZoomBy(s, center, factor, minZoom, maxZoom);
      if minZoom < s.zoom * factor < maxZoom then
        r == s.(zoom := s.zoom * factor, offset := ZoomedPoint(s.offset, center, factor),
                bounds := WindowOf(s), running := true)
      else r == s
  {
  }

  /** Zooming in and then out about the same point, with factors whose
      product is 1 and both accepted, restores the zoom; it restores the
      offset too when zooming in needed no rounding. */
  lemma ZoomInOutRoundTrip(s: State, center: Point, sqrtTwo: real, sqrtHalf: real, minZoom: real, maxZoom: real)
    requires sqrtTwo * sqrtHalf == 1.0
    requires Accepts(s.zoom, sqrtTwo, minZoom, maxZoom)
    requires minZoom < s.zoom < maxZoom
    ensures var m := ZoomIn(s, center, sqrtTwo, minZoom, maxZoom);
      var r := ZoomOut(m, center, sqrtHalf, minZoom, maxZoom);
      r.zoom == s.zoom &&
      (ToVec(m.offset) == Vec(ZoomedOffset(s.offset.x as real, CenterOrMiddle(s, center).x as real, sqrtTwo),
                              ZoomedOffset(s.offset.y as real, CenterOrMiddle(s, center).y as real, sqrtTwo))
       ==> r.offset == s.offset)
  {
    var c := CenterOrMiddle(s, center);
    var m := ZoomIn(s, center, sqrtTwo, minZoom, maxZoom);
    assert m.zoom == s.zoom * sqrtTwo;
    assert CenterOrMiddle(m, center) == c;
    assert m.zoom * sqrtHalf == s.zoom by {
      Regroup(s.zoom, sqrtTwo, sqrtHalf);
      assert (s.zoom * sqrtTwo) * sqrtHalf == s.zoom * (sqrtTwo * sqrtHalf);
    }
    if ToVec(m.offset) == Vec(ZoomedOffset(s.offset.x as real, c.x as real, sqrtTwo),
                              ZoomedOffset(s.offset.y as real, c.y as real, sqrtTwo)) {
      ZoomRoundTrip(s.offset, c, sqrtTwo, sqrtHalf);
    }
  }

  // ---- Pinch ----

  /** Starting a pinch stops the canvas following drags, sets the limits from
      the handler's zoom, and applies the first update to scale 1; when that
      zoom is inside the global range the scale stays inside the limits. */
  lemma PinchStart(s: State, p: Pinch, zoomX: real, minZoom: real, maxZoom: real)
    requires zoomX > 0.0 && p.state == GestureStarted
    ensures var r := HandleGesture(s, Some(p), zoomX, minZoom, maxZoom);
      !r.updateCanvas && r.limits == PinchLimits(zoomX, minZoom, maxZoom) &&
      r.scale == PinchStep(1.0, r.limits, p.scaleFactor - p.lastScaleFactor) &&
      r.pivot == p.centerPoint &&
      (minZoom <= zoomX <= maxZoom ==> r.limits.lo <= r.scale <= r.limits.hi) &&
      r == s.(updateCanvas := false, limits := r.limits, scale := r.scale, pivot := r.pivot)
  {
    PinchStartsInside(zoomX, minZoom, maxZoom);
  }

  /** The scale deltas a sequence of pinch events reports. */
  function Deltas(ps: seq<Pinch>): (ds: seq<real>)
    ensures |ds| == |ps|
    ensures forall i :: 0 <= i < |ps| ==> ds[i] == ps[i].scaleFactor - ps[i].lastScaleFactor
  {
    if ps == [] then [] else [ps[0].scaleFactor - ps[0].lastScaleFactor] + Deltas(ps[1..])
  }

  function Updates(s: State, ps: seq<Pinch>, zoomX: real, minZoom: real, maxZoom: real): State
    requires forall i :: 0 <= i < |ps| ==> StartsPinch(Some(ps[i])) ==> zoomX > 0.0
    decreases |ps|
  {
    if ps == [] then s else Updates(HandleGesture(s, Some(ps[0]), zoomX, minZoom, maxZoom), ps[1..], zoomX, minZoom, maxZoom)
  }

  /** During a pinch, a run of updates moves the scale as PinchSweep says and
      changes nothing but the scale and the pivot. */
  lemma {:induction false} UpdatesSweep(s: State, ps: seq<Pinch>, zoomX: real, minZoom: real, maxZoom: real)
    requires forall i :: 0 <= i < |ps| ==> ps[i].state == GestureUpdated
    ensures var r := Updates(s, ps, zoomX, minZoom, maxZoom);
      r.scale == PinchSweep(s.scale, s.limits, Deltas(ps)) &&
      r == s.(scale := r.scale, pivot := r.pivot)
    decreases |ps|
  {
    if ps != [] {
      var t := HandleGesture(s, Some(ps[0]), zoomX, minZoom, maxZoom);
      assert t == PinchUpdate(s, ps[0]);
      assert Deltas(ps)[1..] == Deltas(ps[1..]);
      UpdatesSweep(t, ps[1..], zoomX, minZoom, maxZoom);
    }
  }

  /** A whole pinch session started from a zoom inside the global range keeps
      the preview scale inside the pinch limits. */
  lemma PinchScaleBounded(s: State, start: Pinch, ps: seq<Pinch>, zoomX: real, minZoom: real, maxZoom: real)
    requires zoomX > 0.0 && minZoom <= zoomX <= maxZoom
    requires start.state == GestureStarted
    requires forall i :: 0 <= i < |ps| ==> ps[i].state == GestureUpdated
    ensures var r := Updates(HandleGesture(s, Some(start), zoomX, minZoom, maxZoom), ps, zoomX, minZoom, maxZoom);
      r.limits.lo <= r.scale <= r.limits.hi && !r.updateCanvas
  {
    var t := HandleGesture(s, Some(start), zoomX, minZoom, maxZoom);
    PinchStart(s, start, zoomX, minZoom, maxZoom);
    UpdatesSweep(t, ps, zoomX, minZoom, maxZoom);
  }

  /** Finishing a pinch commits the preview scale through zoomBy, about the
      rounded centre point, and lets the canvas follow drags again. */
  lemma PinchFinish(s: State, p: Pinch, zoomX: real, minZoom: real, maxZoom: real)
    requires p.state == GestureFinished
    ensures var r := HandleGesture(s, Some(p), zoomX, minZoom, maxZoom);
      (Accepts(s.zoom, s.scale, minZoom, maxZoom) ==>
         r == s.(zoom := s.zoom * s.scale, offset := ZoomedPoint(s.offset, RoundVec(p.centerPoint), s.scale),
                 bounds := WindowOf(s), running := true, updateCanvas := true)) &&
      (!Accepts(s.zoom, s.scale, minZoom, maxZoom) ==> r == s.(updateCanvas := true))
  {
  }

  /** A pinch that is cancelled after starting leaves the canvas not following
      drags: later moves are swallowed until another pinch finishes. */
  lemma CancelledPinchKeepsDragsOff(s: State, start: Pinch, cancel: Pinch, lastPos: Vec, pos: Vec,
                                    zoomX: real, minZoom: real, maxZoom: real)
    requires zoomX > 0.0 && start.state == GestureStarted && cancel.state == GestureCanceled
    ensures var t := HandleGesture(HandleGesture(s, Some(start), zoomX, minZoom, maxZoom), Some(cancel), zoomX, minZoom, maxZoom);
      !t.updateCanvas && EventFilter(t, MouseMove(lastPos, pos), true, zoomX, minZoom, maxZoom) == (t, true)
  {
  }
}
