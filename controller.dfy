/** The viewport controller as the object it is: its fields are updated in
    place by the event filter, the timer and the public setters. Every
    method is proved to change the state exactly as the matching transition
    of ControllerModel says. */
module Controller {
  import opened Numeric
  import opened Events
  import opened BoundsWindow
  import opened Motion
  import opened Zoom
  import M = ControllerModel

  class CanvasController {
    // Geometry the controller is told about: the item's size, the document
    // size, the margin and the vast-scrolling factor.
    var width: real
    var height: real
    var docWidth: int
    var docHeight: int
    var margin: int
    var vastScrollingFactor: real
    /** The cached minX, minY, maxX, maxY. */
    var bounds: Window
    /** The document offset. */
    var offset: Point
    var force: Vec
    var velocity: Vec
    /** Whether the tick timer is active. */
    var running: bool
    var updateCanvas: bool
    var zoom: real
    /** zoomMin and zoomMax of the pinch in progress. */
    var limits: Limits
    /** The scale proxy's scale and transform origin. */
    var scale: real
    var pivot: Vec
    /** The global zoom range. */
    const minZoom: real
    const maxZoom: real

    ghost function Model(): M.State
      reads this
    {
      M.State(width, height, docWidth, docHeight, margin, vastScrollingFactor, bounds, offset,
              force, velocity, running, updateCanvas, zoom, limits, scale, pivot)
    }

    constructor (minZoom: real, maxZoom: real)
      ensures Model() == M.Initial()
      ensures this.minZoom == minZoom && this.maxZoom == maxZoom
    {
      this.minZoom, this.maxZoom := minZoom, maxZoom;
      width, height := 0.0, 0.0;
      docWidth, docHeight, margin := 0, 0, 0;
      vastScrollingFactor := 0.0;
      bounds := Window(0.0, 0.0, 0.0, 0.0);
      offset := Point(0, 0);
      force, velocity := Zero, Zero;
      running, updateCanvas := false, true;
      zoom := 1.0;
      limits := Limits(0.0, 0.0);
      scale, pivot := 1.0, Zero;
    }

    method UpdateMinMax()
      modifies this
      ensures Model() == M.UpdateMinMax(old(Model()))
    {
      bounds := Compute(width, height, docWidth, docHeight, margin, vastScrollingFactor);
    }

    method SetVastScrolling(factor: real)
      modifies this
      ensures Model() == M.SetVastScrolling(old(Model()), factor)
    {
      vastScrollingFactor := factor;
      UpdateMinMax();
    }

    method UpdateDocumentSize(w: int, h: int)
      modifies this
      ensures Model() == M.UpdateDocumentSize(old(Model()), w, h)
    {
      docWidth, docHeight := w, h;
      UpdateMinMax();
    }

    method SetMargin(m: int)
      modifies this
      ensures Model() == M.SetMargin(old(Model()), m)
    {
      margin := m;
      UpdateMinMax();
    }

    /** The item was resized; the cached window goes stale. */
    method Resize(w: real, h: real)
      modifies this
      ensures Model() == M.Resize(old(Model()), w, h)
      ensures bounds == old(bounds)
    {
      width, height := w, h;
    }

    method DocumentOffsetMoved()
      modifies this
      ensures Model() == M.UpdateMinMax(old(Model()))
    {
      UpdateMinMax();
    }

    method ResetDocumentOffset(p: Point)
      modifies this
      ensures Model() == M.ResetDocumentOffset(old(Model()), p)
      ensures offset == p && bounds == M.WindowOf(Model())
    {
      offset := p;
      DocumentOffsetMoved();
    }

    method AttachCanvas()
      modifies this
      ensures Model() == M.AttachCanvas(old(Model()))
      ensures offset == Point(Trunc(bounds.minX), Trunc(bounds.minY)) && running
    {
      UpdateMinMax();
      ResetDocumentOffset(Point(Trunc(bounds.minX), Trunc(bounds.minY)));
      running := true;
    }

    method ScrollContentsBy(dx: int, dy: int)
      modifies this
      ensures Model() == M.ScrollContentsBy(old(Model()), dx, dy)
    {
      if !updateCanvas {
        return;
      }
      if bounds.minX == bounds.maxX || bounds.minY == bounds.maxY {
        UpdateMinMax();
      }
      ResetDocumentOffset(Point(offset.x + dx, offset.y + dy));
    }

    method HandleMouseMoveEvent(lastPos: Vec, pos: Vec)
      modifies this
      ensures Model() == M.HandleMouseMoveEvent(old(Model()), lastPos, pos)
    {
      force := Vec(lastPos.x - pos.x, lastPos.y - pos.y);
      ScrollContentsBy(Trunc(force.x), Trunc(force.y));
    }

    method ZoomBy(center: Point, factor: real)
      modifies this
      ensures Model() == M.ZoomBy(old(Model()), center, factor, minZoom, maxZoom)
    {
      var tempZoom := zoom * factor;
      if minZoom < tempZoom < maxZoom {
        zoom := tempZoom;
        var position := Vec((factor * -(offset.x as real)) + (1.0 - factor) * center.x as real,
                            (factor * -(offset.y as real)) + (1.0 - factor) * center.y as real);
        var oNew := RoundVec(Vec(-position.x, -position.y));
        UpdateMinMax();
        ResetDocumentOffset(oNew);
        running := true;
      }
    }

    /** `sqrtTwo` stands for sqrt(2.0). */
    method ZoomIn(center: Point, sqrtTwo: real)
      modifies this
      ensures Model() == M.ZoomIn(old(Model()), center, sqrtTwo, minZoom, maxZoom)
    {
      if center == Point(0, 0) {
        ZoomBy(Point(Trunc(width / 2.0), Trunc(height / 2.0)), sqrtTwo);
      } else {
        ZoomBy(center, sqrtTwo);
      }
    }

    /** `sqrtHalf` stands for sqrt(0.5). */
    method ZoomOut(center: Point, sqrtHalf: real)
      modifies this
      ensures Model() == M.ZoomOut(old(Model()), center, sqrtHalf, minZoom, maxZoom)
    {
      if center == Point(0, 0) {
        ZoomBy(Point(Trunc(width / 2.0), Trunc(height / 2.0)), sqrtHalf);
      } else {
        ZoomBy(center, sqrtHalf);
      }
    }

    /** `zoomX` is the zoom the zoom handler reports. */
    method HandleGesture(pinch: Option<Pinch>, zoomX: real)
      requires StartsPinch(pinch) ==> zoomX > 0.0
      modifies this
      ensures Model() == M.HandleGesture(old(Model()), pinch, zoomX, minZoom, maxZoom)
    {
      if pinch.None? {
        return;
      }
      var p := pinch.value;
      if p.state == GestureStarted {
        updateCanvas := false;
        limits := Limits(minZoom / zoomX, 1.0 + (maxZoom - zoomX));
        scale := 1.0;
      }
      if p.state == GestureStarted || p.state == GestureUpdated {
        pivot := p.centerPoint;
        var newScale := scale + (p.scaleFactor - p.lastScaleFactor);
        if newScale > scale && newScale > limits.hi {
          // dropped: it would grow the scale past the upper limit
        } else if newScale < scale && newScale < limits.lo {
          // dropped: it would shrink the scale below the lower limit
        } else {
          scale := newScale;
        }
      } else if p.state == GestureFinished {
        ZoomBy(RoundVec(p.centerPoint), scale);
        updateCanvas := true;
      }
    }

    /** `ours` tells whether the event is aimed at the controller or its
        canvas item; `handled` whether it was consumed. */
    method EventFilter(ev: Event, ours: bool, zoomX: real) returns (handled: bool)
      requires StartsPinchEvent(ev) ==> zoomX > 0.0
      modifies this
      ensures (Model(), handled) == M.EventFilter(old(Model()), ev, ours, zoomX, minZoom, maxZoom)
    {
      if !ours {
        return false;
      }
      match ev
      case MousePress =>
        velocity := Zero;
        running := false;
        handled := true;
      case MouseMove(lastPos, pos) =>
        if updateCanvas {
          HandleMouseMoveEvent(lastPos, pos);
        }
        handled := true;
      case MouseRelease =>
        running := true;
        handled := true;
      case TouchBegin =>
        handled := true;
      case Gesture(pinch) =>
        HandleGesture(pinch, zoomX);
        handled := true;
      case OtherEvent =>
        handled := false;
    }

    method TimerUpdate()
      modifies this
      ensures Model() == M.TimerUpdate(old(Model()))
      ensures force == Zero
    {
      var px, py := offset.x as real, offset.y as real;
      var totalForce := Vec(force.x - DragCoeff * velocity.x, force.y - DragCoeff * velocity.y);
      force := Zero;

      var accel := Vec(totalForce.x / Mass, totalForce.y / Mass);

      px, py := px + velocity.x, py + velocity.y;
      ghost var cx, cy := px, py;
      if px < bounds.minX {
        px := px * SpringCoeff;
      }
      if py < bounds.minY {
        py := py * SpringCoeff;
      }
      assert px == if cx < bounds.minX then cx * SpringCoeff else cx;
      assert py == if cy < bounds.minY then cy * SpringCoeff else cy;
      ghost var sx, sy := px, py;
      if px > bounds.maxX {
        var diff := px - bounds.maxX;
        px := bounds.maxX + diff * Overshoot;
      }
      if py > bounds.maxY {
        var diff := py - bounds.maxY;
        py := bounds.maxY + diff * Overshoot;
      }
      assert px == if sx > bounds.maxX then bounds.maxX + (sx - bounds.maxX) * Overshoot else sx;
      assert py == if sy > bounds.maxY then bounds.maxY + (sy - bounds.maxY) * Overshoot else sy;

      ghost var next := Vec(NextVelocity(velocity.x, old(force.x)), NextVelocity(velocity.y, old(force.y)));
      velocity := Vec(velocity.x + accel.x * TimeStep, velocity.y + accel.y * TimeStep);
      assert velocity == next;
      assert Model() == old(Model()).(force := Zero, velocity := next);
      assert Trunc(px) == NextCoordinate(offset.x, old(velocity.x), bounds.minX, bounds.maxX);
      assert Trunc(py) == NextCoordinate(offset.y, old(velocity.y), bounds.minY, bounds.maxY);

      ResetDocumentOffset(Point(Trunc(px), Trunc(py)));
    }
  }
}
