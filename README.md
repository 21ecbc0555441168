# Touch viewport controller: a Dafny model

This project models the viewport controller of the MeeGo office suite's
declarative canvas (`CMCanvasControllerDeclarative`). The controller pans
and zooms a document view under finger input. It has four parts:

- **Bounds window.** `updateMinMax` computes the range of document offsets
  inside which no edge resistance applies. The inputs are the item size,
  the document size, the margin and the vast-scrolling factor.
- **Inertial tick.** `timerUpdate` runs every 40 ms while the timer is
  active. It takes the drag force and resets it. It advances the offset by
  the velocity from before the tick and applies edge resistance on each
  axis. Then it updates the velocity from the taken force and the viscous
  drag.
- **Drag input.** `eventFilter` handles the mouse events. A press zeroes
  the velocity and stops the timer. A move sets the force to the pointer
  delta and scrolls by its truncation toward zero, so a move of less than
  a pixel scrolls nothing. A release restarts the timer.
- **Zoom.** `zoomBy` accepts a factor only when the new zoom lies strictly
  inside the global zoom range. On acceptance it keeps the point under the
  given centre fixed. The pinch handler (`handleGesture`) previews the
  scale between limits fixed at the gesture start. At the end it commits
  the scale through `zoomBy`.

The project has these modules:

- `Numeric` holds Qt's point types and the two real-to-int conversions:
  truncation for `QPoint(float, float)` and `qRound` for
  `QPointF::toPoint`.
- `Events` holds the input events.
- `BoundsWindow`, `Motion` and `Zoom` hold the arithmetic of each part as
  functions, with lemmas about them.
- `ControllerModel` gives the whole controller state as a value and one
  transition function per operation. Its lemmas cover what sequences of
  events do.
- `Controller` has the class `CanvasController`. Its fields are updated in
  place. Each method is proved to move the state exactly as the matching
  transition says (`Model() == M.Op(old(Model()), ...)`).

Numbers are `real`: float and qreal rounding is not modelled. Document
offsets are integers, as `QPoint`s are, and every float-to-int conversion
of the source is written out. The collaborators become inputs:

- the item's width and height, set through `Resize`;
- the document size and the margin;
- the zoom handler's current zoom (`zoomX`);
- the global minimum and maximum zoom, as constants of the class;
- the values `sqrt(2.0)` and `sqrt(0.5)`, as parameters of `ZoomIn` and
  `ZoomOut`.

The timer is the boolean `running`. A tick is a call of `TimerUpdate`.

Points of behaviour the model keeps as the code has them:

- A mouse move overwrites the force. It does not add to it
  (`MoveOverwritesForce`).
- The zoom range test in `zoomBy` is strict on both ends.
- Setting the document offset emits `moveDocumentOffset`. Its slot
  recomputes the window, so every offset change refreshes the bounds.
  A resize of the item does not refresh them: the window stays stale until
  the next offset change or setter call (`setVastScrolling`,
  `updateDocumentSize`, `setMargin`).
- Below the lower bound, edge resistance scales the coordinate toward zero,
  not toward the bound. Above the upper bound it keeps 90% of the overshoot.
  Both rules apply in one tick when `c < minX` and `0.8*c > maxX`, as for
  `c = -31` in the window `[-30, -25]`.
- The pinch's lower scale limit maps onto the global minimum zoom. The
  upper limit `1 + (maxZoom - z0)` does not map onto the maximum: it misses
  it by `(z0 - 1) * (maxZoom - z0)`. So when the zoom handler's zoom equals
  the committed zoom, a pinch started at a zoom between 1 and the maximum
  can preview a scale that `zoomBy` then refuses
  (`PinchLimits`, `PinchPreviewBeyondMaximum`).
- A pinch that is cancelled after it starts never turns `updateCanvas`
  back on. Later drags are then swallowed (`CancelledPinchKeepsDragsOff`).

## Model

| member | source | states |
|---|---|---|
| `Numeric.Trunc` | CMCanvasControllerDeclarative.cpp:476 | The float-to-int conversion truncates toward zero: the result is the integer within one unit of the input, on the zero side. |
| `Numeric.Round` | CMCanvasControllerDeclarative.cpp:179 | `toPoint` rounds to the nearest integer, with halves going up: `r - 0.5 < t <= r + 0.5`. |
| `BoundsWindow.Compute` | CMCanvasControllerDeclarative.cpp:424-430 | The window's extent on each axis is the document size minus the viewport size, plus twice the overscroll (`size * factor`) and twice the margin. |
| `BoundsWindow.OrderedIff` | CMCanvasControllerDeclarative.cpp:424-430 | `minX <= maxX` holds exactly when `docW + 2*w*f + 2*m >= w`, and likewise for Y. |
| `BoundsWindow.OrderedWhenDocumentCovers` | CMCanvasControllerDeclarative.cpp:424-430 | Take a document at least as large as the viewport, a non-negative factor and a non-negative margin. Then the window is ordered and contains the origin on both axes. |
| `Motion.NextVelocity` | CMCanvasControllerDeclarative.cpp:452-474 | With mass 10, drag 0.05 and time step 1000/40, a tick gives `v' = 0.875*v + 2.5*force`. |
| `Motion.ResistEdges` | CMCanvasControllerDeclarative.cpp:458-472 | A coordinate inside the window is untouched. One below min becomes `c*0.8` (if that is not above max). One above max keeps exactly 90% of its overshoot, `r - max == 0.9*(c - max)`, so it ends strictly between max and `c`. When the spring is followed by the overshoot rule, 90% of the sprung value's overshoot `c*0.8 - max` remains. |
| `Motion.NextCoordinate` | CMCanvasControllerDeclarative.cpp:457-476 | With zero velocity, a coordinate inside the window is a fixpoint of the tick. |
| `Motion.Decay` | CMCanvasControllerDeclarative.cpp:452-474 | Without force, the velocity after any number of ticks keeps its sign and never grows in magnitude. |
| `Motion.DecayGeometric` | CMCanvasControllerDeclarative.cpp:452-474 | Without force, the velocity after `n` ticks is `v * 0.875^n`. |
| `Motion.CoastVelocity` | CMCanvasControllerDeclarative.cpp:449-477 | During force-free ticks the velocity follows `Decay`, whatever the position does. |
| `Motion.CoastAtRest` | CMCanvasControllerDeclarative.cpp:449-477 | A coordinate at rest inside the window stays put for any number of force-free ticks. |
| `Motion.StepBackFromMax` | CMCanvasControllerDeclarative.cpp:465-476 | With the window around the origin (`min <= 0 <= max`), one force-free tick from rest above max moves the coordinate back by at least 1, but not below `floor(max)`. |
| `Motion.ReboundFromMax` | CMCanvasControllerDeclarative.cpp:465-476 | A coordinate at rest beyond max (window around the origin) drops by at least 1 per tick. Within `pos - floor(max)` ticks it rests exactly at `floor(max)`. |
| `Motion.ReboundFromMin` | CMCanvasControllerDeclarative.cpp:458-463 | With the window around the origin, a coordinate at rest below min (and not above 0) climbs by at least 1 per tick. It never passes 0 and is inside the window within `min - pos` ticks. |
| `Zoom.ZoomedOffset` | CMCanvasControllerDeclarative.cpp:174-179 | The new offset keeps the centre fixed: `r + c == factor * (o + c)`. |
| `Zoom.ZoomedPoint` | CMCanvasControllerDeclarative.cpp:174-179 | The rounded offset is within half a unit of the centre-preserving one. A factor of 1 leaves the offset unchanged. |
| `Zoom.AxisRoundTrip` | CMCanvasControllerDeclarative.cpp:176-177 | Before rounding, zooming by `f` and then by `g` with `f*g == 1` restores the offset. |
| `Zoom.ZoomRoundTrip` | CMCanvasControllerDeclarative.cpp:174-179 | The same holds after rounding, whenever the first zoom needed no rounding. |
| `Zoom.PinchLimits` | CMCanvasControllerDeclarative.cpp:391-395 | `z0 * zoomMin == minZoom`. `z0 * zoomMax == maxZoom + (z0 - 1)*(maxZoom - z0)`. |
| `Zoom.PinchStartsInside` | CMCanvasControllerDeclarative.cpp:394-398 | The initial scale 1 is within `[zoomMin, zoomMax]` iff `minZoom <= z0 <= maxZoom`. |
| `Zoom.PinchPreviewBeyondMaximum` | CMCanvasControllerDeclarative.cpp:394-417 | Start at zoom 2 (handler zoom and committed zoom both 2) with maximum 4: the preview reaches scale 2.5, which `zoomBy` refuses. |
| `Zoom.PinchStep` | CMCanvasControllerDeclarative.cpp:404-412 | An update is applied whole or dropped. An update landing inside the limits is never dropped. The scale never moves against the direction of travel. A scale inside the limits stays inside. Whatever the scale, an update is dropped exactly when it grows the scale past the upper limit or shrinks it below the lower one. |
| `Zoom.PinchSweep` | CMCanvasControllerDeclarative.cpp:402-413 | Over any sequence of updates, a scale inside the limits stays inside. Growing deltas never shrink it. |
| `ControllerModel.InitialWindowDegenerate` | CMCanvasControllerDeclarative.cpp:297-298 | The constructed controller's window is all zero, so it meets the degenerate-window test (`minX == maxX` or `minY == maxY`) and the first scroll recomputes it. |
| `ControllerModel.ScrollShifts` | CMCanvasControllerDeclarative.cpp:292-306 | When `updateCanvas` is set, scrolling shifts the offset by exactly `(dx, dy)` and refreshes the window; nothing else changes. Otherwise it is a no-op. |
| `ControllerModel.TickFrame` | CMCanvasControllerDeclarative.cpp:449-477 | After a tick the force is zero and the window is current. Only offset, velocity, force and window change. |
| `ControllerModel.TickOrdering` | CMCanvasControllerDeclarative.cpp:451-474 | The new velocity is `0.875*v + 2.5*force`. The new offset does not depend on the force, so the position uses the pre-tick velocity. |
| `ControllerModel.TickAtRest` | CMCanvasControllerDeclarative.cpp:449-477 | Take zero force, zero velocity and an offset inside the window. Then a tick leaves offset and velocity unchanged. |
| `ControllerModel.TickFromPush` | CMCanvasControllerDeclarative.cpp:449-477 | With the window around the origin, a force of (100, 0) from rest at the origin leaves the offset at the origin and gives velocity (250, 0). |
| `ControllerModel.TicksFollowAxes` | CMCanvasControllerDeclarative.cpp:449-477 | Once the force is consumed and the window is current, repeated ticks act on each axis independently, as `Motion.Coast`. |
| `ControllerModel.SettlesAtFarEdges` | CMCanvasControllerDeclarative.cpp:465-476 | With the window current and around the origin, a viewport at rest, with no force, past the right and bottom edges comes to rest exactly at `(floor(maxX), floor(maxY))`, with zero velocity. |
| `ControllerModel.VelocityDecays` | CMCanvasControllerDeclarative.cpp:452-474 | Without force, each axis's velocity after `n` ticks is `Decay(v, n)`, whether or not the window is current. |
| `ControllerModel.PressStops` | CMCanvasControllerDeclarative.cpp:311-314 | A press on any state zeroes the velocity and stops the timer. Nothing else changes, and the event is consumed. |
| `ControllerModel.ReleaseRestarts` | CMCanvasControllerDeclarative.cpp:319-321 | A release on any state starts the timer. Nothing else changes, and the event is consumed. |
| `ControllerModel.DragShiftsByDelta` | CMCanvasControllerDeclarative.cpp:367-376 | A move with `updateCanvas` set, between any (fractional) positions, sets `force := lastPos - pos`. It shifts the offset by that vector truncated toward zero on each axis. Besides that, only the window is refreshed. |
| `ControllerModel.WholePixelDrag` | CMCanvasControllerDeclarative.cpp:367-376 | Between whole-pixel positions the offset shifts by exactly `lastPos - pos`. |
| `ControllerModel.SubPixelMoveKeepsOffset` | CMCanvasControllerDeclarative.cpp:369-375 | A move of less than one pixel on each axis sets the force but leaves the offset where it was. |
| `ControllerModel.MoveOverwritesForce` | CMCanvasControllerDeclarative.cpp:372-373 | After two moves the force is the second delta alone. |
| `ControllerModel.MoveGated` | CMCanvasControllerDeclarative.cpp:315-318 | While `updateCanvas` is false, a move is consumed and changes nothing. |
| `ControllerModel.ZoomByEffect` | CMCanvasControllerDeclarative.cpp:166-186 | Outside the strict zoom range `zoomBy` is a no-op. Inside it, zoom becomes `zoom*factor`, the offset becomes the centre-preserving point, the window is refreshed and the timer runs; nothing else changes. |
| `ControllerModel.ZoomInOutRoundTrip` | CMCanvasControllerDeclarative.cpp:188-204 | Zoom in then out about the same point, with factors whose product is 1 and both accepted. This restores the zoom. It also restores the offset when the zoom-in needed no rounding. |
| `ControllerModel.PinchStart` | CMCanvasControllerDeclarative.cpp:387-411 | Start clears `updateCanvas` and sets the limits from `zoomX`. It then falls through and applies the first delta to scale 1. With `zoomX` in the global range, the scale is within the limits. Nothing else changes. |
| `ControllerModel.UpdatesSweep` | CMCanvasControllerDeclarative.cpp:402-413 | A run of update events moves the scale as `PinchSweep` and changes only the scale and the pivot. |
| `ControllerModel.PinchScaleBounded` | CMCanvasControllerDeclarative.cpp:387-413 | A pinch started from a zoom in the global range keeps its scale within the pinch limits through any run of updates. |
| `ControllerModel.PinchFinish` | CMCanvasControllerDeclarative.cpp:414-419 | Finish commits the scale through `zoomBy` about the rounded centre and sets `updateCanvas`. An accepted scale multiplies the zoom, moves the offset to the centre-preserving point, refreshes the window and starts the timer; nothing else changes. A refused scale changes nothing but `updateCanvas`. |
| `ControllerModel.CancelledPinchKeepsDragsOff` | CMCanvasControllerDeclarative.cpp:385-420 | Start followed by Cancel leaves `updateCanvas` false, so later moves are swallowed. |
| `Controller.CanvasController.constructor` | CMCanvasControllerDeclarative.cpp:21-27 | Zero geometry and window, timer stopped, `updateCanvas` set, zoom 1, scale 1. |
| `Controller.CanvasController.UpdateMinMax` | CMCanvasControllerDeclarative.cpp:424-430 | Writes `Compute(...)` of the current geometry into the four bounds and nothing else. |
| `Controller.CanvasController.SetVastScrolling` | CMCanvasControllerDeclarative.cpp:103-107 | Stores the factor and refreshes the window. |
| `Controller.CanvasController.UpdateDocumentSize` | CMCanvasControllerDeclarative.cpp:114-120 | Stores the document size and refreshes the window. |
| `Controller.CanvasController.SetMargin` | CMCanvasControllerDeclarative.cpp:351-355 | Stores the margin and refreshes the window. |
| `Controller.CanvasController.Resize` | CMCanvasControllerDeclarative.cpp:357-365 | Changes the size only; the cached window stays as it was. |
| `Controller.CanvasController.DocumentOffsetMoved` | CMCanvasControllerDeclarative.cpp:443-447 | Refreshes the window. |
| `Controller.CanvasController.ResetDocumentOffset` | CMCanvasControllerDeclarative.cpp:122-130 | Sets the offset. Through the offset-moved signal, this leaves the window current. |
| `Controller.CanvasController.AttachCanvas` | CMCanvasControllerDeclarative.cpp:273-279 | Refreshes the window, puts the offset at its truncated top-left corner and starts the timer. |
| `Controller.CanvasController.ScrollContentsBy` | CMCanvasControllerDeclarative.cpp:292-306 | Follows `ControllerModel.ScrollContentsBy`, whose effect `ScrollShifts` states. |
| `Controller.CanvasController.HandleMouseMoveEvent` | CMCanvasControllerDeclarative.cpp:367-376 | Sets the force to the pointer delta, then scrolls by its truncation. |
| `Controller.CanvasController.ZoomBy` | CMCanvasControllerDeclarative.cpp:166-186 | Follows `ControllerModel.ZoomBy`, whose effect `ZoomByEffect` states. |
| `Controller.CanvasController.ZoomIn` | CMCanvasControllerDeclarative.cpp:197-204 | Zooms by the given square root of two, about the centre or, for the null point, the middle of the item. |
| `Controller.CanvasController.ZoomOut` | CMCanvasControllerDeclarative.cpp:188-195 | Zooms by the given square root of one half, with the same choice of centre. |
| `Controller.CanvasController.HandleGesture` | CMCanvasControllerDeclarative.cpp:378-422 | Follows `ControllerModel.HandleGesture`: no pinch does nothing; Start falls through into Update; Finish zooms, then sets `updateCanvas`; other states do nothing. |
| `Controller.CanvasController.EventFilter` | CMCanvasControllerDeclarative.cpp:308-331 | Handles press, move, release, touch begin and gesture events for the controller or its canvas item and consumes them. Anything else is passed on unchanged. |
| `Controller.CanvasController.TimerUpdate` | CMCanvasControllerDeclarative.cpp:449-477 | Performs one tick in the source's order: force consumed and reset, position moved by the old velocity, spring then overshoot per axis, velocity updated, offset truncated and reset. The result is exactly `ControllerModel.TimerUpdate`. |

## Left out

- Floating-point rounding: all arithmetic is exact `real` arithmetic. The
  only conversions modelled are the float-to-int truncation and the `qRound`
  of `toPoint`.
- `sqrt(2.0)` and `sqrt(0.5)` in `zoomIn`/`zoomOut` are parameters. The
  round-trip lemma assumes their product is exactly 1.
- The `QTimer` is only a `running` flag. Ticks happen when `TimerUpdate` is
  called. The 40 ms interval appears only as the time step 1000/40.
- Rendering and scene plumbing are not modelled: `updateCanvasSize`, the
  canvas item's geometry and visibility, the scale proxy's pixmap and
  visibility, `setFocusProxy`, and scene event filters.
- Signals to the proxy object are not modelled (`emitSizeChanged`,
  `emitZoomBy`, `emitMoveDocumentOffset`, `emitCanvasSet`,
  `emitCanvasRemoved`). Their receivers are outside this model. Any effect
  they have on the document size or on the zoom handler's zoom (a
  re-zoom resizing the document, say) is not modelled. The one connection
  the component makes to itself is kept: `moveDocumentOffset` to
  `documentOffsetMoved`.
- `setCanvas` is modelled only by its final state changes
  (`AttachCanvas`). The tool-manager registration, the zoom controller
  creation (`zoomController`) and the re-parenting of the canvas item are
  not modelled.
- `resetZoom` only delegates to the external zoom controller, so it is not
  modelled.
- The stub overrides are not modelled, since they have no behaviour:
  `setZoomWithWheel`, `setScrollBarValue`, `pan`, `preferredCenter`,
  `setPreferredCenter`, `recenterPreferred`, `zoomTo`, `ensureVisible` and
  `setDrawShadow`. The same holds for the getters that only return a field
  or the item size.
- The event's target is reduced to the flag `ours`: whether the event is
  for the controller or its canvas item. The base class's handling of other
  events is not modelled. Its answer is taken as "not consumed".
- The zoom handler's zoom `zoomX` is an input. It is required to be
  positive only for an event that starts a pinch, since the limits divide
  by it there.
- `zoomMin` and `zoomMax` start as zero. In the source they are
  uninitialised until the first pinch starts.
- The fields `dragging`, `distX` and `distY` are never read or updated
  past construction, and the destructor only frees memory. They are not
  modelled.
- Integer width: offsets and the results of `Trunc` and `Round` are
  unbounded integers. `QPoint` holds 32-bit ints, and the C++ conversion
  of an out-of-range float to int is undefined, so overflow of the offset
  is not modelled.
- Application start-up and the canvas subclass declarations hold no logic
  of this component. They are not modelled.
