/** The input events the controller's event filter reacts to. */
module Events {
  import opened Numeric

  datatype Option<T> = None | Some(value: T)

  /** Qt::GestureState. */
  datatype GestureState = NoGesture | GestureStarted | GestureUpdated | GestureFinished | GestureCanceled

  /** The fields of a QPinchGesture the controller reads. */
  datatype Pinch = Pinch(state: GestureState, centerPoint: Vec, scaleFactor: real, lastScaleFactor: real)

  /** The event kinds the filter distinguishes; a gesture event may carry no
      pinch gesture at all. */
  datatype Event =
    | MousePress
    | MouseMove(lastPos: Vec, pos: Vec)
    | MouseRelease
    | TouchBegin
    | Gesture(pinch: Option<Pinch>)
    | OtherEvent

  /** Whether a gesture event starts a pinch: the one case that reads the
      zoom handler's zoom. */
  predicate StartsPinch(pinch: Option<Pinch>) {
    pinch.Some? && pinch.value.state == GestureStarted
  }

  /** Whether an event starts a pinch. */
  predicate StartsPinchEvent(ev: Event) {
    ev.Gesture? && StartsPinch(ev.pinch)
  }
}
