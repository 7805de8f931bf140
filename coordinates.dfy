/** `getEventCoordinates`: one canvas-local point from either a mouse or a touch event. */
module Coordinates {
  import opened Common

  /** A touch point in viewport (client) coordinates. */
  datatype TouchPoint = TouchPoint(clientX: int, clientY: int)

  /** The origin of the canvas's bounding client rectangle. */
  datatype Rect = Rect(left: int, top: int)

  /**
   * The native event behind a canvas handler: a mouse event carries its
   * canvas-local offset, a touch event its active and changed touch lists.
   */
  datatype InputEvent =
    | Mouse(offsetX: int, offsetY: int)
    | Touch(touches: seq<TouchPoint>, changedTouches: seq<TouchPoint>)

  /**
   * The point a handler draws at. A touch uses the first active touch, or the
   * first changed touch when none is active, less the canvas origin. With both
   * lists empty the source reads `clientX` of `undefined` and throws: `None`.
   */
  function EventCoordinates(e: InputEvent, rect: Rect): (r: Option<Point>)
    ensures r.None? <==> e.Touch? && e.touches == [] && e.changedTouches == []
    ensures e.Mouse? ==> r == Some(Point(e.offsetX, e.offsetY))
  {
    match e
    case Mouse(ox, oy) => Some(Point(ox, oy))
    case Touch(touches, changed) =>
      if touches != [] then Some(Point(touches[0].clientX - rect.left, touches[0].clientY - rect.top))
      else if changed != [] then Some(Point(changed[0].clientX - rect.left, changed[0].clientY - rect.top))
      else None
  }

  /**
   * Mouse and touch agree: a touch whose first point lies at canvas offset
   * (ox, oy) resolves to the same point as a mouse event with that offset.
   */
  lemma TouchAgreesWithMouse(ox: int, oy: int, rect: Rect, touches: seq<TouchPoint>, changed: seq<TouchPoint>)
    requires touches != [] ==> touches[0] == TouchPoint(rect.left + ox, rect.top + oy)
    requires touches == [] ==> changed != [] && changed[0] == TouchPoint(rect.left + ox, rect.top + oy)
    ensures EventCoordinates(Touch(touches, changed), rect) == EventCoordinates(Mouse(ox, oy), rect)
  {
  }

  /** Touch coordinates are canvas-local: moving the canvas and the touch together changes nothing. */
  lemma TouchIsTranslationInvariant(touches: seq<TouchPoint>, changed: seq<TouchPoint>, rect: Rect, dx: int, dy: int)
    ensures EventCoordinates(Touch(Shift(touches, dx, dy), Shift(changed, dx, dy)), Rect(rect.left + dx, rect.top + dy))
         == EventCoordinates(Touch(touches, changed), rect)
  {
  }

  /** Every touch point moved by (dx, dy). */
  function Shift(ts: seq<TouchPoint>, dx: int, dy: int): (r: seq<TouchPoint>)
    ensures |r| == |ts|
    ensures forall i :: 0 <= i < |ts| ==> r[i] == TouchPoint(ts[i].clientX + dx, ts[i].clientY + dy)
  {
    seq(|ts|, i requires 0 <= i < |ts| => TouchPoint(ts[i].clientX + dx, ts[i].clientY + dy))
  }

  /** The first active touch wins over any changed touch. */
  lemma ActiveTouchWins(t: TouchPoint, rest: seq<TouchPoint>, changed: seq<TouchPoint>, rect: Rect)
    ensures EventCoordinates(Touch([t] + rest, changed), rect) == Some(Point(t.clientX - rect.left, t.clientY - rect.top))
  {
  }
}
