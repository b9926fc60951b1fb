/**
 * The value types shared by the alert library: gesture configuration,
 * screen positions, the per-alert container configuration, and the
 * CoreGraphics records (`CGSize`, `CGPoint`, `CGRect`, `UIEdgeInsets`)
 * with `CGFloat` taken as an exact `real`.
 */
module AlertTypes {

  import opened Optional

  /** `SwipeDirection`: the directions a dismissing swipe may take. */
  datatype SwipeDirection = Left | Right | Up | Down

  /**
   * `AlertGestureConfigEnum`: a swipe in any of the listed directions that
   * travels farther than `threshold`, a tap, or no gesture at all.
   */
  datatype AlertGesture =
    | Swipe(directions: seq<SwipeDirection>, threshold: real)
    | Tap
    | NoGesture

  /** `AlertPositionEnum`: where on the screen an alert is placed. */
  datatype AlertPosition = Top | Center | Bottom | DynamicIsland

  /**
   * `ContainerConfig`, restricted to the fields the lifecycle reads:
   * the identifier, the optional auto-dismiss duration in seconds, the
   * position and the dismiss gestures.
   */
  datatype ContainerConfig = ContainerConfig(
    id: string,
    duration: Option<real>,
    position: AlertPosition,
    gestures: seq<AlertGesture>)

  datatype Size = Size(width: real, height: real)

  datatype Point = Point(x: real, y: real)

  datatype Rect = Rect(origin: Point, size: Size)

  /** `CGRect.zero`: the frame of a view that has not been placed. */
  const ZeroRect := Rect(Point(0.0, 0.0), Size(0.0, 0.0))

  /** The safe-area insets the placement reads (left and right are never used). */
  datatype EdgeInsets = EdgeInsets(top: real, bottom: real)

  /** What a `UIWindow` contributes to placement: its bounds and safe-area insets. */
  datatype WindowGeometry = WindowGeometry(bounds: Size, safeAreaInsets: EdgeInsets)

  function Abs(r: real): (a: real)
    ensures a >= 0.0 && (a == r || a == -r)
  {
    if r < 0.0 then -r else r
  }

}
