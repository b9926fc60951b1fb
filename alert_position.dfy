/**
 * `AlertPositionEnum.calculateOrigin` / `calculateFrame`: where an alert of a
 * given size is placed inside a window, given the window's bounds and safe
 * area. Every position centres the alert horizontally; the positions differ
 * in the vertical origin.
 */
module AlertPlacement {

  import opened AlertTypes

  /** The top inset used when the window reports no safe-area top. */
  const DefaultTopInset: real := 20.0

  /** How far above the safe-area top a dynamic-island alert starts. */
  const DynamicIslandLift: real := 113.0

  /** The safe-area top if it is positive, otherwise the 20-point default. */
  function EffectiveTopInset(insets: EdgeInsets): (inset: real)
    ensures inset > 0.0
    ensures insets.top > 0.0 ==> inset == insets.top
    ensures insets.top <= 0.0 ==> inset == DefaultTopInset
  {
    if insets.top > 0.0 then insets.top else DefaultTopInset
  }

  function CalculateOrigin(position: AlertPosition, size: Size, window: WindowGeometry): (origin: Point)
    // horizontally centred: as much room on the left as on the right
    ensures origin.x == window.bounds.width - (origin.x + size.width)
    ensures position == Top ==> origin.y == EffectiveTopInset(window.safeAreaInsets)
    // vertically centred: as much room above as below
    ensures position == Center ==> origin.y == window.bounds.height - (origin.y + size.height)
    // the bottom edge rests on the bottom of the safe area
    ensures position == Bottom ==> origin.y + size.height == window.bounds.height - window.safeAreaInsets.bottom
    // tucked 113 points above a tall (notched) safe-area top, otherwise at the default top
    ensures position == DynamicIsland ==>
      if EffectiveTopInset(window.safeAreaInsets) > DefaultTopInset
      then origin.y + DynamicIslandLift == EffectiveTopInset(window.safeAreaInsets)
      else origin.y == DefaultTopInset
  {
    var topInset := EffectiveTopInset(window.safeAreaInsets);
    var x := (window.bounds.width - size.width) / 2.0;
    match position
    case Top => Point(x, topInset)
    case Center => Point(x, (window.bounds.height - size.height) / 2.0)
    case Bottom => Point(x, window.bounds.height - size.height - window.safeAreaInsets.bottom)
    case DynamicIsland => Point(x, if topInset > DefaultTopInset then topInset - DynamicIslandLift else DefaultTopInset)
  }

  /** The frame keeps exactly the requested size and sits at `CalculateOrigin`. */
  function CalculateFrame(position: AlertPosition, size: Size, window: WindowGeometry): (frame: Rect)
    ensures frame.size == size
    ensures frame.origin == CalculateOrigin(position, size, window)
  {
    Rect(CalculateOrigin(position, size, window), size)
  }

  /** Content no wider than the window lies entirely within it horizontally. */
  lemma FrameFitsHorizontally(position: AlertPosition, size: Size, window: WindowGeometry)
    requires 0.0 <= size.width <= window.bounds.width
    ensures var frame := CalculateFrame(position, size, window);
      0.0 <= frame.origin.x && frame.origin.x + frame.size.width <= window.bounds.width
  {
  }

  /** With no safe-area top, `.top` and `.dynamicIsland` both start 20 points down. */
  lemma NoSafeAreaTopPlacesTopAndIslandAlike(size: Size, window: WindowGeometry)
    requires window.safeAreaInsets.top <= 0.0
    ensures CalculateOrigin(Top, size, window).y == DefaultTopInset
    ensures CalculateOrigin(DynamicIsland, size, window).y == DefaultTopInset
  {
  }

  /** A 200x80 alert at the bottom of a 400x800 window with a 20-point bottom inset sits at (100, 700). */
  lemma BottomPlacementExample()
    ensures CalculateOrigin(Bottom, Size(200.0, 80.0), WindowGeometry(Size(400.0, 800.0), EdgeInsets(0.0, 20.0)))
         == Point(100.0, 700.0)
  {
  }

}
