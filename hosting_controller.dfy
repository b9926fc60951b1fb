/**
 * `DynamicUIHostingController`: hosts one alert container, carries the view's
 * accessibility identifier and frame, and on each layout pass reports a
 * change of the content's intrinsic size through `onLayoutChange`.
 */
module HostingController {

  import opened Optional
  import opened AlertTypes
  import opened ContainerView

  /**
   * The `onLayoutChange` closure. The only closure the library installs is the
   * presentation manager's: clamp the new size to the screen and recompute the
   * frame for the captured position.
   */
  datatype LayoutCallback = ClampAndReframe(position: AlertPosition)

  class DynamicUIHostingController {
    const rootView: BasicContainerView
    /** `view.accessibilityIdentifier` */
    const identifier: string
    var onLayoutChange: Option<LayoutCallback>
    /** The intrinsic size seen at the previous layout pass; `None` before the first. */
    var previousSize: Option<Size>
    /** `view.frame` */
    var frame: Rect

    constructor(rootView: BasicContainerView, identifier: string)
      ensures this.rootView == rootView && this.identifier == identifier
      ensures onLayoutChange == None && previousSize == None && frame == ZeroRect
    {
      this.rootView := rootView;
      this.identifier := identifier;
      onLayoutChange := None;
      previousSize := None;
      frame := ZeroRect;
    }

    /**
     * `viewWillLayoutSubviews`: the first pass only records the size; a later
     * pass whose size differs from the previous one calls `onLayoutChange`
     * (if set) once with the new size. `changedTo` is the argument of that
     * call, if it was made.
     */
    method ViewWillLayoutSubviews(newSize: Size) returns (changedTo: Option<Size>)
      modifies this`previousSize
      ensures previousSize == Some(newSize)
      ensures changedTo.Some? <==>
        old(previousSize).Some? && old(previousSize).value != newSize && onLayoutChange.Some?
      ensures changedTo.Some? ==> changedTo.value == newSize
    {
      changedTo := None;
      if previousSize.None? {
        previousSize := Some(newSize);
      }
      if Some(newSize) != previousSize {
        previousSize := Some(newSize);
        if onLayoutChange.Some? {
          changedTo := Some(newSize);
        }
      }
    }
  }

  /**
   * `subviews.first(where: { $0.accessibilityIdentifier == identifier })`:
   * the position of the first view carrying `identifier`, or `|views|` when
   * none does.
   */
  function FirstIndexOf(views: seq<DynamicUIHostingController>, identifier: string): (k: nat)
    ensures k <= |views|
    ensures forall j :: 0 <= j < k ==> views[j].identifier != identifier
    ensures k < |views| ==> views[k].identifier == identifier
    decreases |views|
  {
    if views == [] || views[0].identifier == identifier then 0
    else 1 + FirstIndexOf(views[1..], identifier)
  }

  /** Some view in `views` carries `identifier` as its accessibility identifier. */
  predicate Carries(views: seq<DynamicUIHostingController>, identifier: string)
  {
    exists k :: 0 <= k < |views| && views[k].identifier == identifier
  }

  /** Adding a subview keeps every identifier carried and adds the new view's own. */
  lemma CarriesAfterAppend(views: seq<DynamicUIHostingController>, view: DynamicUIHostingController, identifier: string)
    requires Carries(views, identifier) || view.identifier == identifier
    ensures Carries(views + [view], identifier)
  {
    if view.identifier == identifier {
      assert (views + [view])[|views|] == view;
    } else {
      var k :| 0 <= k < |views| && views[k].identifier == identifier;
      assert (views + [view])[k] == views[k];
    }
  }

  /**
   * `removeSubview(withIdentifier:)`: the subviews with the first subview
   * carrying `identifier` taken out; unchanged when none carries it.
   */
  function WithoutFirst(views: seq<DynamicUIHostingController>, identifier: string): (rest: seq<DynamicUIHostingController>)
    ensures !Carries(views, identifier) ==> rest == views
    ensures Carries(views, identifier) ==>
      exists k :: && 0 <= k < |views| && views[k].identifier == identifier
                  && (forall j :: 0 <= j < k ==> views[j].identifier != identifier)
                  && rest == views[..k] + views[k + 1..]
  {
    var k := FirstIndexOf(views, identifier);
    if k == |views| then views else views[..k] + views[k + 1..]
  }

  /** Taking out the first subview for one identifier keeps every subview of any other identifier. */
  lemma WithoutFirstKeepsOtherIdentifiers(views: seq<DynamicUIHostingController>, identifier: string, other: string)
    requires other != identifier
    requires Carries(views, other)
    ensures Carries(WithoutFirst(views, identifier), other)
  {
    var rest := WithoutFirst(views, identifier);
    var j :| 0 <= j < |views| && views[j].identifier == other;
    if Carries(views, identifier) {
      var k :| && 0 <= k < |views| && views[k].identifier == identifier
               && (forall i :: 0 <= i < k ==> views[i].identifier != identifier)
               && rest == views[..k] + views[k + 1..];
      if j < k {
        assert rest[j] == views[j];
      } else {
        assert rest[j - 1] == views[j];
      }
    } else {
      assert rest[j] == views[j];
    }
  }

}
