/**
 * `BasicContainerViewModel`: the per-alert dismiss request flag, observed by
 * the container, plus the gesture queries it answers through the one
 * `GestureProcessor` it builds.
 */
module ContainerViewModel {

  import opened AlertTypes
  import opened GestureProcessing

  class BasicContainerViewModel {
    /** Built once from the alert's gesture list and never replaced. */
    const gestureProcessor: GestureProcessor
    /** Written from outside (by `dismiss(id:)`); the container reacts to `true`. */
    var shouldDismiss: bool

    constructor(gestures: seq<AlertGesture>)
      ensures !shouldDismiss
      ensures fresh(gestureProcessor)
      ensures gestureProcessor.swipeThresholds == Thresholds(gestures)
      ensures gestureProcessor.hasTapGesture <==> Tap in gestures
    {
      gestureProcessor := new GestureProcessor(gestures);
      shouldDismiss := false;
    }

    /** Exactly the processor's answer for the same drag; `shouldDismiss` is untouched. */
    method ShouldDismissOnSwipe(x: real, y: real) returns (dismiss: bool)
      ensures dismiss <==> SwipeDismisses(gestureProcessor.swipeThresholds, x, y)
    {
      dismiss := gestureProcessor.ShouldDismissOnSwipe(x, y);
    }

    /** The processor's tap flag, whatever the swipe configuration; `shouldDismiss` is untouched. */
    method ShouldDismissOnTap() returns (dismiss: bool)
      ensures dismiss == gestureProcessor.hasTapGesture
    {
      dismiss := gestureProcessor.hasTapGesture;
    }
  }

}
