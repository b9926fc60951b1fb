/**
 * `BasicContainerView`: the wrapper that animates an alert in when it
 * appears, may arm an auto-dismiss timer, and animates it out on any
 * dismiss trigger before calling `onDismiss`.
 *
 * The `Task`s and sleeps of the source become explicit pending work: a timer
 * started by `showAlertWithAnimation` waits in `pendingTimers` until the
 * environment delivers `TimerFires`, and every `dismissWithAnimation` adds
 * one exit animation to `pendingExits`, finished by `ExitAnimationFinished`,
 * which is when `onDismiss` runs.
 */
module ContainerView {

  import opened Optional
  import opened AlertTypes
  import opened GestureProcessing
  import opened ContainerViewModel

  /**
   * The `onDismiss` closure. The only closure the library installs is the
   * presentation manager's, which removes the alert with the given identifier.
   */
  datatype DismissCallback = RemoveAlertView(identifier: string)

  /** The sleep before an auto-dismiss: the duration, but never under 1 second. */
  function AutoDismissDelay(duration: real): (delay: real)
    ensures delay >= 1.0 && delay >= duration
    ensures delay == duration || delay == 1.0
  {
    if duration < 1.0 then 1.0 else duration
  }

  class BasicContainerView {
    const config: ContainerConfig
    const viewModel: BasicContainerViewModel
    var onDismiss: Option<DismissCallback>
    /** The `@State` flag the animation modifier follows. */
    var animateAlert: bool
    /** Delays of the auto-dismiss sleeps still running, oldest first. */
    var pendingTimers: seq<real>
    /** Exit animations started by `dismissWithAnimation` whose 0.3 s sleep has not ended. */
    var pendingExits: nat

    /**
     * The view model was built from this configuration's gestures, and every
     * pending timer sleeps for the clamped configured duration.
     */
    ghost predicate Valid()
      reads this
    {
      && viewModel.gestureProcessor.swipeThresholds == Thresholds(config.gestures)
      && (viewModel.gestureProcessor.hasTapGesture <==> Tap in config.gestures)
      && forall t :: t in pendingTimers ==> config.duration.Some? && t == AutoDismissDelay(config.duration.value)
    }

    constructor(containerConfig: ContainerConfig, onDismiss: Option<DismissCallback>)
      ensures Valid()
      ensures config == containerConfig && this.onDismiss == onDismiss
      ensures fresh(viewModel) && !viewModel.shouldDismiss
      ensures !animateAlert && pendingTimers == [] && pendingExits == 0
    {
      config := containerConfig;
      this.onDismiss := onDismiss;
      viewModel := new BasicContainerViewModel(containerConfig.gestures);
      animateAlert := false;
      pendingTimers := [];
      pendingExits := 0;
    }

    /**
     * A copy of a (not yet shown) container with another `onDismiss`: the
     * value-type copy that the presentation manager hosts. It shares the
     * original's configuration and view model.
     */
    constructor WithDismiss(original: BasicContainerView, onDismiss: Option<DismissCallback>)
      requires original.Valid()
      ensures Valid()
      ensures config == original.config && viewModel == original.viewModel && this.onDismiss == onDismiss
      ensures !animateAlert && pendingTimers == [] && pendingExits == 0
    {
      config := original.config;
      viewModel := original.viewModel;
      this.onDismiss := onDismiss;
      animateAlert := false;
      pendingTimers := [];
      pendingExits := 0;
    }

    /** `onAppear` runs `showAlertWithAnimation`: animate in, and arm a timer if a duration is set. */
    method OnAppear()
      requires Valid()
      modifies this`animateAlert, this`pendingTimers
      ensures Valid()
      ensures animateAlert
      ensures pendingTimers == old(pendingTimers) +
        (if config.duration.Some? then [AutoDismissDelay(config.duration.value)] else [])
    {
      animateAlert := true;
      if config.duration.Some? {
        pendingTimers := pendingTimers + [AutoDismissDelay(config.duration.value)];
      }
    }

    /** `dismissWithAnimation`: animate out and start the 0.3 s wait before `onDismiss`. No guard. */
    method DismissWithAnimation()
      modifies this`animateAlert, this`pendingExits
      ensures !animateAlert
      ensures pendingExits == old(pendingExits) + 1
    {
      animateAlert := false;
      pendingExits := pendingExits + 1;
    }

    /** The oldest auto-dismiss sleep ends and calls `dismissWithAnimation`; without one, nothing happens. */
    method TimerFires()
      requires Valid()
      modifies this`animateAlert, this`pendingTimers, this`pendingExits
      ensures Valid()
      ensures old(pendingTimers) == [] ==>
        pendingTimers == [] && animateAlert == old(animateAlert) && pendingExits == old(pendingExits)
      ensures old(pendingTimers) != [] ==>
        pendingTimers == old(pendingTimers)[1..] && !animateAlert && pendingExits == old(pendingExits) + 1
    {
      if pendingTimers != [] {
        ghost var before := pendingTimers;
        pendingTimers := pendingTimers[1..];
        assert forall t :: t in pendingTimers ==> t in before;
        DismissWithAnimation();
      }
    }

    /** `onReceive(viewModel.$shouldDismiss)`: a published `true` dismisses, `false` does nothing. */
    method ShouldDismissPublished()
      modifies this`animateAlert, this`pendingExits
      ensures viewModel.shouldDismiss ==> !animateAlert && pendingExits == old(pendingExits) + 1
      ensures !viewModel.shouldDismiss ==> animateAlert == old(animateAlert) && pendingExits == old(pendingExits)
    {
      if viewModel.shouldDismiss {
        DismissWithAnimation();
      }
    }

    /** The drag gesture ends with translation (x, y): dismiss iff the configured swipes say so. */
    method DragEnded(x: real, y: real)
      requires Valid()
      modifies this`animateAlert, this`pendingExits
      ensures var dismissed := SwipeDismisses(Thresholds(config.gestures), x, y);
        && (dismissed ==> !animateAlert && pendingExits == old(pendingExits) + 1)
        && (!dismissed ==> animateAlert == old(animateAlert) && pendingExits == old(pendingExits))
    {
      var dismiss := viewModel.ShouldDismissOnSwipe(x, y);
      if dismiss {
        DismissWithAnimation();
      }
    }

    /** The tap gesture ends: dismiss iff `.tap` is among the configured gestures. */
    method TapEnded()
      requires Valid()
      modifies this`animateAlert, this`pendingExits
      ensures Tap in config.gestures ==> !animateAlert && pendingExits == old(pendingExits) + 1
      ensures Tap !in config.gestures ==> animateAlert == old(animateAlert) && pendingExits == old(pendingExits)
    {
      var dismiss := viewModel.ShouldDismissOnTap();
      if dismiss {
        DismissWithAnimation();
      }
    }

    /**
     * The 0.3 s after one `dismissWithAnimation` have passed: `onDismiss` is
     * called if set, and `called` says which callback ran.
     */
    method ExitAnimationFinished() returns (called: Option<DismissCallback>)
      modifies this`pendingExits
      ensures old(pendingExits) > 0 ==> pendingExits == old(pendingExits) - 1 && called == onDismiss
      ensures old(pendingExits) == 0 ==> pendingExits == 0 && called == None
    {
      called := None;
      if pendingExits > 0 {
        pendingExits := pendingExits - 1;
        called := onDismiss;
      }
    }
  }

  /**
   * Nothing stops a second trigger once the alert is already dismissing: an
   * alert with a tap gesture that is tapped and then told to dismiss by its
   * flag calls `onDismiss` twice.
   */
  method TwoTriggersCallOnDismissTwice() returns (first: Option<DismissCallback>, second: Option<DismissCallback>)
    ensures first == Some(RemoveAlertView("alert")) && second == Some(RemoveAlertView("alert"))
  {
    var config := ContainerConfig("alert", Optional.None, Top, [Tap]);
    var view := new BasicContainerView(config, Some(RemoveAlertView("alert")));
    view.OnAppear();
    view.TapEnded();
    view.viewModel.shouldDismiss := true;
    view.ShouldDismissPublished();
    first := view.ExitAnimationFinished();
    second := view.ExitAnimationFinished();
  }

  /**
   * An alert configured for a half-second auto-dismiss sleeps a full second,
   * and when that timer fires the exit animation leads to `onDismiss`.
   */
  method ShortDurationIsClampedToOneSecond() returns (delay: real, called: Option<DismissCallback>)
    ensures delay == 1.0
    ensures called == Some(RemoveAlertView("toast"))
  {
    var config := ContainerConfig("toast", Some(0.5), Bottom, []);
    var view := new BasicContainerView(config, Some(RemoveAlertView("toast")));
    view.OnAppear();
    delay := view.pendingTimers[0];
    view.TimerFires();
    called := view.ExitAnimationFinished();
  }

}
