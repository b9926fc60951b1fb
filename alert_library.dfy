/**
 * `iOSAlertLibary`: the public facade. Each instance owns its own
 * presentation manager and forwards `showAlert` and `dismissAlert` to it
 * unchanged.
 */
module Library {

  import opened Optional
  import opened AlertTypes
  import opened ContainerView
  import opened HostingController
  import opened StatusBar
  import opened AlertPlacement
  import opened PresentationManager

  class AlertLibrary {
    const presentationManager: AlertPresentationManager

    /** A new library starts with a manager of its own: nothing registered, no overlay. */
    constructor()
      ensures fresh(presentationManager) && fresh(presentationManager.overlayWindowManager)
      ensures presentationManager.Valid()
      ensures presentationManager.alerts == map[]
      ensures presentationManager.overlayWindowManager.overlayWindow == null
      ensures !presentationManager.isOrientationObserverAdded
    {
      presentationManager := new AlertPresentationManager();
    }

    /** `showAlert(container:)`: the container goes to `show` as it is, with the whole of its effect. */
    method ShowAlert(container: BasicContainerView, foregroundSceneAvailable: bool, fittingSize: Option<Size>, window: WindowGeometry)
      returns (ghost mounted: DynamicUIHostingController)
      requires presentationManager.Valid() && container.Valid()
      modifies presentationManager.Footprint()
      ensures presentationManager.Valid()
      ensures presentationManager.OverlayKeptOrFresh()
      ensures old(presentationManager.overlayWindowManager.overlayWindow) != null ==>
        presentationManager.overlayWindowManager.overlayWindow == old(presentationManager.overlayWindowManager.overlayWindow)
      ensures old(presentationManager.overlayWindowManager.overlayWindow) == null ==>
        (presentationManager.overlayWindowManager.overlayWindow != null <==> foregroundSceneAvailable)
      ensures fresh(mounted) && fresh(mounted.rootView)
      ensures mounted.identifier == container.config.id
      ensures mounted.rootView.Valid() && mounted.rootView.config == container.config
      ensures mounted.rootView.viewModel == container.viewModel
      ensures mounted.rootView.onDismiss == Some(DismissCallback.RemoveAlertView(container.config.id))
      ensures mounted.onLayoutChange == Some(ClampAndReframe(container.config.position))
      ensures !ShowMounts(old(presentationManager.overlayWindowManager.overlayWindow) != null, foregroundSceneAvailable, fittingSize) ==>
        && presentationManager.alerts == old(presentationManager.alerts)
        && presentationManager.MountedViews() == old(presentationManager.MountedViews())
        && presentationManager.Style() == old(presentationManager.Style())
        && presentationManager.isOrientationObserverAdded == old(presentationManager.isOrientationObserverAdded)
        && presentationManager.observers == old(presentationManager.observers)
        && mounted.frame == ZeroRect
      ensures ShowMounts(old(presentationManager.overlayWindowManager.overlayWindow) != null, foregroundSceneAvailable, fittingSize) ==>
        && presentationManager.alerts == old(presentationManager.alerts)[container.config.id := container.viewModel]
        && presentationManager.MountedViews() == old(presentationManager.MountedViews()) + [mounted]
        && mounted.frame == CalculateFrame(container.config.position, fittingSize.value, window)
        && presentationManager.Style() ==
           (if container.config.position == DynamicIsland then DarkContent else old(presentationManager.Style()))
        && presentationManager.isOrientationObserverAdded
        && presentationManager.observers == old(presentationManager.observers) +
             if old(presentationManager.isOrientationObserverAdded) then []
             else [OrientationObserver(fittingSize.value, container.config.position, mounted,
                                       presentationManager.overlayWindowManager.overlayWindow)]
    {
      mounted := presentationManager.Show(container, foregroundSceneAvailable, fittingSize, window);
    }

    /** `dismissAlert(id:)`: the id goes to `dismiss` as it is; an id not presented changes nothing. */
    method DismissAlert(id: string)
      modifies presentationManager.DismissTarget(id)
      ensures id in presentationManager.alerts ==> presentationManager.alerts[id].shouldDismiss
    {
      presentationManager.Dismiss(id);
    }
  }

  /** Alerts are tracked per library instance: showing on one leaves another's registry empty. */
  method LibrariesTrackAlertsSeparately() returns (shownOnFirst: bool, shownOnSecond: bool)
    ensures shownOnFirst && !shownOnSecond
  {
    var first := new AlertLibrary();
    var second := new AlertLibrary();
    var container := new BasicContainerView(ContainerConfig("toast", Some(3.0), Top, [Swipe([Up], 20.0)]), None);
    ghost var shown;
    shown := first.ShowAlert(container, true, Some(Size(360.0, 64.0)), WindowGeometry(Size(393.0, 852.0), EdgeInsets(59.0, 34.0)));
    shownOnFirst := "toast" in first.presentationManager.alerts;
    shownOnSecond := "toast" in second.presentationManager.alerts;
  }

  /**
   * `showAlert` for a dynamic-island alert: the status bar turns dark, and
   * the hosted copy of the container shares the registered view model and
   * calls back `removeAlertView` for its own identifier.
   */
  method ShowBanner() returns (library: AlertLibrary, styleWhileShown: StatusBarStyle, hosted: BasicContainerView)
    ensures styleWhileShown == DarkContent
    ensures fresh(hosted) && fresh(hosted.viewModel) && hosted.Valid()
    ensures "banner" in library.presentationManager.alerts
    ensures library.presentationManager.alerts["banner"] == hosted.viewModel
    ensures hosted.onDismiss == Some(DismissCallback.RemoveAlertView("banner"))
  {
    library := new AlertLibrary();
    var container := new BasicContainerView(ContainerConfig("banner", Some(5.0), DynamicIsland, [Swipe([Up], 20.0)]), None);
    ghost var shown;
    shown := library.ShowAlert(container, true, Some(Size(360.0, 80.0)), WindowGeometry(Size(393.0, 852.0), EdgeInsets(59.0, 34.0)));
    var root := library.presentationManager.overlayWindowManager.overlayWindow.rootViewController;
    styleWhileShown := root.PreferredStatusBarStyle();
    hosted := root.subviews[0].rootView;
  }

  /**
   * The life of one dynamic-island alert up to its callback: once shown and
   * on screen, `dismissAlert` sets its flag, the hosted container reacts, and
   * when its exit animation ends it calls back `removeAlertView` for its own
   * identifier.
   */
  method DismissAlertLeadsToRemoval() returns (styleWhileShown: StatusBarStyle, callback: Option<DismissCallback>)
    ensures styleWhileShown == DarkContent
    ensures callback == Some(DismissCallback.RemoveAlertView("banner"))
  {
    var library, hosted;
    library, styleWhileShown, hosted := ShowBanner();
    hosted.OnAppear();
    library.DismissAlert("banner");
    hosted.ShouldDismissPublished();
    callback := hosted.ExitAnimationFinished();
  }

  /**
   * The callback of the only alert shown empties the registry, reverts the
   * status bar to `.default` and takes the overlay down; a second callback
   * for the same id changes nothing.
   */
  method RemovingLastAlertTearsDownOverlay()
    returns (registeredAfter: bool, overlayAfter: bool, styleAfter: StatusBarStyle, overlayAfterRepeat: bool)
    ensures !registeredAfter && !overlayAfter && styleAfter == Default && !overlayAfterRepeat
  {
    var library := new AlertLibrary();
    var manager := library.presentationManager;
    var container := new BasicContainerView(ContainerConfig("banner", Some(5.0), DynamicIsland, [Swipe([Up], 20.0)]), None);
    ghost var shown;
    shown := library.ShowAlert(container, true, Some(Size(360.0, 80.0)), WindowGeometry(Size(393.0, 852.0), EdgeInsets(59.0, 34.0)));
    var root := manager.overlayWindowManager.overlayWindow.rootViewController;
    assert WithoutFirst([root.subviews[0]], "banner") == [];
    manager.RemoveAlertView("banner");
    registeredAfter := "banner" in manager.alerts;
    overlayAfter := manager.overlayWindowManager.overlayWindow != null;
    styleAfter := root.PreferredStatusBarStyle();
    manager.RemoveAlertView("banner");
    overlayAfterRepeat := manager.overlayWindowManager.overlayWindow != null;
  }

}
