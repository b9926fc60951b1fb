/**
 * `AlertPresentationManager`: the orchestrator. It keeps the registry of
 * shown alerts (identifier to view model), mounts each alert's hosting view
 * into the overlay window, registers a rotation handler for the first alert
 * shown while its flag is clear (handlers are never removed), and takes the
 * overlay down when nothing is left mounted.
 *
 * UIKit is abstracted as inputs: whether a foreground scene exists, the
 * measured fitting size (an `Option`, mirroring the optional the guard
 * unwraps, although UIKit always yields a size there), the overlay window's
 * geometry and the screen size.
 */
module PresentationManager {

  import opened Optional
  import opened AlertTypes
  import opened AlertPlacement
  import opened ContainerViewModel
  import opened ContainerView
  import opened HostingController
  import opened StatusBar
  import opened OverlayWindow

  /**
   * An orientation-change handler registered with the notification centre:
   * it recomputes the frame of the hosting controller it captured from the
   * size and position it captured, in the window it captured.
   */
  datatype OrientationObserver = OrientationObserver(
    containerSize: Size,
    position: AlertPosition,
    hostingController: DynamicUIHostingController,
    window: PassThroughWindow)

  /** The frame a handler gives its captured view, for its window's geometry at the time of the rotation. */
  function HandlerFrame(observer: OrientationObserver, geometryOf: PassThroughWindow -> WindowGeometry): Rect
  {
    CalculateFrame(observer.position, observer.containerSize, geometryOf(observer.window))
  }

  /** No handler registered after the i-th captured the same hosting controller. */
  predicate LastCapture(observers: seq<OrientationObserver>, i: nat)
    requires i < |observers|
  {
    forall j :: i < j < |observers| ==> observers[j].hostingController != observers[i].hostingController
  }

  function Min(a: real, b: real): (m: real)
    ensures m <= a && m <= b && (m == a || m == b)
  {
    if a <= b then a else b
  }

  /** The layout-change clamp: no wider and no taller than the screen. */
  function ClampToScreen(size: Size, screen: Size): (clamped: Size)
    ensures clamped.width <= screen.width && clamped.width <= size.width
    ensures clamped.width == size.width || clamped.width == screen.width
    ensures clamped.height <= screen.height && clamped.height <= size.height
    ensures clamped.height == size.height || clamped.height == screen.height
  {
    Size(Min(screen.width, size.width), Min(screen.height, size.height))
  }

  /** A size that already fits the screen is left as it is. */
  lemma ClampKeepsFittingSize(size: Size, screen: Size)
    requires size.width <= screen.width && size.height <= screen.height
    ensures ClampToScreen(size, screen) == size
  {
  }

  /** Whether `show` gets as far as mounting: an overlay exists or can be made, and a size was measured. */
  predicate ShowMounts(hadOverlay: bool, foregroundSceneAvailable: bool, fittingSize: Option<Size>)
  {
    (hadOverlay || foregroundSceneAvailable) && fittingSize.Some?
  }

  class AlertPresentationManager {
    const overlayWindowManager: OverlayWindowManager
    var alerts: map<string, BasicContainerViewModel>
    var isOrientationObserverAdded: bool
    /**
     * The handlers registered with the notification centre, oldest first.
     * None is ever unregistered: `clearObserversIfNeeded` removes `self`, which
     * was never registered as an observer, and the block observers' tokens are
     * not kept.
     */
    var observers: seq<OrientationObserver>

    ghost function Footprint(): set<object>
      reads this, overlayWindowManager, overlayWindowManager.overlayWindow
    {
      var window := overlayWindowManager.overlayWindow;
      {this, overlayWindowManager} +
      if window == null then {}
      else {window} + if window.rootViewController == null then {} else {window.rootViewController}
    }

    /** The hosting views mounted in the overlay's root view, bottom to top. */
    ghost function MountedViews(): seq<DynamicUIHostingController>
      reads Footprint()
    {
      var window := overlayWindowManager.overlayWindow;
      if window == null || window.rootViewController == null then []
      else window.rootViewController.subviews
    }

    /** The status-bar style of the overlay's root; `.default` without an overlay. */
    ghost function Style(): StatusBarStyle
      reads Footprint()
    {
      var window := overlayWindowManager.overlayWindow;
      if window == null || window.rootViewController == null then Default
      else window.rootViewController.preferredStyle
    }

    /** The overlay and its root are the ones there were before, or newly created. */
    twostate predicate OverlayKeptOrFresh()
      reads this, overlayWindowManager, overlayWindowManager.overlayWindow
    {
      var window := overlayWindowManager.overlayWindow;
      window != null ==>
        if window == old(overlayWindowManager.overlayWindow)
        then window.rootViewController == old(window.rootViewController)
        else fresh(window) && (window.rootViewController == null || fresh(window.rootViewController))
    }

    /**
     * An overlay is visible, attached to its scene and has its root
     * controller; every registered identifier has a mounted view; the
     * observer flag is set exactly while the registry is non-empty, and only
     * once some handler has been registered.
     */
    ghost predicate Valid()
      reads Footprint()
    {
      && (overlayWindowManager.overlayWindow != null ==>
            && overlayWindowManager.overlayWindow.rootViewController != null
            && !overlayWindowManager.overlayWindow.isHidden
            && overlayWindowManager.overlayWindow.attachedToScene)
      && (forall id :: id in alerts ==> Carries(MountedViews(), id))
      && (isOrientationObserverAdded <==> alerts != map[])
      && (isOrientationObserverAdded ==> observers != [])
    }

    constructor()
      ensures Valid()
      ensures fresh(overlayWindowManager) && overlayWindowManager.overlayWindow == null
      ensures alerts == map[] && !isOrientationObserverAdded && observers == []
    {
      overlayWindowManager := new OverlayWindowManager();
      alerts := map[];
      isOrientationObserverAdded := false;
      observers := [];
    }

    /** The view model `dismiss(id:)` may write: the registered one, if any. */
    ghost function DismissTarget(id: string): set<object>
      reads this
    {
      if id in alerts then {alerts[id]} else {}
    }

    /**
     * `dismiss(id:)`: an unknown identifier is a logged no-op; a known one has
     * its view model's `shouldDismiss` set. Nothing else changes: the registry
     * stays as it is until the container calls back.
     */
    method Dismiss(id: string)
      modifies DismissTarget(id)
      ensures id in alerts ==> alerts[id].shouldDismiss
    {
      if id !in alerts {
        return;
      }
      alerts[id].shouldDismiss := true;
    }

    /**
     * `prepareHostingController`: a hosting controller for a copy of the
     * container whose `onDismiss` removes this alert, identified by the
     * alert's id, with the clamp-and-reframe layout callback installed.
     */
    method PrepareHostingController(container: BasicContainerView) returns (hostingController: DynamicUIHostingController)
      requires container.Valid()
      ensures fresh(hostingController) && fresh(hostingController.rootView)
      ensures hostingController.identifier == container.config.id
      ensures hostingController.onLayoutChange == Some(ClampAndReframe(container.config.position))
      ensures hostingController.previousSize == None && hostingController.frame == ZeroRect
      ensures hostingController.rootView.Valid()
      ensures hostingController.rootView.config == container.config
      ensures hostingController.rootView.viewModel == container.viewModel
      ensures hostingController.rootView.onDismiss == Some(DismissCallback.RemoveAlertView(container.config.id))
      ensures !hostingController.rootView.animateAlert
    {
      var containerWithDismiss := new BasicContainerView.WithDismiss(container, Some(DismissCallback.RemoveAlertView(container.config.id)));
      hostingController := new DynamicUIHostingController(containerWithDismiss, container.config.id);
      hostingController.onLayoutChange := Some(ClampAndReframe(container.config.position));
    }

    /**
     * `show(container:)`: make sure the overlay exists, measure, switch the
     * status bar to dark content for a dynamic-island alert, place and mount
     * the hosting view, register the view model under the alert's id
     * (replacing an earlier entry for that id), and register a rotation
     * handler while the flag is clear. Without an overlay, or without a size
     * (a guard UIKit never trips), nothing is registered, although an overlay
     * created on the way stays.
     */
    method Show(container: BasicContainerView, foregroundSceneAvailable: bool, fittingSize: Option<Size>, window: WindowGeometry)
      returns (ghost mounted: DynamicUIHostingController)
      requires Valid() && container.Valid()
      modifies Footprint()
      ensures Valid() && OverlayKeptOrFresh()
      ensures old(overlayWindowManager.overlayWindow) != null ==>
        overlayWindowManager.overlayWindow == old(overlayWindowManager.overlayWindow)
      ensures old(overlayWindowManager.overlayWindow) == null ==>
        (overlayWindowManager.overlayWindow != null <==> foregroundSceneAvailable)
      ensures fresh(mounted) && fresh(mounted.rootView)
      ensures mounted.identifier == container.config.id
      ensures mounted.rootView.Valid() && mounted.rootView.config == container.config
      ensures mounted.rootView.viewModel == container.viewModel
      ensures mounted.rootView.onDismiss == Some(DismissCallback.RemoveAlertView(container.config.id))
      ensures mounted.onLayoutChange == Some(ClampAndReframe(container.config.position))
      ensures !ShowMounts(old(overlayWindowManager.overlayWindow) != null, foregroundSceneAvailable, fittingSize) ==>
        && alerts == old(alerts)
        && MountedViews() == old(MountedViews())
        && Style() == old(Style())
        && isOrientationObserverAdded == old(isOrientationObserverAdded)
        && observers == old(observers)
        && mounted.frame == ZeroRect
      ensures ShowMounts(old(overlayWindowManager.overlayWindow) != null, foregroundSceneAvailable, fittingSize) ==>
        && alerts == old(alerts)[container.config.id := container.viewModel]
        && MountedViews() == old(MountedViews()) + [mounted]
        && mounted.frame == CalculateFrame(container.config.position, fittingSize.value, window)
        && Style() == (if container.config.position == DynamicIsland then DarkContent else old(Style()))
        && isOrientationObserverAdded
        && observers == old(observers) +
             if old(isOrientationObserverAdded) then []
             else [OrientationObserver(fittingSize.value, container.config.position, mounted, overlayWindowManager.overlayWindow)]
    {
      var hostingController := PrepareHostingController(container);
      AddAlertToOverlayWindow(hostingController, container.config, container.viewModel, foregroundSceneAvailable, fittingSize, window);
      mounted := hostingController;
    }

    /** `addAlertToOverlayWindow`: the part of `show` after the hosting controller exists. */
    method AddAlertToOverlayWindow(
      hostingController: DynamicUIHostingController,
      containerConfig: ContainerConfig,
      containerViewModel: BasicContainerViewModel,
      foregroundSceneAvailable: bool,
      fittingSize: Option<Size>,
      window: WindowGeometry)
      requires Valid()
      requires hostingController.identifier == containerConfig.id
      requires hostingController !in MountedViews()
      modifies Footprint(), hostingController`frame
      ensures Valid() && OverlayKeptOrFresh()
      ensures old(overlayWindowManager.overlayWindow) != null ==>
        overlayWindowManager.overlayWindow == old(overlayWindowManager.overlayWindow)
      ensures old(overlayWindowManager.overlayWindow) == null ==>
        (overlayWindowManager.overlayWindow != null <==> foregroundSceneAvailable)
      ensures !ShowMounts(old(overlayWindowManager.overlayWindow) != null, foregroundSceneAvailable, fittingSize) ==>
        && alerts == old(alerts)
        && MountedViews() == old(MountedViews())
        && Style() == old(Style())
        && isOrientationObserverAdded == old(isOrientationObserverAdded)
        && observers == old(observers)
        && hostingController.frame == old(hostingController.frame)
      ensures ShowMounts(old(overlayWindowManager.overlayWindow) != null, foregroundSceneAvailable, fittingSize) ==>
        && alerts == old(alerts)[containerConfig.id := containerViewModel]
        && MountedViews() == old(MountedViews()) + [hostingController]
        && hostingController.frame == CalculateFrame(containerConfig.position, fittingSize.value, window)
        && Style() == (if containerConfig.position == DynamicIsland then DarkContent else old(Style()))
        && isOrientationObserverAdded
        && observers == old(observers) +
             if old(isOrientationObserverAdded) then []
             else [OrientationObserver(fittingSize.value, containerConfig.position, hostingController, overlayWindowManager.overlayWindow)]
    {
      overlayWindowManager.SetupOverlayWindowIfNeeded(foregroundSceneAvailable);
      var overlayWindow := overlayWindowManager.overlayWindow;
      if overlayWindow == null {
        return;
      }
      if fittingSize.None? {
        return;
      }
      MountAlert(overlayWindow, hostingController, containerConfig, containerViewModel, fittingSize.value, window);
    }

    /**
     * The mounting half of `addAlertToOverlayWindow`, once an overlay and a
     * size are in hand: status bar, frame, subview, registry entry, observer.
     */
    method MountAlert(
      overlayWindow: PassThroughWindow,
      hostingController: DynamicUIHostingController,
      containerConfig: ContainerConfig,
      containerViewModel: BasicContainerViewModel,
      containerSize: Size,
      window: WindowGeometry)
      requires Valid() && overlayWindow == overlayWindowManager.overlayWindow
      requires hostingController.identifier == containerConfig.id
      modifies Footprint(), hostingController`frame
      ensures Valid()
      ensures overlayWindowManager.overlayWindow == overlayWindow
      ensures overlayWindow.rootViewController == old(overlayWindow.rootViewController)
      ensures alerts == old(alerts)[containerConfig.id := containerViewModel]
      ensures MountedViews() == old(MountedViews()) + [hostingController]
      ensures hostingController.frame == CalculateFrame(containerConfig.position, containerSize, window)
      ensures Style() == (if containerConfig.position == DynamicIsland then DarkContent else old(Style()))
      ensures isOrientationObserverAdded
      ensures observers == old(observers) +
        if old(isOrientationObserverAdded) then []
        else [OrientationObserver(containerSize, containerConfig.position, hostingController, overlayWindow)]
    {
      ghost var mountedBefore := MountedViews();
      if containerConfig.position == DynamicIsland {
        UpdateStatusBar(overlayWindow, DarkContent);
      }
      hostingController.frame := CalculateFrame(containerConfig.position, containerSize, window);
      var root := overlayWindow.rootViewController;
      root.AddSubview(hostingController);
      alerts := alerts[containerConfig.id := containerViewModel];
      forall id | id in alerts
        ensures Carries(MountedViews(), id)
      {
        CarriesAfterAppend(mountedBefore, hostingController, id);
      }
      AddOrientationObserver(containerSize, containerConfig.position, hostingController, overlayWindow);
      assert containerConfig.id in alerts;
    }

    /** `updateStatusBar(for:to:)`: forwards the style to the window's root controller, if it has one. */
    method UpdateStatusBar(window: PassThroughWindow, style: StatusBarStyle)
      modifies window.rootViewController
      ensures window.rootViewController != null ==>
        && window.rootViewController.preferredStyle == style
        && window.rootViewController.subviews == old(window.rootViewController.subviews)
    {
      var root := window.rootViewController;
      if root == null {
        return;
      }
      root.UpdateStatusBarStyle(style);
    }

    /**
     * `updateFrame(for:newSize:position:)`: places the hosting view for the
     * new size, but only while it is in a window (mounted in the overlay).
     */
    method UpdateFrame(hostingController: DynamicUIHostingController, newSize: Size, position: AlertPosition, window: WindowGeometry)
      modifies hostingController`frame
      ensures hostingController in MountedViews() ==> hostingController.frame == CalculateFrame(position, newSize, window)
      ensures hostingController !in MountedViews() ==> hostingController.frame == old(hostingController.frame)
    {
      var overlayWindow := overlayWindowManager.overlayWindow;
      if overlayWindow == null || overlayWindow.rootViewController == null
         || hostingController !in overlayWindow.rootViewController.subviews
      {
        return;
      }
      hostingController.frame := CalculateFrame(position, newSize, window);
    }

    /**
     * One layout pass of a hosting controller followed by the manager's
     * `onLayoutChange` closure: when the intrinsic size changed, the new size
     * is clamped to the screen and the frame recomputed for the alert's
     * position.
     */
    method LayoutPass(hostingController: DynamicUIHostingController, intrinsicSize: Size, screen: Size, window: WindowGeometry)
      modifies hostingController`previousSize, hostingController`frame
      ensures hostingController.previousSize == Some(intrinsicSize)
      ensures var reframes := && old(hostingController.previousSize).Some?
                              && old(hostingController.previousSize).value != intrinsicSize
                              && hostingController.onLayoutChange.Some?
                              && hostingController in MountedViews();
        && (reframes ==>
              hostingController.frame ==
              CalculateFrame(hostingController.onLayoutChange.value.position, ClampToScreen(intrinsicSize, screen), window))
        && (!reframes ==> hostingController.frame == old(hostingController.frame))
    {
      var changedTo := hostingController.ViewWillLayoutSubviews(intrinsicSize);
      if changedTo.Some? {
        var position := hostingController.onLayoutChange.value.position;
        var clampedSize := ClampToScreen(changedTo.value, screen);
        UpdateFrame(hostingController, clampedSize, position, window);
      }
    }

    /**
     * `addOrientationObserver`: registers a handler only while the flag is
     * clear, so only the first alert shown since the last reset is captured.
     */
    method AddOrientationObserver(containerSize: Size, position: AlertPosition,
                                  hostingController: DynamicUIHostingController, window: PassThroughWindow)
      modifies this`isOrientationObserverAdded, this`observers
      ensures isOrientationObserverAdded
      ensures observers == old(observers) +
        if old(isOrientationObserverAdded) then [] else [OrientationObserver(containerSize, position, hostingController, window)]
    {
      if isOrientationObserverAdded {
        return;
      }
      isOrientationObserverAdded := true;
      observers := observers + [OrientationObserver(containerSize, position, hostingController, window)];
    }

    /**
     * `clearObserversIfNeeded`: with an empty registry the flag is reset. The
     * handlers stay registered (see `observers`).
     */
    method ClearObserversIfNeeded()
      modifies this`isOrientationObserverAdded
      ensures alerts == map[] ==> !isOrientationObserverAdded
      ensures alerts != map[] ==> isOrientationObserverAdded == old(isOrientationObserverAdded)
    {
      if alerts == map[] {
        isOrientationObserverAdded := false;
      }
    }

    /** The hosting controllers the registered handlers captured. */
    ghost function ObservedViews(): set<DynamicUIHostingController>
      reads this
    {
      set i | 0 <= i < |observers| :: observers[i].hostingController
    }

    /**
     * A device rotation: every handler ever registered, in registration
     * order, recomputes the frame of the hosting controller it captured (even
     * one no longer mounted) from the size and position it captured, in the
     * current geometry of the window it captured. A view captured twice keeps
     * the later handler's frame; no other frame changes.
     */
    method OrientationDidChange(geometryOf: PassThroughWindow -> WindowGeometry)
      modifies ObservedViews()`frame
      ensures forall i :: 0 <= i < |observers| && LastCapture(observers, i) ==>
        observers[i].hostingController.frame == HandlerFrame(observers[i], geometryOf)
    {
      for k := 0 to |observers|
        invariant forall i :: 0 <= i < k && (forall j :: i < j < k ==> observers[j].hostingController != observers[i].hostingController) ==>
          observers[i].hostingController.frame == HandlerFrame(observers[i], geometryOf)
      {
        var observer := observers[k];
        observer.hostingController.frame := HandlerFrame(observer, geometryOf);
      }
    }

    /**
     * `removeAlertView(identifier:)`, the `onDismiss` target: drop the entry
     * (an absent one makes this a logged no-op), unmount the first view with
     * that identifier, and when the overlay's root view is left empty revert
     * the status bar to `.default` and remove the overlay. The observer flag
     * is reset iff the registry is now empty; the handlers stay registered.
     */
    method RemoveAlertView(identifier: string)
      requires Valid()
      modifies Footprint()
      ensures Valid() && OverlayKeptOrFresh()
      ensures alerts == old(alerts) - {identifier}
      ensures identifier !in old(alerts) ==>
        && overlayWindowManager.overlayWindow == old(overlayWindowManager.overlayWindow)
        && MountedViews() == old(MountedViews())
        && Style() == old(Style())
        && isOrientationObserverAdded == old(isOrientationObserverAdded)
      ensures identifier in old(alerts) ==>
        var remaining := WithoutFirst(old(MountedViews()), identifier);
        && (remaining == [] ==>
              && overlayWindowManager.overlayWindow == null
              && old(overlayWindowManager.overlayWindow.rootViewController).preferredStyle == Default
              && old(overlayWindowManager.overlayWindow).rootViewController == null
              && old(overlayWindowManager.overlayWindow).isHidden
              && !old(overlayWindowManager.overlayWindow).attachedToScene)
        && (remaining != [] ==>
              && overlayWindowManager.overlayWindow == old(overlayWindowManager.overlayWindow)
              && MountedViews() == remaining
              && Style() == old(Style()))
      ensures observers == old(observers)
    {
      var had := identifier in alerts;
      ghost var mountedBefore := MountedViews();
      alerts := alerts - {identifier};
      assert MountedViews() == mountedBefore;
      var overlayWindow := overlayWindowManager.overlayWindow;
      if !had || overlayWindow == null {
        return;
      }
      var root := overlayWindow.rootViewController;
      ghost var before := root.subviews;
      root.RemoveSubview(identifier);
      forall id | id in alerts
        ensures Carries(MountedViews(), id)
      {
        WithoutFirstKeepsOtherIdentifiers(before, identifier, id);
      }
      if root.subviews == [] {
        UpdateStatusBar(overlayWindow, Default);
        overlayWindowManager.RemoveOverlayWindowIfNeeded();
      }
      ClearObserversIfNeeded();
    }
  }

  /**
   * Two alerts shown one after the other in portrait: both are framed for
   * portrait, and only the first was captured by a rotation handler.
   */
  method ShowTwoInPortrait() returns (manager: AlertPresentationManager, firstView: DynamicUIHostingController, secondView: DynamicUIHostingController)
    ensures fresh(firstView) && firstView != secondView
    ensures |manager.observers| == 1
    ensures manager.observers[0].hostingController == firstView
    ensures manager.observers[0].containerSize == Size(300.0, 60.0) && manager.observers[0].position == Top
    ensures secondView.frame == CalculateFrame(Bottom, Size(300.0, 90.0), WindowGeometry(Size(393.0, 852.0), EdgeInsets(59.0, 34.0)))
  {
    var portrait := WindowGeometry(Size(393.0, 852.0), EdgeInsets(59.0, 34.0));
    manager := new AlertPresentationManager();
    var first := new BasicContainerView(ContainerConfig("first", None, Top, []), None);
    var second := new BasicContainerView(ContainerConfig("second", None, Bottom, []), None);
    ghost var firstShown, secondShown;
    firstShown := manager.Show(first, true, Some(Size(300.0, 60.0)), portrait);
    secondShown := manager.Show(second, true, Some(Size(300.0, 90.0)), portrait);
    var root := manager.overlayWindowManager.overlayWindow.rootViewController;
    firstView := root.subviews[0];
    secondView := root.subviews[1];
  }

  /**
   * Two alerts shown one after the other, then the device rotates: the
   * handler registered for the first alert reframes it for the new window
   * geometry, while the second keeps the frame it got for the old one. The
   * handler writes only the frame: the reframed controller keeps its layout
   * latch and its layout callback.
   */
  method RotationReframesOnlyFirstAlert() returns (firstFrame: Rect, secondFrame: Rect, layoutStateKept: bool)
    ensures firstFrame == CalculateFrame(Top, Size(300.0, 60.0), WindowGeometry(Size(852.0, 393.0), EdgeInsets(0.0, 21.0)))
    ensures secondFrame == CalculateFrame(Bottom, Size(300.0, 90.0), WindowGeometry(Size(393.0, 852.0), EdgeInsets(59.0, 34.0)))
    ensures layoutStateKept
  {
    var manager, firstView, secondView := ShowTwoInPortrait();
    var latchBefore, callbackBefore := firstView.previousSize, firstView.onLayoutChange;
    var landscape := WindowGeometry(Size(852.0, 393.0), EdgeInsets(0.0, 21.0));
    manager.OrientationDidChange(w => landscape);
    firstFrame := firstView.frame;
    secondFrame := secondView.frame;
    layoutStateKept := firstView.previousSize == latchBefore && firstView.onLayoutChange == callbackBefore;
  }

  /**
   * Two alerts are shown and the first is removed: the overlay holding the
   * second stays visible and attached to its scene, under the same root.
   */
  method OverlayStaysVisibleWhileAlertsRemain() returns (overlayVisible: bool, rootKept: bool)
    ensures overlayVisible && rootKept
  {
    var portrait := WindowGeometry(Size(393.0, 852.0), EdgeInsets(59.0, 34.0));
    var manager := new AlertPresentationManager();
    var first := new BasicContainerView(ContainerConfig("first", None, Top, []), None);
    var second := new BasicContainerView(ContainerConfig("second", None, Bottom, []), None);
    ghost var firstShown, secondShown;
    firstShown := manager.Show(first, true, Some(Size(300.0, 60.0)), portrait);
    secondShown := manager.Show(second, true, Some(Size(300.0, 90.0)), portrait);
    var rootBefore := manager.overlayWindowManager.overlayWindow.rootViewController;
    manager.RemoveAlertView("first");
    var window := manager.overlayWindowManager.overlayWindow;
    overlayVisible := window != null && !window.isHidden && window.attachedToScene;
    rootKept := window != null && window.rootViewController == rootBefore;
  }

  /**
   * An alert is shown and removed, which resets the flag but leaves its
   * handler registered; a second alert is then shown and captured by a
   * second handler.
   */
  method ShowRemoveShow() returns (manager: AlertPresentationManager, removedView: DynamicUIHostingController, shownView: DynamicUIHostingController)
    ensures fresh(removedView) && fresh(shownView) && removedView != shownView
    ensures removedView !in manager.MountedViews()
    ensures |manager.observers| == 2
    ensures manager.observers[0].hostingController == removedView
    ensures manager.observers[0].containerSize == Size(300.0, 60.0) && manager.observers[0].position == Top
    ensures manager.observers[1].hostingController == shownView
    ensures manager.observers[1].containerSize == Size(300.0, 90.0) && manager.observers[1].position == Bottom
  {
    var portrait := WindowGeometry(Size(393.0, 852.0), EdgeInsets(59.0, 34.0));
    manager := new AlertPresentationManager();
    var first := new BasicContainerView(ContainerConfig("first", None, Top, []), None);
    ghost var firstShown, secondShown;
    firstShown := manager.Show(first, true, Some(Size(300.0, 60.0)), portrait);
    removedView := manager.observers[0].hostingController;
    assert WithoutFirst([firstShown], "first") == [];
    manager.RemoveAlertView("first");
    var second := new BasicContainerView(ContainerConfig("second", None, Bottom, []), None);
    secondShown := manager.Show(second, true, Some(Size(300.0, 90.0)), portrait);
    shownView := manager.observers[1].hostingController;
  }

  /**
   * After an alert was removed and another shown, a rotation still runs the
   * removed alert's handler: its unmounted view is reframed along with the
   * view of the alert on screen.
   */
  method HandlerOfRemovedAlertStillReframes() returns (removedFrame: Rect, shownFrame: Rect)
    ensures removedFrame == CalculateFrame(Top, Size(300.0, 60.0), WindowGeometry(Size(852.0, 393.0), EdgeInsets(0.0, 21.0)))
    ensures shownFrame == CalculateFrame(Bottom, Size(300.0, 90.0), WindowGeometry(Size(852.0, 393.0), EdgeInsets(0.0, 21.0)))
  {
    var manager, removedView, shownView := ShowRemoveShow();
    var landscape := WindowGeometry(Size(852.0, 393.0), EdgeInsets(0.0, 21.0));
    assert LastCapture(manager.observers, 0) && LastCapture(manager.observers, 1);
    manager.OrientationDidChange(w => landscape);
    removedFrame := removedView.frame;
    shownFrame := shownView.frame;
  }

}
