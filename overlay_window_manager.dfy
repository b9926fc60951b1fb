/**
 * `OverlayWindowManager`: owns the optional transparent overlay window the
 * alerts are mounted in. Setting it up needs a foreground-active window
 * scene with windows, which the model receives as a boolean.
 */
module OverlayWindow {

  import opened StatusBar

  /** `PassThroughWindow`, reduced to the state the library sets. */
  class PassThroughWindow {
    var rootViewController: StatusBarBasedController?
    var isHidden: bool
    /** Whether `windowScene` is set. */
    var attachedToScene: bool

    /** `PassThroughWindow(windowScene:)`: a new window starts hidden and without a root. */
    constructor()
      ensures rootViewController == null && isHidden && attachedToScene
    {
      rootViewController := null;
      isHidden := true;
      attachedToScene := true;
    }
  }

  class OverlayWindowManager {
    var overlayWindow: PassThroughWindow?

    constructor()
      ensures overlayWindow == null
    {
      overlayWindow := null;
    }

    /**
     * Keeps an existing overlay; otherwise, when a foreground-active scene
     * with windows exists, installs a visible overlay whose root is a fresh
     * `StatusBarBasedController`, and when none exists leaves it absent.
     */
    method SetupOverlayWindowIfNeeded(foregroundSceneAvailable: bool)
      modifies this
      ensures old(overlayWindow) != null ==> overlayWindow == old(overlayWindow)
      ensures old(overlayWindow) == null ==> (overlayWindow != null <==> foregroundSceneAvailable)
      ensures old(overlayWindow) == null && overlayWindow != null ==>
        && fresh(overlayWindow) && !overlayWindow.isHidden && overlayWindow.attachedToScene
        && overlayWindow.rootViewController != null && fresh(overlayWindow.rootViewController)
        && overlayWindow.rootViewController.preferredStyle == Default
        && overlayWindow.rootViewController.appearanceUpdateRequests == 0
        && overlayWindow.rootViewController.subviews == []
    {
      if overlayWindow != null {
        return;
      }
      if !foregroundSceneAvailable {
        return;
      }
      var window := new PassThroughWindow();
      window.isHidden := false;
      window.rootViewController := new StatusBarBasedController();
      overlayWindow := window;
    }

    /** Detaches and forgets the overlay if there is one; otherwise does nothing. */
    method RemoveOverlayWindowIfNeeded()
      modifies this, overlayWindow
      ensures overlayWindow == null
      ensures old(overlayWindow) != null ==>
        && old(overlayWindow).rootViewController == null
        && old(overlayWindow).isHidden
        && !old(overlayWindow).attachedToScene
    {
      var window := overlayWindow;
      if window == null {
        return;
      }
      window.rootViewController := null;
      window.isHidden := true;
      window.attachedToScene := false;
      overlayWindow := null;
    }
  }

  /**
   * Setting up twice keeps the first overlay; after a removal (done twice,
   * harmlessly) a new setup creates a different overlay.
   */
  method SetupAfterRemoveCreatesNewOverlay() returns (first: PassThroughWindow?, again: PassThroughWindow?, recreated: PassThroughWindow?)
    ensures first != null && again == first
    ensures recreated != null && recreated != first
  {
    var manager := new OverlayWindowManager();
    manager.SetupOverlayWindowIfNeeded(true);
    first := manager.overlayWindow;
    manager.SetupOverlayWindowIfNeeded(true);
    again := manager.overlayWindow;
    manager.RemoveOverlayWindowIfNeeded();
    manager.RemoveOverlayWindowIfNeeded();
    manager.SetupOverlayWindowIfNeeded(true);
    recreated := manager.overlayWindow;
  }

}
