/**
 * `StatusBarBasedController`: the overlay window's root view controller. It
 * stores the status-bar style the overlay asks for (dark content while a
 * dynamic-island alert is shown).
 */
module StatusBar {

  import opened HostingController

  /** `UIStatusBarStyle`; the library sets only `Default` and `DarkContent`. */
  datatype StatusBarStyle = Default | DarkContent | LightContent

  class StatusBarBasedController {
    var preferredStyle: StatusBarStyle
    /** How many times `setNeedsStatusBarAppearanceUpdate` has been requested. */
    var appearanceUpdateRequests: nat
    /**
     * The subviews of the controller's UIKit `view`, in order: the mounted
     * alerts' hosting views. This is UIKit's state, not the controller's own.
     */
    var subviews: seq<DynamicUIHostingController>

    constructor()
      ensures preferredStyle == Default && appearanceUpdateRequests == 0 && subviews == []
    {
      preferredStyle := Default;
      appearanceUpdateRequests := 0;
      subviews := [];
    }

    /** `preferredStatusBarStyle`: the stored style. */
    method PreferredStatusBarStyle() returns (style: StatusBarStyle)
      ensures style == preferredStyle
    {
      style := preferredStyle;
    }

    /** Stores `style` (the last writer wins) and requests one appearance refresh. */
    method UpdateStatusBarStyle(style: StatusBarStyle)
      modifies this`preferredStyle, this`appearanceUpdateRequests
      ensures preferredStyle == style
      ensures appearanceUpdateRequests == old(appearanceUpdateRequests) + 1
    {
      preferredStyle := style;
      appearanceUpdateRequests := appearanceUpdateRequests + 1;
    }

    /** `view.addSubview`: the hosting view goes on top. */
    method AddSubview(view: DynamicUIHostingController)
      modifies this`subviews
      ensures subviews == old(subviews) + [view]
    {
      subviews := subviews + [view];
    }

    /** `view.removeSubview(withIdentifier:)` */
    method RemoveSubview(identifier: string)
      modifies this`subviews
      ensures subviews == WithoutFirst(old(subviews), identifier)
    {
      subviews := WithoutFirst(subviews, identifier);
    }
  }

  /** Two updates in a row leave the second style and two refresh requests. */
  method LastStyleUpdateWins() returns (style: StatusBarStyle, requests: nat)
    ensures style == Default && requests == 2
  {
    var controller := new StatusBarBasedController();
    controller.UpdateStatusBarStyle(DarkContent);
    controller.UpdateStatusBarStyle(Default);
    style := controller.PreferredStatusBarStyle();
    requests := controller.appearanceUpdateRequests;
  }

}
