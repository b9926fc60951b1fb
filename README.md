# AlertsLibrary overlay lifecycle, in Dafny

A model of the core of the iOS alert library `iOSAlertLibary`, together with
proofs about it. An application hands the library a `BasicContainerView`
(alert content, a `ContainerConfig` with an id, an optional duration, a
position and dismiss gestures). The library's `AlertPresentationManager`
then does the following:

- creates a transparent overlay window on demand (`OverlayWindowManager`);
- measures the content and places it with `AlertPositionEnum.calculateFrame`;
- mounts it in a `DynamicUIHostingController` under the overlay's
  `StatusBarBasedController`, which switches to dark content for
  dynamic-island alerts;
- registers the alert's `BasicContainerViewModel` under its id;
- registers a rotation handler for the first alert shown while its flag is
  clear; handlers are never removed.

The container animates in when it appears and may arm an auto-dismiss timer.
A flag set by `dismissAlert(id:)`, a configured swipe (`GestureProcessor`), a
tap, or the timer makes it animate out and then call back `removeAlertView`.
That callback unregisters and unmounts the alert. When nothing is left
mounted it also resets the status bar and removes the overlay. The demo app's
`AlertDataManager` saves each shown id under a section and dismisses whole
sections.

The model has one module per source file:

- `GestureProcessing`, `AlertPlacement`, `ContainerViewModel`, `ContainerView`,
  `HostingController`, `StatusBar`, `OverlayWindow`, `PresentationManager`,
  `Library` and `DemoData`.
- Shared value types are in `AlertTypes` and `Optional`.
- Objects the source updates in place are classes with `modifies` and `reads`
  frames.
- The arithmetic (placement, thresholds, clamping) is functions with lemmas.
- UIKit and the clock are inputs:
  - whether a foreground scene exists;
  - the measured fitting size, an `Option` like the optional the code unwraps
    (UIKit in fact always yields one; see "## Left out");
  - window bounds and safe-area insets (`WindowGeometry`);
  - the screen size;
  - events such as `TimerFires` and `ExitAnimationFinished`.
- `CGFloat` is `real`.

Behaviour of the code that the model keeps:

- **Auto-dismiss timer.** The timer starts when the alert appears. It is
  armed in the same task that begins the entrance animation
  (`BasicContainerView.swift:95-104`).
- **No repeat guard.** `dismissWithAnimation` has no guard
  (`BasicContainerView.swift:107-115`). Every trigger (flag, drag, tap, timer)
  schedules its own exit and its own `onDismiss` call, and a timer is never
  cancelled. `TwoTriggersCallOnDismissTwice` shows two calls.
  `removeAlertView` for an id already removed changes nothing
  (`AlertPresentationManager.swift:135-139`).
- **Gestures dismiss directly.** Drags and taps call `dismissWithAnimation`
  themselves, without going through the view model's flag
  (`BasicContainerView.swift:75-90`).
- **An aborted show keeps the overlay.** `addAlertToOverlayWindow` sets up
  the overlay before its two guards (`AlertPresentationManager.swift:72-79`).
  The fitting-size guard at :79 can only fail if the size is absent, which
  UIKit never produces, but the model keeps the guard: a show stopped there
  would keep a newly created overlay and register nothing.
- **Rotation reframes only captured alerts.** A rotation handler is
  registered only while the flag is clear, so only the first alert shown
  since the last reset is captured (`AlertPresentationManager.swift:170-183`).
  `RotationReframesOnlyFirstAlert` shows this.
- **Handlers are never unregistered.** `clearObserversIfNeeded` resets the
  flag, but its `removeObserver(self, …)` names the manager, which was never
  registered (`AlertPresentationManager.swift:173-188`). The block handlers
  stay, and each rotation runs every handler ever registered, including those
  of removed alerts. `HandlerOfRemovedAlertStillReframes` shows this.
- **Registered implies mounted, not the converse.** Every registered id has
  a mounted view (`AlertPresentationManager.Valid`). A second `show` with the
  same id overwrites the registry entry but leaves two mounted views
  (`AlertPresentationManager.swift:92-95`).
- **The entry is removed before the overlay check.** `removeAlertView` removes
  the registry entry before it looks for an overlay
  (`AlertPresentationManager.swift:135-136`), and the model keeps that order.

## Model

| member | source | states |
|---|---|---|
| GestureProcessing.BuildThresholds | Sources/iOSAlertLibrary/Core/Utils/GestureProcessor.swift:7-26 | The construction loop yields exactly the table `Thresholds(gestures)`. The tap flag is set iff `.tap` is in the list. |
| GestureProcessing.RaiseAllAt | Sources/iOSAlertLibrary/Core/Utils/GestureProcessor.swift:15-18 | After the inner loop, a direction has an entry iff it had one or is listed. A listed direction holds `max(old ?? 0, threshold)`; any other keeps its old value. |
| GestureProcessing.ThresholdsKeys | Sources/iOSAlertLibrary/Core/Utils/GestureProcessor.swift:11-21 | A direction has a stored threshold iff some `.swipe` entry lists it; `.tap` and `.none` add none. |
| GestureProcessing.ThresholdsAreMaxima | Sources/iOSAlertLibrary/Core/Utils/GestureProcessor.swift:15-18 | A direction's stored threshold (0 when absent) is the maximum of 0 and every threshold listing it. Duplicates combine by maximum, not sum, so it is never negative. |
| GestureProcessing.ThresholdsOrderIndependent | Sources/iOSAlertLibrary/Core/Utils/GestureProcessor.swift:11-22 | Two gesture lists that are permutations of each other build the same table. |
| GestureProcessing.GestureProcessor.constructor | Sources/iOSAlertLibrary/Core/Utils/GestureProcessor.swift:7-26 | The stored table is `Thresholds(gestures)`, and `hasTapGesture` holds iff `.tap` is listed. Both are constants. |
| GestureProcessing.GestureProcessor.ShouldDismissOnSwipe | Sources/iOSAlertLibrary/Core/Utils/GestureProcessor.swift:28-57 | Visiting directions in any order, the answer is true iff some stored direction's test holds (left/right: beyond −t/t and \|x\| > \|y\|; up/down likewise on y). Nothing changes. |
| GestureProcessing.AtMostOneDirectionDismisses | Sources/iOSAlertLibrary/Core/Utils/GestureProcessor.swift:32-55 | With non-negative thresholds, at most one direction's test holds for a given drag, so iteration order cannot matter. |
| GestureProcessing.DiagonalDragNeverDismisses | Sources/iOSAlertLibrary/Core/Utils/GestureProcessor.swift:35-56 | A drag with \|x\| = \|y\| never dismisses. |
| GestureProcessing.NoSwipeEntryNeverDismisses | Sources/iOSAlertLibrary/Core/Utils/GestureProcessor.swift:11-56 | A gesture list without `.swipe` entries never dismisses on a drag. |
| GestureProcessing.SwipeDismissesFromConfig | Sources/iOSAlertLibrary/Core/Utils/GestureProcessor.swift:11-57 | A drag dismisses iff, for some listed direction, it passes that direction's test against 0 and against every `.swipe` threshold listing it. |
| AlertPlacement.EffectiveTopInset | Sources/iOSAlertLibrary/Core/Enums/AlertPositionEnum.swift:12 | The safe-area top when it is positive, else 20; always positive. |
| AlertPlacement.CalculateOrigin | Sources/iOSAlertLibrary/Core/Enums/AlertPositionEnum.swift:8-28 | Every position centres horizontally. `.top` sits at the effective inset. `.center` centres vertically. `.bottom` rests on the safe-area bottom. `.dynamicIsland` sits 113 above a top inset over 20, else at 20. |
| AlertPlacement.CalculateFrame | Sources/iOSAlertLibrary/Core/Enums/AlertPositionEnum.swift:33-36 | The frame has exactly the requested size, at `calculateOrigin`. |
| AlertPlacement.FrameFitsHorizontally | Sources/iOSAlertLibrary/Core/Enums/AlertPositionEnum.swift:16-25 | Content no wider than the window lies horizontally inside it. |
| AlertPlacement.NoSafeAreaTopPlacesTopAndIslandAlike | Sources/iOSAlertLibrary/Core/Enums/AlertPositionEnum.swift:12-26 | With no safe-area top, `.top` and `.dynamicIsland` both start at y = 20. |
| AlertPlacement.BottomPlacementExample | Sources/iOSAlertLibrary/Core/Enums/AlertPositionEnum.swift:21-23 | A 200x80 alert at the bottom of a 400x800 window with a 20-point bottom inset sits at (100, 700). |
| ContainerViewModel.BasicContainerViewModel.constructor | SPM/Sources/iOSAlertLibrary/Core/Containers/ViewModels/BasicContainerViewModel.swift:33-39 | `shouldDismiss` starts false. One new processor is built from the given gestures and held as a constant. |
| ContainerViewModel.BasicContainerViewModel.ShouldDismissOnSwipe | SPM/Sources/iOSAlertLibrary/Core/Containers/ViewModels/BasicContainerViewModel.swift:41-43 | Exactly the processor's answer for the same drag; `shouldDismiss` is not written. |
| ContainerViewModel.BasicContainerViewModel.ShouldDismissOnTap | SPM/Sources/iOSAlertLibrary/Core/Containers/ViewModels/BasicContainerViewModel.swift:45-47 | The processor's tap flag, whatever the swipe configuration; `shouldDismiss` is not written. |
| ContainerView.AutoDismissDelay | Sources/iOSAlertLibrary/Core/Containers/BasicContainerView.swift:101 | The sleep is the duration or 1, whichever is larger. It is always at least 1. |
| ContainerView.BasicContainerView.constructor | Sources/iOSAlertLibrary/Core/Containers/BasicContainerView.swift:55-62 | Stores the config and `onDismiss` unchanged and builds a new view model from the config's gestures. Not yet animated, no timers, no exits. |
| ContainerView.BasicContainerView.WithDismiss | Sources/iOSAlertLibrary/Core/Managers/AlertPresentationManager.swift:37-43 | The value copy of a container with a new `onDismiss` keeps the config and shares the view model. |
| ContainerView.BasicContainerView.OnAppear | Sources/iOSAlertLibrary/Core/Containers/BasicContainerView.swift:95-104 | Animates in. With a duration, exactly one timer with the clamped delay is added; with none, no timer. |
| ContainerView.BasicContainerView.DismissWithAnimation | Sources/iOSAlertLibrary/Core/Containers/BasicContainerView.swift:107-115 | Animates out and schedules one more exit, with no guard against an exit already pending. |
| ContainerView.BasicContainerView.TimerFires | Sources/iOSAlertLibrary/Core/Containers/BasicContainerView.swift:101-102 | The oldest pending timer ends and dismisses. With no timer pending, nothing changes. |
| ContainerView.BasicContainerView.ShouldDismissPublished | Sources/iOSAlertLibrary/Core/Containers/BasicContainerView.swift:70-74 | A published `true` dismisses; `false` changes nothing. |
| ContainerView.BasicContainerView.DragEnded | Sources/iOSAlertLibrary/Core/Containers/BasicContainerView.swift:77-82 | A drag dismisses iff the configured swipes say so for its translation. |
| ContainerView.BasicContainerView.TapEnded | Sources/iOSAlertLibrary/Core/Containers/BasicContainerView.swift:83-88 | A tap dismisses iff `.tap` is configured. |
| ContainerView.BasicContainerView.ExitAnimationFinished | Sources/iOSAlertLibrary/Core/Containers/BasicContainerView.swift:112-113 | Once an exit's 0.3 s have passed, `onDismiss` (if set) is called and that exit is consumed. With none pending, nothing is called. |
| ContainerView.TwoTriggersCallOnDismissTwice | Sources/iOSAlertLibrary/Core/Containers/BasicContainerView.swift:70-90 | A tap followed by the flag calls `onDismiss` twice. |
| ContainerView.ShortDurationIsClampedToOneSecond | Sources/iOSAlertLibrary/Core/Containers/BasicContainerView.swift:100-102 | A 0.5 s duration sleeps 1 s, and its timer leads to `onDismiss`. |
| HostingController.DynamicUIHostingController.constructor | SPM/Sources/iOSAlertLibrary/Core/Utils/DynamicUIHostingController.swift:4-8 | A new hosting controller has no layout callback, no previous size and the zero frame. |
| HostingController.DynamicUIHostingController.ViewWillLayoutSubviews | SPM/Sources/iOSAlertLibrary/Core/Utils/DynamicUIHostingController.swift:10-23 | `previousSize` becomes the pass's size. The callback fires, once and with the new size, iff there was a previous size, it differs, and a callback is set. The first pass never fires. |
| HostingController.FirstIndexOf | Sources/iOSAlertLibrary/Core/Managers/AlertPresentationManager.swift:141 | The index of the first subview carrying the identifier (none before it carries it), or the count when none does. |
| HostingController.WithoutFirst | Sources/iOSAlertLibrary/Core/Managers/AlertPresentationManager.swift:141 | Removing the subview for an identifier takes out exactly the first view carrying it. With none, the subviews are unchanged. |
| HostingController.WithoutFirstKeepsOtherIdentifiers | Sources/iOSAlertLibrary/Core/Managers/AlertPresentationManager.swift:141 | Removing the view for one identifier keeps a view for every other identifier that had one. |
| StatusBar.StatusBarBasedController.constructor | SPM/Sources/iOSAlertLibrary/Core/Utils/StatusBarBasedController.swift:5 | The style starts `.default`, with no refresh requested and no subviews. |
| StatusBar.StatusBarBasedController.PreferredStatusBarStyle | SPM/Sources/iOSAlertLibrary/Core/Utils/StatusBarBasedController.swift:7-9 | Returns the stored style. |
| StatusBar.StatusBarBasedController.UpdateStatusBarStyle | SPM/Sources/iOSAlertLibrary/Core/Utils/StatusBarBasedController.swift:11-14 | Stores the style and requests exactly one appearance refresh. |
| StatusBar.StatusBarBasedController.AddSubview | Sources/iOSAlertLibrary/Core/Managers/AlertPresentationManager.swift:91-93 | The hosting view is appended on top of the existing subviews. |
| StatusBar.StatusBarBasedController.RemoveSubview | Sources/iOSAlertLibrary/Core/Managers/AlertPresentationManager.swift:141 | The subviews become `WithoutFirst` of the old ones. |
| StatusBar.LastStyleUpdateWins | SPM/Sources/iOSAlertLibrary/Core/Utils/StatusBarBasedController.swift:11-14 | After two updates the second style is stored and two refreshes were requested. |
| OverlayWindow.PassThroughWindow.constructor | SPM/Sources/iOSAlertLibrary/Core/Managers/OverlayWindowManager.swift:18 | A new window is attached to its scene, hidden, and has no root. |
| OverlayWindow.OverlayWindowManager.constructor | SPM/Sources/iOSAlertLibrary/Core/Managers/OverlayWindowManager.swift:5 | There is no overlay at first. |
| OverlayWindow.OverlayWindowManager.SetupOverlayWindowIfNeeded | SPM/Sources/iOSAlertLibrary/Core/Managers/OverlayWindowManager.swift:8-25 | An existing overlay is kept. Otherwise one is created iff a foreground scene exists: visible, and rooted in a new `.default` status-bar controller with no subviews. |
| OverlayWindow.OverlayWindowManager.RemoveOverlayWindowIfNeeded | SPM/Sources/iOSAlertLibrary/Core/Managers/OverlayWindowManager.swift:28-35 | Afterwards there is no overlay. A previous overlay has lost its root, is hidden and is detached from its scene. Without an overlay this is a no-op. |
| OverlayWindow.SetupAfterRemoveCreatesNewOverlay | SPM/Sources/iOSAlertLibrary/Core/Managers/OverlayWindowManager.swift:8-35 | A repeated setup keeps the overlay, and a repeated remove is harmless. A setup after a remove creates a different overlay. |
| PresentationManager.ClampToScreen | Sources/iOSAlertLibrary/Core/Managers/AlertPresentationManager.swift:52-55 | Each component is the smaller of the new size's and the screen's. |
| PresentationManager.ClampKeepsFittingSize | Sources/iOSAlertLibrary/Core/Managers/AlertPresentationManager.swift:52-55 | A size that already fits the screen is not changed by the clamp. |
| PresentationManager.AlertPresentationManager.constructor | Sources/iOSAlertLibrary/Core/Managers/AlertPresentationManager.swift:3-10 | A new manager owns a new overlay manager and has no overlay. The registry is empty and the observer flag is clear. |
| PresentationManager.AlertPresentationManager.Dismiss | Sources/iOSAlertLibrary/Core/Managers/AlertPresentationManager.swift:27-33 | A known id has its view model's `shouldDismiss` set. Only that view model may change: the registry stays, and an unknown id changes nothing. |
| PresentationManager.AlertPresentationManager.PrepareHostingController | Sources/iOSAlertLibrary/Core/Managers/AlertPresentationManager.swift:36-63 | A new hosting controller for a copy of the container: identified by the alert id, `onDismiss` removing that id, and the clamp-and-reframe layout callback for its position, not yet placed (zero frame). |
| PresentationManager.AlertPresentationManager.Show | Sources/iOSAlertLibrary/Core/Managers/AlertPresentationManager.swift:13-24 | Without an overlay or a measured size, the registry, views, style, flag and handlers are unchanged and the prepared view keeps its zero frame, though a new overlay may stay. Otherwise: the id maps to the view model (overwriting), the new view goes on top with its computed frame in a visible, scene-attached overlay, dynamic-island alerts turn the bar dark, and a handler capturing the view and the overlay is appended only if the flag was clear. |
| PresentationManager.AlertPresentationManager.AddAlertToOverlayWindow | Sources/iOSAlertLibrary/Core/Managers/AlertPresentationManager.swift:66-103 | Set up the overlay, then abort without an overlay or a size (registry, views, style, flag, handlers and the view's frame unchanged); otherwise mount as `MountAlert` states. The manager invariant is kept, so any overlay is visible and attached to its scene. |
| PresentationManager.AlertPresentationManager.MountAlert | Sources/iOSAlertLibrary/Core/Managers/AlertPresentationManager.swift:81-102 | Status bar dark iff `.dynamicIsland`, frame from the position, view appended, registry entry written, a handler capturing the view and window appended only if the flag was clear. The invariant is kept, so the window stays visible and attached to its scene. |
| PresentationManager.AlertPresentationManager.UpdateStatusBar | Sources/iOSAlertLibrary/Core/Managers/AlertPresentationManager.swift:106-115 | A window with a root gets the style, with its subviews unchanged; without a root, nothing changes. |
| PresentationManager.AlertPresentationManager.UpdateFrame | Sources/iOSAlertLibrary/Core/Managers/AlertPresentationManager.swift:118-131 | A mounted hosting view is reframed for the new size and position; one not in a window keeps its frame. |
| PresentationManager.AlertPresentationManager.LayoutPass | Sources/iOSAlertLibrary/Core/Managers/AlertPresentationManager.swift:49-60 | A layout pass whose size changed reframes a mounted view for the screen-clamped size at its position. Every other pass leaves the frame. |
| PresentationManager.AlertPresentationManager.AddOrientationObserver | Sources/iOSAlertLibrary/Core/Managers/AlertPresentationManager.swift:164-183 | While the flag is set, nothing changes. Otherwise a handler capturing this size, position, view and window is appended to the registered handlers, and the flag is set. |
| PresentationManager.AlertPresentationManager.ClearObserversIfNeeded | Sources/iOSAlertLibrary/Core/Managers/AlertPresentationManager.swift:185-190 | With an empty registry the flag is reset; otherwise it is unchanged. The registered handlers are never touched. |
| PresentationManager.AlertPresentationManager.OrientationDidChange | Sources/iOSAlertLibrary/Core/Managers/AlertPresentationManager.swift:173-182 | Every handler ever registered runs in order. Each reframes its captured view, mounted or not, from its captured size and position, in its captured window's geometry. A view captured twice keeps the later handler's frame. Only the captured views' `frame` fields are written: layout latches and callbacks are kept. |
| PresentationManager.AlertPresentationManager.RemoveAlertView | Sources/iOSAlertLibrary/Core/Managers/AlertPresentationManager.swift:134-149 | The entry is dropped; an unknown id changes nothing more. Otherwise the first view with that id is unmounted. If none remain, the bar reverts to `.default` and the overlay is removed: it loses its root, is hidden and is detached from its scene. Otherwise the same overlay and root stay, visible and attached (the invariant). The flag resets iff the registry is empty, and the registered handlers are kept. |
| PresentationManager.ShowTwoInPortrait | Sources/iOSAlertLibrary/Core/Managers/AlertPresentationManager.swift:97-102 | After two shows only one handler is registered, holding the first alert's view, and the second view has its portrait frame. |
| PresentationManager.RotationReframesOnlyFirstAlert | Sources/iOSAlertLibrary/Core/Managers/AlertPresentationManager.swift:170-183 | After a rotation the first alert has its landscape frame and the second keeps its portrait frame. The reframed controller keeps its layout latch and callback. |
| PresentationManager.OverlayStaysVisibleWhileAlertsRemain | Sources/iOSAlertLibrary/Core/Managers/AlertPresentationManager.swift:134-149 | After two shows and the removal of one, the overlay is still visible and attached to its scene, under the same root controller. |
| PresentationManager.ShowRemoveShow | Sources/iOSAlertLibrary/Core/Managers/AlertPresentationManager.swift:185-190 | Showing, removing and showing again leaves two handlers registered. The first holds the removed, unmounted view; the second holds the new view. |
| PresentationManager.HandlerOfRemovedAlertStillReframes | Sources/iOSAlertLibrary/Core/Managers/AlertPresentationManager.swift:173-188 | A rotation after that reframes both the removed alert's view and the shown alert's view for landscape. |
| Library.AlertLibrary.constructor | Sources/iOSAlertLibrary/iOSAlertLibrary.swift:4-6 | Each library owns a new manager, with no overlay and nothing registered. |
| Library.AlertLibrary.ShowAlert | Sources/iOSAlertLibrary/iOSAlertLibrary.swift:24-26 | Forwards the container to `show` and has all of its effect: the overlay outcome, the unplaced view's zero frame on an abort, the registry, the mounted view with its frame and callbacks, the style, the flag and the handlers. Any overlay afterwards is visible and attached to its scene. |
| Library.AlertLibrary.DismissAlert | Sources/iOSAlertLibrary/iOSAlertLibrary.swift:48-50 | Forwards to `dismiss`: a presented id has its flag set; an id not presented changes nothing. |
| Library.LibrariesTrackAlertsSeparately | Sources/iOSAlertLibrary/iOSAlertLibrary.swift:4-6 | An alert shown on one library is not registered with another. |
| Library.ShowBanner | Sources/iOSAlertLibrary/iOSAlertLibrary.swift:24-26 | Showing a dynamic-island alert turns the bar dark. Its hosted copy shares the registered view model and calls back `removeAlertView` for its id. |
| Library.DismissAlertLeadsToRemoval | Sources/iOSAlertLibrary/iOSAlertLibrary.swift:48-50 | `dismissAlert` on a shown alert leads, through the flag and the exit animation, to a `removeAlertView` call for its id. |
| Library.RemovingLastAlertTearsDownOverlay | Sources/iOSAlertLibrary/Core/Managers/AlertPresentationManager.swift:134-149 | Removing the only alert empties the registry, reverts the bar to `.default` and removes the overlay. A second removal changes nothing. |
| DemoData.Saved | DemoApp/DemoApp/Model/AlertDataManager.swift:268-273 | The section's list, empty when new, gains the id at its end; every other section is unchanged. |
| DemoData.SavesKeepInsertionOrder | DemoApp/DemoApp/Model/AlertDataManager.swift:268-273 | After any run of saves, a section's ids are its earlier ids followed by the ids saved to it, in order. |
| DemoData.Remaining | DemoApp/DemoApp/Model/AlertDataManager.swift:277-283 | Listed sections lose their entries; unlisted ones keep theirs unchanged. |
| DemoData.DismissOrderCovers | DemoApp/DemoApp/Model/AlertDataManager.swift:276-285 | An id is passed to `dismissAlert` iff it is saved under some listed section. |
| DemoData.DistinctSectionsDismissEverySavedId | DemoApp/DemoApp/Model/AlertDataManager.swift:276-281 | With no section listed twice, the ids dismissed are every saved id of each listed section, section by section, in stored order. |
| DemoData.AlertDataManager.constructor | DemoApp/DemoApp/Model/AlertDataManager.swift:9-13 | A new demo manager owns a new library with nothing shown, and an empty table. |
| DemoData.AlertDataManager.SaveAlertID | DemoApp/DemoApp/Model/AlertDataManager.swift:268-273 | The table becomes `Saved` of the old one. |
| DemoData.AlertDataManager.DismissEach | DemoApp/DemoApp/Model/AlertDataManager.swift:279-281 | Every registered id of the list is flagged. The registry is the same, and no flag is cleared. |
| DemoData.AlertDataManager.DismissSection | DemoApp/DemoApp/Model/AlertDataManager.swift:278-283 | A section with an entry has every id dismissed and its entry removed. A section without one is skipped. |
| DemoData.AlertDataManager.DismissAlerts | DemoApp/DemoApp/Model/AlertDataManager.swift:276-285 | The ids dismissed are `DismissOrder` of the old table, and all of them end up flagged. The table becomes `Remaining`, and the registry is unchanged. |
| DemoData.AlertDataManager.PressButton | DemoApp/DemoApp/Model/AlertDataManager.swift:120-139 | The id is saved under the button's section before the alert is shown. When shown, a new unflagged view model is registered under it. |
| DemoData.DismissingASectionFlagsOnlyItsAlerts | DemoApp/DemoApp/Model/AlertDataManager.swift:276-285 | Dismissing another section leaves a shown toast unflagged; dismissing its own section flags it. |
| DemoData.DismissingOneSectionKeepsTheOthers | DemoApp/DemoApp/Model/AlertDataManager.swift:268-285 | Dismissing the toasts section dismisses both toasts in saved order and leaves only the info entry. |

## Left out

- SwiftUI rendering, animation curves, theming and the alert content views are not modelled. They have no state the lifecycle reads.
- `ContainerConfig` is modelled without `animationType` and `animationConfig`, because only rendering reads them.
- The generic `ContainerViewProtocol` is modelled by its one conforming type, `BasicContainerView`.
- `PassThroughWindow.hitTest` is not modelled: it defers to UIKit's own `hitTest`, which is not part of this model.
- `getKeyWindow` is not modelled: nothing in the core calls it.
- UIKit measurement and screen queries are inputs. `calculateFittingSize` becomes an optional size; the scene lookup becomes a boolean; `UIScreen.main.bounds` and the window's bounds and safe area become parameters.
- `Task`, `Task.sleep` and the animation waits are events the caller delivers (`TimerFires`, `ExitAnimationFinished`), so no real time or concurrency is modelled. The `Task { @MainActor }` hop in the `onDismiss` closure is modelled by the caller invoking `RemoveAlertView` afterwards.
- Closures are modelled as the only closures the library installs: `DismissCallback.RemoveAlertView(id)` and `LayoutCallback.ClampAndReframe(position)`. `[weak self]` captures are taken to see a live manager.
- `NotificationCenter` is modelled as the manager's `observers` sequence of the block handlers registered, which nothing removes. UIKit's view hierarchy is modelled as the root controller's `subviews` sequence, with `addChild`/`didMove` folded into `AddSubview`.
- UUID generation in the demo buttons is not modelled: each button's fresh id is a parameter of `PressButton`.
- The rest of the demo app (`setupSections` view building, the SwiftUI and UIKit screens) and the snapshot and UI tests are not modelled.
- GestureProcessing.GestureProcessor.ShouldDismissOnSwipe: dictionary iteration order is modelled as an arbitrary choice, not as Swift's hash order.
- PresentationManager.AlertPresentationManager.Valid: the invariant states that registered ids are mounted, not the converse. The converse fails in the source after a duplicate `show`.
- PresentationManager.AlertPresentationManager.OrientationDidChange: the geometry of each captured window at notification time is an input (`geometryOf`), because UIKit window layout is not modelled. The handlers' `Task` hop is taken as running at once, in registration order.
- CGFloat rounding is not modelled: geometry is exact `real` arithmetic.
- PresentationManager.AlertPresentationManager.AddAlertToOverlayWindow: the `None` fitting size over-approximates. `calculateFittingSize` (`UIView + extensions.swift:10-18`) always returns the non-optional `systemLayoutSizeFitting` result, and a `UIHostingController`'s `view` is never nil, so the guard at `AlertPresentationManager.swift:79` is never taken in the source. Callers that pass `Some` get exactly the source's behaviour.
