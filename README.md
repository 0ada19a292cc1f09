# Forge desktop window chrome, image fetcher and OS detection — a Dafny model

This project models three parts of the Forge desktop client.

- **`FFrame`** is the custom-decorated application window. The model covers:
  - the minimize / maximize / fullscreen transitions over the host's extended-state bits;
  - the saved normal bounds;
  - the cached border and title-bar visibility;
  - pausing and resuming on focus changes;
  - the debounced geometry listener;
  - the native macOS fullscreen events;
  - the title-bar move and border resize pointer handlers.

  The integer geometry is in `window_geometry.dfy`: the cursor zones, the resize rectangle and the move dead zone. The state machine is in `window_chrome.dfy`. Every transition is a pure function on a `WindowState` snapshot (`After*`). The `Frame` class keeps one field per Java field, plus the host window's state. Each of its methods is proved to produce exactly the snapshot its `After*` function gives.
- **`ImageFetcher`** downloads card and token images on demand (`image_fetcher.dfy`). The model covers:
  - resolving an image key to a download URL and a cache destination;
  - the lazily built token URL table;
  - the in-flight table that merges requests for the same destination;
  - the notification of every waiting observer once a download succeeds.

  The thread pool and the event-dispatch queue are explicit queues (`tasks`, `notifications`), which the environment drains one step at a time.
- **`OSUtil.detectOS`** (`os_util.dfy`) lower-cases `os.name`, classifies it by a prioritised substring test and remembers the answer.

`text.dfy` holds the string helpers these need: ASCII lower-casing, substring search, and decimal formatting. `wrappers.dfy` holds `Option` and `Result`.

## Model

Source paths are relative to the repository root:
- `FFrame.java` is `forge-gui-desktop/src/main/java/forge/view/FFrame.java`.
- `ImageFetcher.java` is `forge-gui-desktop/src/main/java/forge/ImageFetcher.java`.
- `OSUtil.java` is `forge-core/src/main/java/forge/util/OSUtil.java`.

The table spells the paths out in full.

| member | source | states |
|---|---|---|
| OSUtil.Classify | forge-core/src/main/java/forge/util/OSUtil.java:14-26 | The os.name is lower-cased, then the first matching rule of the table wins: "win" → WINDOWS, "mac" → MAC_OS, "nix"/"nux"/"aix" → LINUX, anything else OTHER. |
| OSUtil.ChainIsTable | forge-core/src/main/java/forge/util/OSUtil.java:15-26 | The if/else chain and the first-match-over-a-priority-table reading agree on every name. |
| OSUtil.ClassifyCases | forge-core/src/main/java/forge/util/OSUtil.java:15-26 | Each OS is returned exactly when its needle occurs and no earlier needle does (both directions, all four results). |
| OSUtil.WindowsFirst | forge-core/src/main/java/forge/util/OSUtil.java:15-17 | "win" anywhere in the lower-cased name gives WINDOWS, whatever else the name contains (e.g. "Darwin"). |
| OSUtil.CaseInsensitive | forge-core/src/main/java/forge/util/OSUtil.java:14 | The result depends only on the lower-cased name. |
| OSUtil.WindowsInContext | forge-core/src/main/java/forge/util/OSUtil.java:14-17 | A name classified WINDOWS stays WINDOWS with any text added before or after it. |
| OSUtil.Detector.constructor | forge-core/src/main/java/forge/util/OSUtil.java:9 | The memo starts empty (null). |
| OSUtil.Detector.DetectOS | forge-core/src/main/java/forge/util/OSUtil.java:11-29 | The first call stores and returns the classification of its argument. Every later call returns the stored value. |
| OSUtil.DetectTwice | forge-core/src/main/java/forge/util/OSUtil.java:11-12 | Two calls always agree, even if os.name has changed between them. |
| Text.ToLower | forge-core/src/main/java/forge/util/OSUtil.java:14 | Same length, pointwise ASCII lower-casing, no upper-case letter left. |
| Text.ToLowerIdempotent | forge-core/src/main/java/forge/util/OSUtil.java:14 | Lower-casing twice is lower-casing once. |
| Text.ToLowerAppend | forge-core/src/main/java/forge/util/OSUtil.java:14 | Lower-casing distributes over concatenation. |
| Text.Contains | forge-core/src/main/java/forge/util/OSUtil.java:15 | String.contains: true exactly when the needle occurs at some index. |
| Text.ContainsInContext | forge-core/src/main/java/forge/util/OSUtil.java:15 | An occurrence survives adding text before and after. |
| Text.Digits | forge-gui-desktop/src/main/java/forge/ImageFetcher.java:53 | The decimal digits of a natural: non-empty, all digits, no leading zero. |
| Text.DecimalString | forge-gui-desktop/src/main/java/forge/ImageFetcher.java:53 | %d of an int: non-empty and ends in a digit. |
| Text.DigitsRoundTrip | forge-gui-desktop/src/main/java/forge/ImageFetcher.java:53 | Reading back the digits of n gives n. |
| Text.DecimalRoundTrip | forge-gui-desktop/src/main/java/forge/ImageFetcher.java:53 | Parsing the %d rendering of any int, negative ones included, gives it back. |
| Text.ParseDecimal | forge-gui-desktop/src/main/java/forge/ImageFetcher.java:53 | Not a call of the source: the inverse of the %d rendering, used only to state DecimalRoundTrip. A negative result comes only from a string with a leading '-'. |
| WindowGeometry.CursorZone | forge-gui-desktop/src/main/java/forge/view/FFrame.java:617-650 | The cursor is the zone of the column band and the row band (grab band of 2 × borderThickness). It moves the left or top edge exactly when the point is in the left or top band. It moves the right or bottom edge exactly when it is in that band and not in the left or top one. It is DEFAULT exactly inside the inner rectangle. |
| WindowGeometry.ResizedWithinLimits | forge-gui-desktop/src/main/java/forge/view/FFrame.java:695-713 | With min ≤ max, the resized width and height lie within [min, max]. |
| WindowGeometry.ResizedAnchoring | forge-gui-desktop/src/main/java/forge/view/FFrame.java:664-734 | For the intended rectangle (the handler with the corrected clamp, see Findings): the origin moves only along dragged edges, the edges opposite the dragged ones stay fixed, and an unclamped drag moves the dragged edge by exactly the pointer delta. The source as written does not keep the opposite edge on a west or north drag past the maximum. |
| WindowGeometry.ResizeDrag | forge-gui-desktop/src/main/java/forge/view/FFrame.java:658-734 | The drag handler's computation, with the maximum-side clamp corrected, equals the intended rectangle `ResizedBounds`. |
| WindowGeometry.ResizeDragAsWritten | forge-gui-desktop/src/main/java/forge/view/FFrame.java:658-734 | The handler as written. The size is still clamped correctly. A west or north drag past the maximum moves the opposite edge by twice the overshoot. |
| WindowGeometry.WestDragPastMaximum | forge-gui-desktop/src/main/java/forge/view/FFrame.java:702-705 | A concrete drag on which the as-written and corrected handlers differ: the right edge ends at 80 instead of staying at 100. |
| WindowGeometry.NorthWestDragExample | forge-gui-desktop/src/main/java/forge/view/FFrame.java:689-692 | A corner drag by (-10, -5) grows the window by (10, 5) and moves its origin by (-10, -5). |
| WindowGeometry.Wrap32 | forge-gui-desktop/src/main/java/forge/view/FFrame.java:570 | Java int wrap-around: the result is in the 32-bit range and is the identity on it. |
| WindowGeometry.SquareBound | forge-gui-desktop/src/main/java/forge/view/FFrame.java:570 | A square of a screen-sized delta fits an int. |
| WindowGeometry.DeadZoneExact | forge-gui-desktop/src/main/java/forge/view/FFrame.java:567-573 | For deltas of at most 32767 pixels, the int test `dx*dx + dy*dy < 25` is exactly the open disc of radius 5. |
| WindowGeometry.DeadZoneOverflow | forge-gui-desktop/src/main/java/forge/view/FFrame.java:570 | Past 46340 pixels the int square overflows, and a far drag counts as inside the dead zone. |
| WindowChrome.Bits | forge-gui-desktop/src/main/java/forge/view/FFrame.java:426-457 | The bit mask a state reports: in [0, 8). ICONIFIED is the low bit. Zero exactly for NORMAL. |
| WindowChrome.BitsInjective | forge-gui-desktop/src/main/java/forge/view/FFrame.java:426-457 | Distinct states report distinct masks, so the three-flag record stands for the int faithfully. |
| WindowChrome.WithMaximized | forge-gui-desktop/src/main/java/forge/view/FFrame.java:449-456 | `state \| MAXIMIZED_BOTH` or `state & ~MAXIMIZED_BOTH`: the maximized test equals the request and ICONIFIED is kept. |
| WindowChrome.WithIconified | forge-gui-desktop/src/main/java/forge/view/FFrame.java:434-436 | `state \| ICONIFIED`: iconified, and the other bits are kept. |
| WindowChrome.HalfMaximizedIsNotNormal | forge-gui-desktop/src/main/java/forge/view/FFrame.java:444-446 | A half-maximized state is neither maximized nor normal. |
| WindowChrome.Initial | forge-gui-desktop/src/main/java/forge/view/FFrame.java:70-221 | After initialize the frame is normal. Border and title bar are marked hidden, so the first update shows them. The title bar is locked exactly for the main frame with the preference set. Native macOS fullscreen is tracked exactly on macOS with the API present. |
| WindowChrome.AfterSetFullScreen | forge-gui-desktop/src/main/java/forge/view/FFrame.java:471-515 | setFullScreen keeps the drag session, pause flag, chrome, normal bounds, macOS flag and visibility, and preserves the frame invariant. |
| WindowChrome.AfterResetState | forge-gui-desktop/src/main/java/forge/view/FFrame.java:369-372 | resetState leaves the extended state NORMAL, keeps the invariant and the drag session. |
| WindowChrome.AfterSetLocation | forge-gui-desktop/src/main/java/forge/view/FFrame.java:354-357 | setLocation(x, y) un-maximizes, requests leaving fullscreen (through setFullScreen(false), which under macOS rules only asks for a toggle and on a host without fullscreen support does nothing), and puts the window at the point. |
| WindowChrome.AfterSetSize | forge-gui-desktop/src/main/java/forge/view/FFrame.java:364-367 | setSize(width, height) un-maximizes, requests leaving fullscreen (as setLocation does) and gives the window the size. |
| WindowChrome.AfterUpdateBorder | forge-gui-desktop/src/main/java/forge/view/FFrame.java:524-537 | Only the border flag and log change. Nothing happens while minimized. Otherwise the border is hidden exactly when maximized or fullscreen. setBorder is called only when that changes it. |
| WindowChrome.AfterUpdateTitleBar | forge-gui-desktop/src/main/java/forge/view/FFrame.java:320-329 | The buttons are always refreshed. The title bar is hidden exactly when fullscreen, not locked and not under macOS rules. Visibility and relayout are touched only on a change. |
| WindowChrome.AfterUpdateChrome | forge-gui-desktop/src/main/java/forge/view/FFrame.java:106-108 | Border and title bar both end up agreeing with the current mode. |
| WindowChrome.AfterSetLockTitleBar | forge-gui-desktop/src/main/java/forge/view/FFrame.java:305-314 | The lock is set. The title bar is recomputed only when the lock changed. The host, macOS and drag state are untouched. |
| WindowChrome.MinimizeRoundTrip | forge-gui-desktop/src/main/java/forge/view/FFrame.java:431-441 | Minimizing then restoring gives back the exact extended state, which is saved in preMinimizeState. |
| WindowChrome.MinimizedNoOp | forge-gui-desktop/src/main/java/forge/view/FFrame.java:432 | setMinimized with the window already in the requested state changes nothing. |
| WindowChrome.RestoreUsesLastSave | forge-gui-desktop/src/main/java/forge/view/FFrame.java:431-441 | Minimizing an already minimized window saves nothing; restoring brings back the last saved state. |
| WindowChrome.SetMaximizedMode | forge-gui-desktop/src/main/java/forge/view/FFrame.java:449-457 | setMaximized decides the maximized test and keeps ICONIFIED, fullscreen and the normal bounds. Un-maximizing applies the normal bounds. |
| WindowChrome.MaximizeUnmaximize | forge-gui-desktop/src/main/java/forge/view/FFrame.java:449-457 | Maximize then un-maximize: not maximized, the minimized bit is unchanged, and the window is at the normal bounds. |
| WindowChrome.NormalBoundsDeferred | forge-gui-desktop/src/main/java/forge/view/FFrame.java:399-405 | setNormalBounds always records. It moves the window only when neither maximized nor fullscreen. |
| WindowChrome.UpdateThenApply | forge-gui-desktop/src/main/java/forge/view/FFrame.java:410-423 | For a normal window, updateNormalBounds then applyNormalBounds keeps the window where it is. |
| WindowChrome.FullScreenKeepsMaximized | forge-gui-desktop/src/main/java/forge/view/FFrame.java:498-514 | Without macOS rules, setFullScreen never changes the maximized test. When the toggle is effective, the window is in the requested mode and leaving fullscreen restores the normal bounds. Otherwise nothing changes. |
| WindowChrome.LayoutMaximizedFullScreen | forge-gui-desktop/src/main/java/forge/view/FFrame.java:374-385 | setWindowLayout(…, true, true) gives a maximized fullscreen window. Leaving fullscreen afterwards leaves it maximized. |
| WindowChrome.MacFullScreenRequestOnly | forge-gui-desktop/src/main/java/forge/view/FFrame.java:472-497 | Under macOS rules setFullScreen only requests a toggle, or marks it pending while hidden. The host is untouched. |
| WindowChrome.MacFullScreenRoundTrip | forge-gui-desktop/src/main/java/forge/view/FFrame.java:180-212 | Entering then exiting native fullscreen puts the host back exactly as it was. |
| WindowChrome.RelayoutOnlyOnChange | forge-gui-desktop/src/main/java/forge/view/FFrame.java:320-329 | updateTitleBar re-lays out exactly when it is the main frame and the visibility changed. |
| WindowChrome.FirstUpdateShowsBorder | forge-gui-desktop/src/main/java/forge/view/FFrame.java:73-75 | The first border update after initialize shows the border, with a single setBorder. |
| WindowChrome.PauseResume | forge-gui-desktop/src/main/java/forge/view/FFrame.java:269-293 | pause is idempotent. pause then resume restores the flag, and sound and matches are paused then resumed once. |
| WindowChrome.DeactivationMinimizes | forge-gui-desktop/src/main/java/forge/view/FFrame.java:86-95 | Losing focus to another application pauses the main frame. It minimizes a fullscreen window unless macOS rules apply. |
| WindowChrome.TitleBarDragDeadZone | forge-gui-desktop/src/main/java/forge/view/FFrame.java:564-578 | A maximized window that has not started moving ignores drags within 5 pixels. Any other drag moves it, un-maximized, to its location before the move plus the delta. |
| WindowChrome.ResizeDragKeepsOppositeEdges | forge-gui-desktop/src/main/java/forge/view/FFrame.java:654-734 | With the corrected clamp the Frame uses, an edge drag keeps the size in [min, max] and the undragged edges in place. The source as written moves the opposite edge on a west or north drag past the maximum (see Findings). |
| WindowChrome.HoverSelectsZone | forge-gui-desktop/src/main/java/forge/view/FFrame.java:616-651 | Hovering selects a west or north cursor exactly in the left or top band. During a drag or while maximized nothing changes. |
| WindowChrome.StateChangedRestores | forge-gui-desktop/src/main/java/forge/view/FFrame.java:99-109 | The window-state listener restores preMinimizeState exactly when the event leaves ICONIFIED and keeps the extended state otherwise. The bounds, preMinimizeState and the drag session stay as they are. |
| WindowChrome.MacOtherEventOnlyChrome | forge-gui-desktop/src/main/java/forge/view/FFrame.java:177-212 | The macOS listener's other callbacks only refresh the border and title bar: host and macOS state stay as they are. |
| WindowChrome.OverloadsAgreeOffMac | forge-gui-desktop/src/main/java/forge/view/FFrame.java:349-367 | Without native macOS fullscreen the Point and Dimension overloads end in exactly the state the int overloads give: the second reset changes nothing. |
| WindowChrome.PointOverloadRequestsTwice | forge-gui-desktop/src/main/java/forge/view/FFrame.java:349-357 | In native macOS fullscreen setLocation(x, y) asks the platform once to leave fullscreen, setLocation(Point) asks twice; the host ends the same. |
| WindowChrome.Firings | forge-gui-desktop/src/main/java/forge/view/FFrame.java:120-129 | Event i of a run fires exactly when more than 750 ms passed since event i-1. |
| WindowChrome.BurstUpdatesOnlyAtStart | forge-gui-desktop/src/main/java/forge/view/FFrame.java:116-129 | Leading debounce: in a burst only the first event updates. The last event of the burst does not. |
| WindowChrome.ComponentStates | forge-gui-desktop/src/main/java/forge/view/FFrame.java:116-139 | The states a run of geometry events goes through: one more than the events, starting at the initial state. |
| WindowChrome.ComponentRunFollowsFirings | forge-gui-desktop/src/main/java/forge/view/FFrame.java:120-129 | Folding the listener over a run of event times, step i runs the border and title-bar update exactly when Firings says event i fires, and always records its time. |
| WindowChrome.BurstRunUpdatesOnlyAtStart | forge-gui-desktop/src/main/java/forge/view/FFrame.java:116-129 | In the listener's own run over a burst, the first event updates the chrome and every later event, the last included, only records its time. |
| WindowChrome.ComponentChangedDebounce | forge-gui-desktop/src/main/java/forge/view/FFrame.java:120-139 | An event updates border and title bar exactly when more than 750 ms have passed. lastCalled always advances. |
| WindowChrome.FullScreenPreservesValid | forge-gui-desktop/src/main/java/forge/view/FFrame.java:180-255 | The macOS fullscreen events and the scheduled fullscreen keep the frame invariant. |
| WindowChrome.PointerPreservesValid | forge-gui-desktop/src/main/java/forge/view/FFrame.java:539-612 | The pointer handlers keep the invariant: a drag session always knows the location before the move. |
| WindowChrome.Frame.constructor | forge-gui-desktop/src/main/java/forge/view/FFrame.java:66-77 | The fields after construction and initialize are `Initial`, and the invariant holds. |
| WindowChrome.Frame.IsMinimized | forge-gui-desktop/src/main/java/forge/view/FFrame.java:426-428 | The ICONIFIED bit of the host state. |
| WindowChrome.Frame.IsMaximized | forge-gui-desktop/src/main/java/forge/view/FFrame.java:444-446 | Both MAXIMIZED bits of the host state. |
| WindowChrome.Frame.IsFullScreen | forge-gui-desktop/src/main/java/forge/view/FFrame.java:460-463 | The tracked macOS flag when present, else the host's fullscreen window. |
| WindowChrome.Frame.MacosFullScreenRules | forge-gui-desktop/src/main/java/forge/view/FFrame.java:466-468 | Native macOS fullscreen is tracked. |
| WindowChrome.Frame.IsNormal | forge-gui-desktop/src/main/java/forge/view/FFrame.java:520-522 | No state bit and not fullscreen, which implies not minimized, maximized or fullscreen. |
| WindowChrome.Frame.SetExtendedState | forge-gui-desktop/src/main/java/forge/view/FFrame.java:258-267 | Only the host state changes. |
| WindowChrome.Frame.ApplyNormalBounds | forge-gui-desktop/src/main/java/forge/view/FFrame.java:419-423 | The new state is AfterApplyNormalBounds of the old one. |
| WindowChrome.Frame.SetNormalBounds | forge-gui-desktop/src/main/java/forge/view/FFrame.java:399-405 | The new state is AfterSetNormalBounds (see NormalBoundsDeferred). |
| WindowChrome.Frame.UpdateNormalBounds | forge-gui-desktop/src/main/java/forge/view/FFrame.java:410-414 | The new state is AfterUpdateNormalBounds (see UpdateThenApply). |
| WindowChrome.Frame.SetMinimized | forge-gui-desktop/src/main/java/forge/view/FFrame.java:431-441 | The new state is AfterSetMinimized (see MinimizeRoundTrip). |
| WindowChrome.Frame.SetMaximized | forge-gui-desktop/src/main/java/forge/view/FFrame.java:449-457 | The new state is AfterSetMaximized (see SetMaximizedMode). |
| WindowChrome.Frame.ToggleHostFullScreen | forge-gui-desktop/src/main/java/forge/view/FFrame.java:502-504 | The host's fullscreen window is toggled. It reports whether anything changed. |
| WindowChrome.Frame.SetFullScreen | forge-gui-desktop/src/main/java/forge/view/FFrame.java:471-515 | The new state is AfterSetFullScreen (see FullScreenKeepsMaximized, MacFullScreenRequestOnly). |
| WindowChrome.Frame.SetWindowLayout | forge-gui-desktop/src/main/java/forge/view/FFrame.java:374-385 | The new state is AfterSetWindowLayout (see LayoutMaximizedFullScreen). |
| WindowChrome.Frame.ResetState | forge-gui-desktop/src/main/java/forge/view/FFrame.java:369-372 | The new state is AfterResetState. |
| WindowChrome.Frame.SetLocation | forge-gui-desktop/src/main/java/forge/view/FFrame.java:354-357 | setLocation(x, y): the new state is AfterSetLocation. |
| WindowChrome.Frame.SetLocationPoint | forge-gui-desktop/src/main/java/forge/view/FFrame.java:349-352 | setLocation(Point): its own reset, then the toolkit's setLocation(Point) dispatches to the frame's setLocation(x, y), which resets again; the new state is AfterSetLocationPoint (see OverloadsAgreeOffMac, PointOverloadRequestsTwice). |
| WindowChrome.Frame.SetSize | forge-gui-desktop/src/main/java/forge/view/FFrame.java:364-367 | setSize(width, height): the new state is AfterSetSize. |
| WindowChrome.Frame.SetSizeDimension | forge-gui-desktop/src/main/java/forge/view/FFrame.java:359-362 | setSize(Dimension): its own reset, then the toolkit's setSize(Dimension) reaches the frame's setSize(width, height), which resets again; the new state is AfterSetSizeDimension. |
| WindowChrome.Frame.UpdateBorder | forge-gui-desktop/src/main/java/forge/view/FFrame.java:524-537 | The new state is AfterUpdateBorder. |
| WindowChrome.Frame.UpdateTitleBar | forge-gui-desktop/src/main/java/forge/view/FFrame.java:320-329 | The new state is AfterUpdateTitleBar (see RelayoutOnlyOnChange). |
| WindowChrome.Frame.SetLockTitleBar | forge-gui-desktop/src/main/java/forge/view/FFrame.java:305-314 | The new state is AfterSetLockTitleBar. |
| WindowChrome.Frame.Pause | forge-gui-desktop/src/main/java/forge/view/FFrame.java:269-280 | The new state is AfterPause (see PauseResume). |
| WindowChrome.Frame.Resume | forge-gui-desktop/src/main/java/forge/view/FFrame.java:282-293 | The new state is AfterResume. |
| WindowChrome.Frame.WindowActivated | forge-gui-desktop/src/main/java/forge/view/FFrame.java:81-83 | Activation resumes. |
| WindowChrome.Frame.WindowDeactivated | forge-gui-desktop/src/main/java/forge/view/FFrame.java:86-95 | The new state is AfterWindowDeactivated (see DeactivationMinimizes). |
| WindowChrome.Frame.WindowStateChanged | forge-gui-desktop/src/main/java/forge/view/FFrame.java:99-109 | Leaving ICONIFIED restores preMinimizeState. Border and title bar are then updated. |
| WindowChrome.Frame.ComponentChanged | forge-gui-desktop/src/main/java/forge/view/FFrame.java:116-139 | The new state is AfterComponentChanged (see ComponentChangedDebounce). |
| WindowChrome.Frame.MacEnteringFullScreen | forge-gui-desktop/src/main/java/forge/view/FFrame.java:180-212 | The bounds are saved, the window covers the screen, the flag is set, and the chrome is updated. |
| WindowChrome.Frame.MacExitingFullScreen | forge-gui-desktop/src/main/java/forge/view/FFrame.java:196-212 | The flag is cleared. The saved bounds are restored, or the normal bounds when none were saved. The chrome is updated (see MacFullScreenRoundTrip). |
| WindowChrome.Frame.MacOtherFullScreenEvent | forge-gui-desktop/src/main/java/forge/view/FFrame.java:177-212 | The new state is AfterUpdateChrome of the old (see MacOtherEventOnlyChrome). |
| WindowChrome.Frame.SetVisible | forge-gui-desktop/src/main/java/forge/view/FFrame.java:241-255 | Visibility is set. A pending macOS fullscreen request is scheduled. |
| WindowChrome.Frame.ScheduledFullScreen | forge-gui-desktop/src/main/java/forge/view/FFrame.java:246-252 | The scheduled task enters fullscreen and clears the pending flag. |
| WindowChrome.Frame.TitleBarPressed | forge-gui-desktop/src/main/java/forge/view/FFrame.java:542-552 | A single click starts a move session. A double click toggles maximized. Nothing happens in fullscreen. |
| WindowChrome.Frame.TitleBarReleased | forge-gui-desktop/src/main/java/forge/view/FFrame.java:554-560 | The move session ends. |
| WindowChrome.Frame.TitleBarDragged | forge-gui-desktop/src/main/java/forge/view/FFrame.java:564-578 | The new state is AfterTitleBarDragged, and the invariant is kept (see TitleBarDragDeadZone). |
| WindowChrome.Frame.ResizePressed | forge-gui-desktop/src/main/java/forge/view/FFrame.java:591-597 | A resize session starts when a resize cursor shows. |
| WindowChrome.Frame.ResizeReleased | forge-gui-desktop/src/main/java/forge/view/FFrame.java:599-606 | The resize session ends and the cursor goes back to the default. |
| WindowChrome.Frame.MouseExited | forge-gui-desktop/src/main/java/forge/view/FFrame.java:608-612 | The cursor goes back to the default unless a drag is going on. |
| WindowChrome.Frame.MouseMoved | forge-gui-desktop/src/main/java/forge/view/FFrame.java:616-651 | The new state is AfterMouseMoved (see HoverSelectsZone). |
| WindowChrome.Frame.ResizeDragged | forge-gui-desktop/src/main/java/forge/view/FFrame.java:654-735 | The bounds become the corrected resize rectangle (see ResizeDragKeepsOppositeEdges). |
| ImageFetcher.Resolve | forge-gui-desktop/src/main/java/forge/ImageFetcher.java:31-79 | The two-character prefix picks the lookup. A key shorter than 2 is rejected, and so is an unknown prefix, both exactly. A card key whose paper card is missing is rejected (CardNotFound). With a known collector number the URL is the scan URL built from the lower-cased set code, the number and the face suffix, the face being chosen by the key ending in "$alt", and the destination is the image file name plus ".jpg". Without one the fallback URL is used, and a missing fallback is rejected (NoDownloadUrl). A result is a token destination exactly for a token key. A token key succeeds exactly when its file name is in the table, and then the URL is the table's entry. |
| ImageFetcher.CardUrlSuffix | forge-gui-desktop/src/main/java/forge/ImageFetcher.java:46-53 | The scan URL ends in ".jpg". The character before it is 'b' exactly for a back face of a two-part card, 'a' exactly for its front face, and a digit exactly for a one-part card. |
| ImageFetcher.CardKeyFace | forge-gui-desktop/src/main/java/forge/ImageFetcher.java:40-53 | For a card key with a collector number, the character before ".jpg" of the resolved URL is 'b' exactly for a two-part card whose key ends in "$alt", 'a' exactly for the other face, and a digit for a one-part card. |
| ImageFetcher.TokenDestInjective | forge-gui-desktop/src/main/java/forge/ImageFetcher.java:69-75 | Distinct token keys have distinct destinations in the model's (directory, file name) destinations. Java's path normalisation can merge some of them; see Left out. |
| ImageFetcher.TableOfHas | forge-gui-desktop/src/main/java/forge/ImageFetcher.java:63-68 | A name is in the token table exactly when some line of the list has it. |
| ImageFetcher.TableOfLast | forge-gui-desktop/src/main/java/forge/ImageFetcher.java:65-67 | The last line with a name decides its URL. |
| ImageFetcher.BuildTokenTable | forge-gui-desktop/src/main/java/forge/ImageFetcher.java:63-68 | The put loop builds exactly TableOf of the list. |
| ImageFetcher.Register | forge-gui-desktop/src/main/java/forge/ImageFetcher.java:84-93 | The destination gets an entry holding its old observers plus the new one. Every other entry is unchanged. |
| ImageFetcher.VisitOnce | forge-gui-desktop/src/main/java/forge/ImageFetcher.java:99-101 | Iterating over the observer set calls each observer exactly once. |
| ImageFetcher.VisitedOncePerObserver | forge-gui-desktop/src/main/java/forge/ImageFetcher.java:99-101 | Each observer is told once, and nobody outside the set is told. |
| ImageFetcher.Fetcher.constructor | forge-gui-desktop/src/main/java/forge/ImageFetcher.java:24-26 | Empty in-flight table, no token table, nothing queued. |
| ImageFetcher.Fetcher.ResolveKey | forge-gui-desktop/src/main/java/forge/ImageFetcher.java:31-79 | The result is Resolve on the token table. The table is built once, on the first token key. |
| ImageFetcher.Fetcher.FetchImage | forge-gui-desktop/src/main/java/forge/ImageFetcher.java:28-127 | A rejected key changes nothing except that a token key builds the token table if it is still missing (also when the token is then not listed). A destination in flight gains the observer. Otherwise a new entry is made and exactly one download is queued. The in-flight invariant is kept. |
| ImageFetcher.Fetcher.RunDownload | forge-gui-desktop/src/main/java/forge/ImageFetcher.java:106-126 | The download leaves the pool. On success the notification is posted. On failure the entry stays. |
| ImageFetcher.Fetcher.NotifyObservers | forge-gui-desktop/src/main/java/forge/ImageFetcher.java:95-104 | Every waiting observer is told once, then the entry is removed. |
| ImageFetcher.SharedDownload | forge-gui-desktop/src/main/java/forge/ImageFetcher.java:84-104 | Two requests for one token share one download, and both observers are told once. |
| ImageFetcher.StaleEntryAfterFailure | forge-gui-desktop/src/main/java/forge/ImageFetcher.java:84-89 | After a failed download a retry joins the stale entry. No new download starts and nobody is told. |

## Left out

- Painting and layout calls are recorded only as `Effect` values in a log. These are the Swing calls: setBorder, the title bar's updateButtons and setVisible, resizeWindow, and saving the preferences.
- The reflection bridge to `com.apple.eawt` is reduced to a `macApiAvailable` parameter; its failure message is not modelled.
- `setMaximizedBounds` on Windows and the host's own reaction to a state change are left out. Each host-side effect the frame relies on is explicit: the extended state, the bounds, and the fullscreen window. The quirk that a fullscreen toggle may also maximize is the `Config.toggleMaximizes` flag.
- The title bar, the skin, `FView` (whether this is the main frame) and the preferences are parameters (`Config`, `lockPref`).
- `System.currentTimeMillis`, the window events and the pointer positions are method parameters. `SwingUtilities.invokeLater`, the delayed task and the thread pool are queues or effects that the caller runs one step at a time.
- Java's int wrap-around is modelled in the dead-zone test, where it matters. Coordinate sums elsewhere use unbounded integers.
- Text.ToLower: lower-cases ASCII letters as the root locale does. Java's no-argument `toLowerCase()` uses the default locale. Under a Turkish or Azerbaijani locale 'I' becomes the dotless 'ı', so "AIX" is classified OTHER in Java but LINUX in the model, and set codes containing 'I' give a different scan URL. Non-ASCII case mapping is not modelled either.
- `%d` is modelled with ASCII digits, whatever the locale.
- ImageFetcher: the download itself, the temporary file and the rename are I/O and are represented only by the success flag of `RunDownload`. The error messages are not modelled.
- ImageFetcher: the card database (`ImageUtil`, `StaticData`, the editions) is a parameter record, `CardDb`.
- ImageFetcher: a null returned by `getCode2ByCode` (a NullPointerException in the source) is not modelled; the parameter always returns a code.
- ImageFetcher: the `ImageKeys` constants and the cache directories are not among the modelled files. The prefixes are "c:" and "t:" and the back-face suffix is "$alt", as Forge defines them.
- ImageFetcher: a destination is a directory tag plus the file name string, not an absolute path. `java.io.File` normalises separators, so token keys such as "t:a//b" and "t:a/b" share one absolute path, and one in-flight entry, in Java. The model gives them distinct entries; `TokenDestInjective` holds for the model's destinations only.
- ImageFetcher: a key shorter than two characters makes `substring(0, 2)` throw before any state changes. It is modelled as the rejection `KeyTooShort`.
- WindowChrome.AfterResizeDragged: if a resize drag arrives while the session has no size (sizeBeforeResize null), the source throws a NullPointerException. The model leaves the state unchanged instead.
- WindowChrome.Frame.ResizeDragged: uses the corrected clamp (see Findings). `WindowGeometry.ResizeDragAsWritten` models the source's arithmetic.
- The `Point` and `Dimension` overloads of setLocation and setSize reset the state twice, because the toolkit's versions call the frame's own int overloads. The model keeps both resets (`SetLocationPoint`, `SetSizeDimension`). Under native macOS fullscreen that sends two toggle requests (`PointOverloadRequestsTwice`); what the platform does with the second request is not modelled.
- `isMainFrame` is a constant of the frame (`Config`), because it is set once in initialize and never changed.
- `FFrame.java` line 115 describes the debounce as trailing. The code is a leading debounce (the first event after a quiet period updates; the last of a burst does not). The model follows the code (`BurstUpdatesOnlyAtStart`).
- A failed download leaves its entry in the in-flight table, so later requests for that image join it and are never told. The model follows the code (`StaleEntryAfterFailure`).

## Findings

| source | as written | input that shows it | evidently intended | confidence | as-written member | corrected member |
|---|---|---|---|---|---|---|
| forge-gui-desktop/src/main/java/forge/view/FFrame.java:702-705, 710-713 | When the dragged size exceeds the maximum, the overshoot is subtracted from the pointer delta (`dx -= width - max`). The delta should be corrected the other way, as the minimum branch does. | West edge of a window at x=0, 100 wide, maximum width 100, dragged 10 px left. The width stays 100, but x becomes -20, so the right edge jumps from 100 to 80. | The edge opposite the dragged one stays put: x = 0. | medium, not executed | WindowGeometry.ResizeDragAsWritten, WindowGeometry.WestDragPastMaximum | WindowGeometry.ResizeDrag |
