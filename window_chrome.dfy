/**
 * The window-state bookkeeping of the custom-decorated application window
 * (forge.view.FFrame): minimize / maximize / fullscreen transitions over the
 * extended-state bit mask, the saved normal bounds, the cached border and
 * title-bar visibility, pause and resume on focus changes, the debounced
 * geometry listener, the macOS fullscreen events and the title-bar and
 * edge-drag pointer handlers.
 *
 * The host window (the toolkit's frame) is represented by the fields
 * extendedState, bounds, hostFullScreen and visible; calls into the toolkit
 * whose only effect is visual are recorded in an effect log.
 *
 * Each transition is first given as a pure function on a WindowState snapshot
 * (the After* functions); the Frame class then implements it imperatively and
 * its methods are proved to produce exactly that snapshot.
 */
module WindowChrome {
  import opened Wrappers
  import opened WindowGeometry
  import OSUtil

  // ---------------------------------------------------------------------------
  // Frame.getExtendedState

  /**
   * The host's extended state, by its three defined bits: ICONIFIED (1),
   * MAXIMIZED_HORIZ (2) and MAXIMIZED_VERT (4); MAXIMIZED_BOTH is the last two.
   */
  datatype ExtendedState = ExtendedState(iconified: bool, maximizedHoriz: bool, maximizedVert: bool)

  const NORMAL := ExtendedState(false, false, false)

  /** The integer the host reports for a state. */
  function Bits(e: ExtendedState): (n: int)
    ensures 0 <= n < 8
    ensures e.iconified <==> n % 2 == 1
    ensures e == NORMAL <==> n == 0
  {
    (if e.iconified then 1 else 0) + (if e.maximizedHoriz then 2 else 0) + (if e.maximizedVert then 4 else 0)
  }

  /** Distinct states report distinct integers, so the record is a faithful stand-in for the bit mask. */
  lemma BitsInjective(a: ExtendedState, b: ExtendedState)
    ensures Bits(a) == Bits(b) ==> a == b
  {
  }

  /** (state & ICONIFIED) == ICONIFIED */
  predicate IsIconified(state: ExtendedState) {
    state.iconified
  }

  /** (state & MAXIMIZED_BOTH) == MAXIMIZED_BOTH */
  predicate IsMaximizedBoth(state: ExtendedState) {
    state.maximizedHoriz && state.maximizedVert
  }

  /** state | MAXIMIZED_BOTH when on, state & ~MAXIMIZED_BOTH otherwise. */
  function WithMaximized(state: ExtendedState, on: bool): (r: ExtendedState)
    ensures IsMaximizedBoth(r) == on
    ensures r.iconified == state.iconified
    ensures Bits(r) == (Bits(state) % 2) + (if on then 6 else 0)
  {
    state.(maximizedHoriz := on, maximizedVert := on)
  }

  /** state | ICONIFIED */
  function WithIconified(state: ExtendedState): (r: ExtendedState)
    ensures IsIconified(r)
    ensures Bits(r) == Bits(state) - Bits(state) % 2 + 1
    ensures IsMaximizedBoth(r) == IsMaximizedBoth(state)
  {
    state.(iconified := true)
  }

  /** A half-maximized window is neither maximized nor normal: the two tests are not complementary. */
  lemma HalfMaximizedIsNotNormal()
    ensures var half := ExtendedState(false, true, false);
      Bits(half) == 2 && !IsIconified(half) && !IsMaximizedBoth(half) && half != NORMAL
  {
  }


  // ---------------------------------------------------------------------------
  // Snapshot of the frame

  /** What the frame does to the outside world, in order. */
  datatype Effect =
    | BorderSet(shown: bool)          // setBorder(null) or setBorder(<skin border>)
    | ButtonsUpdated                  // titleBar.updateButtons()
    | TitleBarSet(shown: bool)        // titleBar.setVisible(...)
    | Relayout                        // SResizingUtil.resizeWindow()
    | LockSaved(lock: bool)           // UI_LOCK_TITLE_BAR preference set and saved
    | SoundPaused | MatchesPaused     // SoundSystem.pause(), HostedMatch.pause() for every match
    | SoundResumed | MatchesResumed
    | MacToggleRequested              // Application.requestToggleFullScreen(this)
    | FullScreenScheduled             // delayed setFullScreen(true) after the window is shown

  /** What does not change over the frame's life: its role and the host's behaviour. */
  datatype Config = Config(
    isMainFrame: bool,
    /** The graphics device supports a fullscreen window. */
    fullScreenSupported: bool,
    /** An effective fullscreen toggle also sets MAXIMIZED_BOTH on the host. */
    toggleMaximizes: bool,
    minSize: Size,
    maxSize: Size)

  /** The toolkit window under the frame. */
  datatype Host = Host(extendedState: ExtendedState, bounds: Rect, fullScreen: bool, visible: bool)

  /** The cached decoration state. */
  datatype Chrome = Chrome(hideBorder: bool, hideTitleBar: bool, lockTitleBar: bool)

  /** The native macOS fullscreen bookkeeping; flag is None when that mechanism is not in use. */
  datatype MacFullScreen = MacFullScreen(flag: Option<bool>, pending: bool, preFullScreenBounds: Option<Rect>)

  /** The state shared by the title-bar move and the border resize handlers. */
  datatype DragSession = DragSession(
    locBeforeMove: Option<Point>,
    sizeBeforeResize: Option<Size>,
    mouseDownLoc: Option<Point>,
    moveInProgress: bool,
    resizeCursor: Cursor)

  /** Every field of the frame, plus the host window's state. */
  datatype WindowState = WindowState(
    host: Host,
    preMinimizeState: ExtendedState,
    normalBounds: Option<Rect>,
    chrome: Chrome,
    paused: bool,
    mac: MacFullScreen,
    drag: DragSession,
    lastCalled: int,
    effects: seq<Effect>)
  {
    predicate Minimized() { IsIconified(host.extendedState) }
    predicate Maximized() { IsMaximizedBoth(host.extendedState) }

    /** isFullScreen: the tracked macOS flag when there is one, the host's answer otherwise. */
    predicate FullScreen() {
      if mac.flag.Some? then mac.flag.value else host.fullScreen
    }

    /** macosFullScreenRules: the native macOS fullscreen is in use. */
    predicate MacosRules() { mac.flag.Some? }

    /** isNormal: no state bit set and not fullscreen. */
    predicate Normal() { host.extendedState == NORMAL && !FullScreen() }

    /** A drag session always knows where the window was; the macOS fields are used only with native fullscreen. */
    predicate Valid() {
      && (drag.mouseDownLoc.Some? ==> drag.locBeforeMove.Some?)
      && (mac.pending ==> mac.flag.Some?)
      && (mac.preFullScreenBounds.Some? ==> mac.flag.Some?)
    }

    function Location(): Point { Point(host.bounds.x, host.bounds.y) }
    function Dimensions(): Size { Size(host.bounds.width, host.bounds.height) }

    function WithState(state: ExtendedState): WindowState { this.(host := host.(extendedState := state)) }
    function WithBounds(r: Rect): WindowState { this.(host := host.(bounds := r)) }
    function Log(more: seq<Effect>): WindowState { this.(effects := effects + more) }
  }

  /** r differs from s at most in the border and title-bar flags and in the log. */
  predicate OnlyChromeChanged(s: WindowState, r: WindowState) {
    r == s.(chrome := r.chrome, effects := r.effects) && r.chrome.lockTitleBar == s.chrome.lockTitleBar
  }

  /** The state after construction and initialize(titleBar). */
  function Initial(cfg: Config, bounds: Rect, lockPref: bool, os: OSUtil.OS, macApiAvailable: bool): (s: WindowState)
    ensures s.Valid() && s.Normal() && s.chrome.hideBorder && s.chrome.hideTitleBar
    ensures s.MacosRules() <==> os == OSUtil.MacOS && macApiAvailable
    ensures s.chrome.lockTitleBar <==> cfg.isMainFrame && lockPref
  {
    WindowState(
      Host(NORMAL, bounds, false, false), NORMAL, None,
      Chrome(true, true, cfg.isMainFrame && lockPref), false,
      MacFullScreen(if os == OSUtil.MacOS && macApiAvailable then Some(false) else None, false, None),
      DragSession(None, None, None, false, Default), 0, [])
  }

  // ---------------------------------------------------------------------------
  // Transitions as functions on the snapshot

  /** applyNormalBounds: the saved normal bounds, if any, become the bounds. */
  function AfterApplyNormalBounds(s: WindowState): WindowState {
    if s.normalBounds.Some? then s.WithBounds(s.normalBounds.value) else s
  }

  /** setNormalBounds: always recorded, applied only when neither maximized nor fullscreen. */
  function AfterSetNormalBounds(s: WindowState, r: Rect): WindowState {
    var s1 := s.(normalBounds := Some(r));
    if !s.Maximized() && !s.FullScreen() then AfterApplyNormalBounds(s1) else s1
  }

  /** updateNormalBounds: the current bounds are recorded while the window is normal. */
  function AfterUpdateNormalBounds(s: WindowState): WindowState {
    if s.Normal() then s.(normalBounds := Some(s.host.bounds)) else s
  }

  /** setMinimized: no-op when already in that state; the pre-minimize state is saved and restored. */
  function AfterSetMinimized(s: WindowState, minimized: bool): WindowState {
    if minimized == s.Minimized() then s
    else if minimized then s.(preMinimizeState := s.host.extendedState).WithState(WithIconified(s.host.extendedState))
    else s.WithState(s.preMinimizeState)
  }

  /** setMaximized: set or clear MAXIMIZED_BOTH; un-maximizing also applies the normal bounds. */
  function AfterSetMaximized(s: WindowState, maximized: bool): WindowState {
    if maximized then s.WithState(WithMaximized(s.host.extendedState, true))
    else AfterApplyNormalBounds(s.WithState(WithMaximized(s.host.extendedState, false)))
  }

  /** The host changes its fullscreen window only when supported and not already in that mode. */
  predicate HostToggleChanges(cfg: Config, s: WindowState, fullScreen: bool) {
    cfg.fullScreenSupported && s.host.fullScreen != fullScreen
  }

  /** SDisplayUtil.setFullScreenWindow as seen by the frame. */
  function AfterHostToggle(cfg: Config, s: WindowState, fullScreen: bool): WindowState {
    if HostToggleChanges(cfg, s, fullScreen) then
      s.(host := s.host.(fullScreen := fullScreen,
                         extendedState := if cfg.toggleMaximizes then WithMaximized(s.host.extendedState, true)
                                          else s.host.extendedState))
    else s
  }

  /**
   * setFullScreen. With native macOS fullscreen: nothing if already there, a
   * pending request while the window is hidden, a toggle request otherwise (the
   * flag itself changes on the platform's event). Otherwise: toggle the host and,
   * if that changed anything, put the maximized flag back as it was and, when
   * leaving fullscreen, apply the normal bounds.
   */
  function AfterSetFullScreen(cfg: Config, s: WindowState, fullScreen: bool): (r: WindowState)
    ensures s.Valid() ==> r.Valid()
    ensures r.drag == s.drag && r.paused == s.paused && r.chrome == s.chrome && r.normalBounds == s.normalBounds
    ensures r.mac.flag == s.mac.flag && r.host.visible == s.host.visible
  {
    if s.mac.flag.Some? then
      if s.mac.flag.value == fullScreen then s
      else if !s.host.visible && fullScreen then s.(mac := s.mac.(pending := true))
      else s.Log([MacToggleRequested])
    else if HostToggleChanges(cfg, s, fullScreen) then
      (var s1 := AfterSetMaximized(AfterHostToggle(cfg, s, fullScreen), s.Maximized());
       if !fullScreen then AfterApplyNormalBounds(s1) else s1)
    else s
  }

  /** setWindowLayout: normal bounds first, then maximized, then fullscreen. */
  function AfterSetWindowLayout(cfg: Config, s: WindowState, x: int, y: int, width: int, height: int,
                                maximized: bool, fullScreen: bool): WindowState {
    AfterSetFullScreen(cfg, AfterSetMaximized(AfterSetNormalBounds(s, Rect(x, y, width, height)), maximized), fullScreen)
  }

  /** resetState: back to NORMAL and out of fullscreen. */
  function AfterResetState(cfg: Config, s: WindowState): (r: WindowState)
    ensures r.host.extendedState == NORMAL
    ensures s.Valid() ==> r.Valid()
    ensures r.drag == s.drag
  {
    AfterSetFullScreen(cfg, s.WithState(NORMAL), false)
  }

  /** setLocation(x, y): un-maximizes, requests leaving fullscreen, then moves. */
  function AfterSetLocation(cfg: Config, s: WindowState, p: Point): (r: WindowState)
    ensures r.Location() == p && r.host.extendedState == NORMAL
    ensures s.Valid() ==> r.Valid()
    ensures r.drag == s.drag
  {
    var s1 := AfterResetState(cfg, s);
    s1.WithBounds(s1.host.bounds.(x := p.x, y := p.y))
  }

  /** setSize(width, height): un-maximizes, requests leaving fullscreen, then resizes. */
  function AfterSetSize(cfg: Config, s: WindowState, size: Size): (r: WindowState)
    ensures r.Dimensions() == size && r.host.extendedState == NORMAL
    ensures s.Valid() ==> r.Valid()
  {
    var s1 := AfterResetState(cfg, s);
    s1.WithBounds(s1.host.bounds.(width := size.width, height := size.height))
  }

  /**
   * setLocation(Point): resets, then the toolkit's setLocation(Point) calls the
   * frame's own setLocation(x, y), which resets a second time.
   */
  function AfterSetLocationPoint(cfg: Config, s: WindowState, p: Point): WindowState {
    AfterSetLocation(cfg, AfterResetState(cfg, s), p)
  }

  /** setSize(Dimension): likewise reaches the frame's setSize(width, height) after its own reset. */
  function AfterSetSizeDimension(cfg: Config, s: WindowState, size: Size): WindowState {
    AfterSetSize(cfg, AfterResetState(cfg, s), size)
  }

  /**
   * updateBorder: skipped while minimized; otherwise the border ends up hidden
   * exactly when maximized or fullscreen, and is set only when that changes it.
   */
  function AfterUpdateBorder(s: WindowState): (r: WindowState)
    ensures OnlyChromeChanged(s, r) && r.chrome.hideTitleBar == s.chrome.hideTitleBar
    ensures s.Minimized() ==> r == s
    ensures !s.Minimized() ==> r.chrome.hideBorder == (s.Maximized() || s.FullScreen())
    ensures r.effects == s.effects + (if r.chrome.hideBorder != s.chrome.hideBorder then [BorderSet(!r.chrome.hideBorder)] else [])
  {
    if s.Minimized() || s.chrome.hideBorder == (s.Maximized() || s.FullScreen()) then s
    else s.(chrome := s.chrome.(hideBorder := !s.chrome.hideBorder)).Log([BorderSet(s.chrome.hideBorder)])
  }

  /** Whether updateTitleBar hides the title bar. */
  predicate ShouldHideTitleBar(s: WindowState) {
    !s.MacosRules() && s.FullScreen() && !s.chrome.lockTitleBar
  }

  /** updateTitleBar: buttons refreshed; visibility and layout touched only on a change. */
  function AfterUpdateTitleBar(cfg: Config, s: WindowState): (r: WindowState)
    ensures OnlyChromeChanged(s, r) && r.chrome.hideBorder == s.chrome.hideBorder
    ensures r.chrome.hideTitleBar == ShouldHideTitleBar(s)
    ensures r.effects == s.effects + [ButtonsUpdated] +
      (if r.chrome.hideTitleBar != s.chrome.hideTitleBar
       then [TitleBarSet(!r.chrome.hideTitleBar)] + (if cfg.isMainFrame then [Relayout] else [])
       else [])
  {
    var s1 := s.Log([ButtonsUpdated]);
    var shouldHide := ShouldHideTitleBar(s);
    if s.chrome.hideTitleBar == shouldHide then s1
    else s1.(chrome := s1.chrome.(hideTitleBar := shouldHide))
           .Log([TitleBarSet(!shouldHide)] + (if cfg.isMainFrame then [Relayout] else []))
  }

  /** updateBorder(); updateTitleBar(); as every listener does. */
  function AfterUpdateChrome(cfg: Config, s: WindowState): (r: WindowState)
    ensures OnlyChromeChanged(s, r)
    ensures !s.Minimized() ==> r.chrome.hideBorder == (s.Maximized() || s.FullScreen())
    ensures s.Minimized() ==> r.chrome.hideBorder == s.chrome.hideBorder
    ensures r.chrome.hideTitleBar == ShouldHideTitleBar(s)
  {
    AfterUpdateTitleBar(cfg, AfterUpdateBorder(s))
  }

  /** setLockTitleBar: no-op when unchanged; the main frame saves the preference. */
  function AfterSetLockTitleBar(cfg: Config, s: WindowState, lock: bool): (r: WindowState)
    ensures r.chrome.lockTitleBar == lock
    ensures r.chrome.hideTitleBar == if s.chrome.lockTitleBar == lock then s.chrome.hideTitleBar
                                     else !s.MacosRules() && s.FullScreen() && !lock
    ensures r.host == s.host && r.mac == s.mac && r.drag == s.drag
  {
    if s.chrome.lockTitleBar == lock then s
    else AfterUpdateTitleBar(cfg, s.(chrome := s.chrome.(lockTitleBar := lock))
                                   .Log(if cfg.isMainFrame then [LockSaved(lock)] else []))
  }

  /** pause: only the main frame, only once. */
  function AfterPause(cfg: Config, s: WindowState): WindowState {
    if s.paused || !cfg.isMainFrame then s
    else s.(paused := true).Log([SoundPaused, MatchesPaused])
  }

  /** resume: only the main frame, only when paused. */
  function AfterResume(cfg: Config, s: WindowState): WindowState {
    if !s.paused || !cfg.isMainFrame then s
    else s.(paused := false).Log([SoundResumed, MatchesResumed])
  }

  /** windowDeactivated: losing focus to another application pauses and minimizes a non-macOS fullscreen window. */
  function AfterWindowDeactivated(cfg: Config, s: WindowState, toOtherApplication: bool): WindowState {
    if !toOtherApplication then s
    else
      var s1 := AfterPause(cfg, s);
      if s1.FullScreen() && !s1.MacosRules() then AfterSetMinimized(s1, true) else s1
  }

  /** The window-state listener: leaving the iconified state restores the pre-minimize state. */
  function AfterWindowStateChanged(cfg: Config, s: WindowState, oldState: ExtendedState, newState: ExtendedState): WindowState {
    var s1 := if IsIconified(oldState) && !IsIconified(newState) then s.WithState(s.preMinimizeState) else s;
    AfterUpdateChrome(cfg, s1)
  }

  const DEBOUNCE_INTERVAL_MS: int := 750

  /** The geometry listener runs its update when more than the interval has passed since the previous event. */
  predicate DebounceFires(lastCalled: int, callTime: int) {
    callTime - lastCalled > DEBOUNCE_INTERVAL_MS
  }

  /** componentMoved / componentResized at time callTime. */
  function AfterComponentChanged(cfg: Config, s: WindowState, callTime: int): WindowState {
    var s1 := if DebounceFires(s.lastCalled, callTime) then AfterUpdateChrome(cfg, s) else s;
    s1.(lastCalled := callTime)
  }

  /** windowEnteringFullScreen: the bounds are saved and the window covers the screen. */
  function AfterMacEnteringFullScreen(cfg: Config, s: WindowState, screen: Rect): WindowState {
    AfterUpdateChrome(cfg, s.(mac := s.mac.(flag := Some(true), preFullScreenBounds := Some(s.host.bounds)))
                            .WithBounds(screen))
  }

  /** windowExitingFullScreen: the saved bounds come back (the normal bounds if none were saved). */
  function AfterMacExitingFullScreen(cfg: Config, s: WindowState): WindowState {
    var s1 := s.(mac := s.mac.(flag := Some(false)));
    var s2 := if s1.mac.preFullScreenBounds.Some? then
        s1.(mac := s1.mac.(preFullScreenBounds := None)).WithBounds(s1.mac.preFullScreenBounds.value)
      else AfterApplyNormalBounds(s1);
    AfterUpdateChrome(cfg, s2)
  }

  /** setVisible: a pending macOS fullscreen request is scheduled once the window is shown. */
  function AfterSetVisible(s: WindowState, visible: bool): WindowState {
    s.(host := s.host.(visible := visible)).Log(if s.mac.pending then [FullScreenScheduled] else [])
  }

  /** The scheduled task: setFullScreen(true), then the pending flag is cleared. */
  function AfterScheduledFullScreen(cfg: Config, s: WindowState): WindowState {
    var r := AfterSetFullScreen(cfg, s, true);
    r.(mac := r.mac.(pending := false))
  }

  /** Title bar pressed: a single click starts a move, a double click toggles maximized; nothing in fullscreen. */
  function AfterTitleBarPressed(s: WindowState, at: Point, leftButton: bool, clickCount: int): WindowState {
    if !leftButton || s.FullScreen() then s
    else if clickCount == 1 then s.(drag := s.drag.(locBeforeMove := Some(s.Location()), mouseDownLoc := Some(at)))
    else AfterSetMaximized(s, !s.Maximized())
  }

  /** Title bar released: the move session ends. */
  function AfterTitleBarReleased(s: WindowState, leftButton: bool): WindowState {
    if leftButton then s.(drag := s.drag.(locBeforeMove := None, mouseDownLoc := None, moveInProgress := false))
    else s
  }

  /**
   * Title bar dragged: a maximized window does not start moving while the
   * pointer is inside the dead zone; otherwise the move starts (or goes on) and
   * the window goes to its location before the move plus the pointer delta.
   */
  function AfterTitleBarDragged(cfg: Config, s: WindowState, at: Point): WindowState
    requires s.Valid()
  {
    if s.drag.mouseDownLoc.None? then s
    else
      var dx := at.x - s.drag.mouseDownLoc.value.x;
      var dy := at.y - s.drag.mouseDownLoc.value.y;
      if !s.drag.moveInProgress && s.Maximized() && InDeadZone(dx, dy) then s
      else AfterSetLocation(cfg, s.(drag := s.drag.(moveInProgress := true)),
                            Point(s.drag.locBeforeMove.value.x + dx, s.drag.locBeforeMove.value.y + dy))
  }

  /** Border pressed with a resize cursor showing: a resize session starts. */
  function AfterResizePressed(s: WindowState, at: Point, leftButton: bool): WindowState {
    if s.drag.resizeCursor != Default && leftButton then
      s.(drag := s.drag.(locBeforeMove := Some(s.Location()), sizeBeforeResize := Some(s.Dimensions()),
                         mouseDownLoc := Some(at)))
    else s
  }

  /** Border released: the resize session ends and the cursor goes back to the default. */
  function AfterResizeReleased(s: WindowState, leftButton: bool): WindowState {
    if leftButton then
      s.(drag := s.drag.(locBeforeMove := None, sizeBeforeResize := None, mouseDownLoc := None, resizeCursor := Default))
    else s
  }

  /** Pointer left the window: the default cursor, unless a drag is going on. */
  function AfterMouseExited(s: WindowState): WindowState {
    if s.drag.mouseDownLoc.None? then s.(drag := s.drag.(resizeCursor := Default)) else s
  }

  /** Pointer moved: the cursor follows the zone under it, unless dragging or maximized. */
  function AfterMouseMoved(s: WindowState, at: Point): WindowState {
    if s.drag.mouseDownLoc.None? && !s.Maximized() then
      s.(drag := s.drag.(resizeCursor := CursorZone(at.x, at.y, s.host.bounds.width, s.host.bounds.height)))
    else s
  }

  /** Border dragged: the bounds become the resized rectangle for the session's cursor and the pointer delta. */
  function AfterResizeDragged(cfg: Config, s: WindowState, at: Point): WindowState {
    if s.drag.mouseDownLoc.None? || s.drag.locBeforeMove.None? || s.drag.sizeBeforeResize.None? then s
    else s.WithBounds(ResizedBounds(s.drag.resizeCursor, s.drag.locBeforeMove.value, s.drag.sizeBeforeResize.value,
                                    at.x - s.drag.mouseDownLoc.value.x, at.y - s.drag.mouseDownLoc.value.y,
                                    cfg.minSize, cfg.maxSize))
  }

  // ---------------------------------------------------------------------------
  // Properties of the transitions

  /** Minimizing and then restoring gives back the exact extended state. */
  lemma MinimizeRoundTrip(s: WindowState)
    requires !s.Minimized()
    ensures AfterSetMinimized(AfterSetMinimized(s, true), false) == s.(preMinimizeState := s.host.extendedState)
  {
  }

  /** setMinimized with the window already in the requested state changes nothing. */
  lemma MinimizedNoOp(s: WindowState, minimized: bool)
    requires minimized == s.Minimized()
    ensures AfterSetMinimized(s, minimized) == s
  {
  }

  /**
   * Restoring a window that was already minimized brings back the last saved
   * state, not the current one: the save happens only on an effective minimize.
   */
  lemma RestoreUsesLastSave(s: WindowState)
    requires s.Minimized()
    ensures AfterSetMinimized(AfterSetMinimized(s, true), false).host.extendedState == s.preMinimizeState
  {
  }

  /** setMaximized decides the maximized flag and nothing else about the mode. */
  lemma SetMaximizedMode(s: WindowState, maximized: bool)
    ensures var r := AfterSetMaximized(s, maximized);
      && r.Maximized() == maximized
      && r.Minimized() == s.Minimized()
      && r.host.fullScreen == s.host.fullScreen && r.mac == s.mac
      && r.FullScreen() == s.FullScreen()
      && r.normalBounds == s.normalBounds
      && r.host.bounds == (if !maximized && s.normalBounds.Some? then s.normalBounds.value else s.host.bounds)
  {
  }

  /** Maximizing and then un-maximizing leaves the other bits alone and brings back the normal bounds. */
  lemma MaximizeUnmaximize(s: WindowState)
    ensures var u := AfterSetMaximized(AfterSetMaximized(s, true), false);
      && !u.Maximized() && u.Minimized() == s.Minimized()
      && u.host.bounds == (if s.normalBounds.Some? then s.normalBounds.value else s.host.bounds)
  {
    SetMaximizedMode(s, true);
    SetMaximizedMode(AfterSetMaximized(s, true), false);
  }

  /** setNormalBounds always records; it moves the window only when neither maximized nor fullscreen. */
  lemma NormalBoundsDeferred(s: WindowState, r: Rect)
    ensures var n := AfterSetNormalBounds(s, r);
      && n.normalBounds == Some(r)
      && n.host.bounds == (if s.Maximized() || s.FullScreen() then s.host.bounds else r)
      && n.host.extendedState == s.host.extendedState && n.host.fullScreen == s.host.fullScreen && n.mac == s.mac
  {
  }

  /** A normal window that records its bounds and then applies them keeps them. */
  lemma UpdateThenApply(s: WindowState)
    requires s.Normal()
    ensures AfterApplyNormalBounds(AfterUpdateNormalBounds(s)) == s.(normalBounds := Some(s.host.bounds))
  {
  }

  /**
   * Without native macOS fullscreen, setFullScreen never changes the maximized
   * flag, even on hosts whose toggle sets it; when it takes effect the host is in
   * the requested mode, and leaving fullscreen brings back the normal bounds.
   */
  lemma FullScreenKeepsMaximized(cfg: Config, s: WindowState, fullScreen: bool)
    requires !s.MacosRules()
    ensures var r := AfterSetFullScreen(cfg, s, fullScreen);
      && r.Maximized() == s.Maximized()
      && (HostToggleChanges(cfg, s, fullScreen) ==> r.FullScreen() == fullScreen)
      && (!HostToggleChanges(cfg, s, fullScreen) ==> r == s)
      && (HostToggleChanges(cfg, s, fullScreen) && !fullScreen && s.normalBounds.Some? ==>
            r.host.bounds == s.normalBounds.value)
  {
    if HostToggleChanges(cfg, s, fullScreen) {
      SetMaximizedMode(AfterHostToggle(cfg, s, fullScreen), s.Maximized());
    }
  }

  /**
   * setWindowLayout(..., true, true) on a windowed host gives a window that is
   * both maximized and fullscreen, and leaving fullscreen afterwards leaves it
   * maximized: maximized is applied before fullscreen.
   */
  lemma LayoutMaximizedFullScreen(cfg: Config, s: WindowState, x: int, y: int, width: int, height: int)
    requires !s.MacosRules() && cfg.fullScreenSupported && !s.host.fullScreen
    ensures var l := AfterSetWindowLayout(cfg, s, x, y, width, height, true, true);
      && l.Maximized() && l.FullScreen()
      && l.normalBounds == Some(Rect(x, y, width, height))
      && AfterSetFullScreen(cfg, l, false).Maximized()
      && !AfterSetFullScreen(cfg, l, false).FullScreen()
  {
    var n := AfterSetNormalBounds(s, Rect(x, y, width, height));
    NormalBoundsDeferred(s, Rect(x, y, width, height));
    var m := AfterSetMaximized(n, true);
    SetMaximizedMode(n, true);
    FullScreenKeepsMaximized(cfg, m, true);
    var l := AfterSetFullScreen(cfg, m, true);
    FullScreenKeepsMaximized(cfg, l, false);
  }

  /** With native macOS fullscreen, setFullScreen only ever requests; the flag and the geometry stay as they are. */
  lemma MacFullScreenRequestOnly(cfg: Config, s: WindowState, fullScreen: bool)
    requires s.MacosRules()
    ensures var r := AfterSetFullScreen(cfg, s, fullScreen);
      && r.host == s.host
      && (s.mac.flag.value != fullScreen && (s.host.visible || !fullScreen) ==>
            r.effects == s.effects + [MacToggleRequested])
      && (s.mac.flag.value != fullScreen && !s.host.visible && fullScreen ==> r.mac.pending)
  {
  }

  /** Entering and then exiting macOS fullscreen puts the window back where it was. */
  lemma MacFullScreenRoundTrip(cfg: Config, s: WindowState, screen: Rect)
    ensures var r := AfterMacExitingFullScreen(cfg, AfterMacEnteringFullScreen(cfg, s, screen));
      && r.host == s.host && r.mac.preFullScreenBounds.None? && r.mac.flag == Some(false)
  {
    var e := AfterMacEnteringFullScreen(cfg, s, screen);
    assert e.mac.preFullScreenBounds == Some(s.host.bounds) && e.host == s.host.(bounds := screen);
  }

  /** After updateTitleBar the main frame is re-laid out exactly when the title bar's visibility changed. */
  lemma RelayoutOnlyOnChange(cfg: Config, s: WindowState)
    ensures var r := AfterUpdateTitleBar(cfg, s);
      Relayout in r.effects[|s.effects|..] <==> cfg.isMainFrame && r.chrome.hideTitleBar != s.chrome.hideTitleBar
  {
    var r := AfterUpdateTitleBar(cfg, s);
    if r.chrome.hideTitleBar == s.chrome.hideTitleBar {
      assert r.effects[|s.effects|..] == [ButtonsUpdated];
    } else {
      assert r.effects[|s.effects|..] == [ButtonsUpdated, TitleBarSet(!r.chrome.hideTitleBar)] +
        (if cfg.isMainFrame then [Relayout] else []);
    }
  }

  /** The first border update of a freshly initialized, windowed frame shows the border. */
  lemma FirstUpdateShowsBorder(cfg: Config, bounds: Rect, lockPref: bool, os: OSUtil.OS, macApiAvailable: bool)
    ensures var r := AfterUpdateBorder(Initial(cfg, bounds, lockPref, os, macApiAvailable));
      !r.chrome.hideBorder && r.effects == [BorderSet(true)]
  {
  }

  /** Pausing twice is pausing once, and resuming undoes the flag. */
  lemma PauseResume(cfg: Config, s: WindowState)
    requires cfg.isMainFrame && !s.paused
    ensures AfterPause(cfg, AfterPause(cfg, s)) == AfterPause(cfg, s)
    ensures AfterResume(cfg, AfterPause(cfg, s)) ==
      s.(effects := s.effects + [SoundPaused, MatchesPaused, SoundResumed, MatchesResumed])
  {
  }

  /** Losing focus to another application minimizes a fullscreen window, except under macOS rules. */
  lemma DeactivationMinimizes(cfg: Config, s: WindowState)
    ensures var r := AfterWindowDeactivated(cfg, s, true);
      && (s.FullScreen() && !s.MacosRules() ==> r.Minimized())
      && (s.MacosRules() ==> r.host == s.host)
      && (cfg.isMainFrame ==> r.paused)
  {
  }

  /**
   * A title-bar drag of a maximized window that has not started moving stays
   * put while the pointer is inside the dead zone; any other drag moves the
   * window to its location before the move plus the delta, un-maximized.
   */
  lemma TitleBarDragDeadZone(cfg: Config, s: WindowState, at: Point)
    requires s.Valid() && s.drag.mouseDownLoc.Some?
    ensures var dx := at.x - s.drag.mouseDownLoc.value.x;
      var dy := at.y - s.drag.mouseDownLoc.value.y;
      var r := AfterTitleBarDragged(cfg, s, at);
      && ((!s.drag.moveInProgress && s.Maximized() && -32767 <= dx <= 32767 && -32767 <= dy <= 32767 &&
           dx * dx + dy * dy < 25) ==> r == s)
      && ((s.drag.moveInProgress || !s.Maximized() || !InDeadZone(dx, dy)) ==>
            && r.drag.moveInProgress
            && r.Location() == Point(s.drag.locBeforeMove.value.x + dx, s.drag.locBeforeMove.value.y + dy)
            && r.host.extendedState == NORMAL)
  {
    var dx := at.x - s.drag.mouseDownLoc.value.x;
    var dy := at.y - s.drag.mouseDownLoc.value.y;
    if -32767 <= dx <= 32767 && -32767 <= dy <= 32767 {
      DeadZoneExact(dx, dy);
    }
  }

  /** An edge drag keeps the size within the limits and the undragged edges in place. */
  lemma ResizeDragKeepsOppositeEdges(cfg: Config, s: WindowState, at: Point)
    requires s.drag.mouseDownLoc.Some? && s.drag.locBeforeMove.Some? && s.drag.sizeBeforeResize.Some?
    requires cfg.minSize.width <= cfg.maxSize.width && cfg.minSize.height <= cfg.maxSize.height
    ensures var r := AfterResizeDragged(cfg, s, at).host.bounds;
      var before := s.drag.locBeforeMove.value;
      var size := s.drag.sizeBeforeResize.value;
      && cfg.minSize.width <= r.width <= cfg.maxSize.width
      && cfg.minSize.height <= r.height <= cfg.maxSize.height
      && (IsWestward(s.drag.resizeCursor) ==> r.x + r.width == before.x + size.width)
      && (!IsWestward(s.drag.resizeCursor) ==> r.x == before.x)
      && (IsNorthward(s.drag.resizeCursor) ==> r.y + r.height == before.y + size.height)
      && (!IsNorthward(s.drag.resizeCursor) ==> r.y == before.y)
  {
    var dx := at.x - s.drag.mouseDownLoc.value.x;
    var dy := at.y - s.drag.mouseDownLoc.value.y;
    ResizedWithinLimits(s.drag.resizeCursor, s.drag.locBeforeMove.value, s.drag.sizeBeforeResize.value,
                        dx, dy, cfg.minSize, cfg.maxSize);
    ResizedAnchoring(s.drag.resizeCursor, s.drag.locBeforeMove.value, s.drag.sizeBeforeResize.value,
                     dx, dy, cfg.minSize, cfg.maxSize);
  }

  /** Hovering picks the zone's cursor; while a drag is going on or the window is maximized the cursor stays. */
  lemma HoverSelectsZone(s: WindowState, at: Point)
    ensures var r := AfterMouseMoved(s, at);
      && (s.drag.mouseDownLoc.None? && !s.Maximized() ==>
            (IsWestward(r.drag.resizeCursor) <==> at.x < GRAB_AREA) &&
            (IsNorthward(r.drag.resizeCursor) <==> at.y < GRAB_AREA))
      && (s.drag.mouseDownLoc.Some? || s.Maximized() ==> r == s)
  {
  }

  /**
   * The window-state listener restores the pre-minimize state exactly when the
   * event leaves the iconified state, and otherwise leaves the extended state
   * alone; either way only the chrome changes besides.
   */
  lemma StateChangedRestores(cfg: Config, s: WindowState, oldState: ExtendedState, newState: ExtendedState)
    ensures var r := AfterWindowStateChanged(cfg, s, oldState, newState);
      && (IsIconified(oldState) && !IsIconified(newState) ==> r.host.extendedState == s.preMinimizeState)
      && (!(IsIconified(oldState) && !IsIconified(newState)) ==> r.host.extendedState == s.host.extendedState)
      && r.host.bounds == s.host.bounds && r.preMinimizeState == s.preMinimizeState && r.drag == s.drag
  {
  }

  /**
   * The callbacks of the macOS listener other than entering and exiting
   * (entered, exited) only refresh the border and the title bar.
   */
  lemma MacOtherEventOnlyChrome(cfg: Config, s: WindowState)
    ensures OnlyChromeChanged(s, AfterUpdateChrome(cfg, s))
    ensures AfterUpdateChrome(cfg, s).host == s.host && AfterUpdateChrome(cfg, s).mac == s.mac
  {
  }

  /** Which events of a run, at the given times, update the chrome. */
  function Firings(lastCalled: int, times: seq<int>): (r: seq<bool>)
    decreases |times|
    ensures |r| == |times|
    ensures forall i :: 0 <= i < |times| ==>
      r[i] == DebounceFires(if i == 0 then lastCalled else times[i - 1], times[i])
  {
    if times == [] then []
    else [DebounceFires(lastCalled, times[0])] + Firings(times[0], times[1..])
  }

  /**
   * The debounce is a leading one: the first event after a quiet period updates,
   * and in a burst whose events follow each other within the interval no later
   * event updates, the last one included.
   */
  lemma BurstUpdatesOnlyAtStart(lastCalled: int, times: seq<int>)
    requires |times| >= 2
    requires times[0] - lastCalled > DEBOUNCE_INTERVAL_MS
    requires forall i :: 1 <= i < |times| ==> times[i] - times[i - 1] <= DEBOUNCE_INTERVAL_MS
    ensures Firings(lastCalled, times)[0]
    ensures forall i :: 1 <= i < |times| ==> !Firings(lastCalled, times)[i]
    ensures !Firings(lastCalled, times)[|times| - 1]
  {
    var r := Firings(lastCalled, times);
    forall i | 1 <= i < |times|
      ensures !r[i]
    {
      assert r[i] == DebounceFires(times[i - 1], times[i]);
    }
  }

  /** An event updates the chrome exactly when more than the interval has passed; lastCalled always advances. */
  lemma ComponentChangedDebounce(cfg: Config, s: WindowState, callTime: int)
    ensures var r := AfterComponentChanged(cfg, s, callTime);
      && r.lastCalled == callTime
      && (callTime - s.lastCalled > DEBOUNCE_INTERVAL_MS && !s.Minimized() ==>
            r.chrome.hideBorder == (r.Maximized() || r.FullScreen()) &&
            r.chrome.hideTitleBar == ShouldHideTitleBar(r))
      && (callTime - s.lastCalled <= DEBOUNCE_INTERVAL_MS ==> r == s.(lastCalled := callTime))
  {
  }

  /**
   * Without native macOS fullscreen the second reset of the Point and Dimension
   * overloads changes nothing: they end where the int overloads do.
   */
  lemma OverloadsAgreeOffMac(cfg: Config, s: WindowState, p: Point, size: Size)
    requires !s.MacosRules()
    ensures AfterSetLocationPoint(cfg, s, p) == AfterSetLocation(cfg, s, p)
    ensures AfterSetSizeDimension(cfg, s, size) == AfterSetSize(cfg, s, size)
  {
    var n := s.WithState(NORMAL);
    FullScreenKeepsMaximized(cfg, n, false);
    var r := AfterResetState(cfg, s);
    FullScreenKeepsMaximized(cfg, r.WithState(NORMAL), false);
  }

  /**
   * In native macOS fullscreen the int overload asks the platform once to leave
   * fullscreen; the Point overload asks twice, because the flag changes only on
   * the platform's later event.
   */
  lemma PointOverloadRequestsTwice(cfg: Config, s: WindowState, p: Point)
    requires s.mac.flag == Some(true)
    ensures AfterSetLocation(cfg, s, p).effects == s.effects + [MacToggleRequested]
    ensures AfterSetLocationPoint(cfg, s, p).effects == s.effects + [MacToggleRequested, MacToggleRequested]
    ensures AfterSetLocationPoint(cfg, s, p).host == AfterSetLocation(cfg, s, p).host
  {
  }

  /** The states a run of geometry events at the given times goes through, starting at s. */
  function ComponentStates(cfg: Config, s: WindowState, times: seq<int>): (r: seq<WindowState>)
    decreases |times|
    ensures |r| == |times| + 1 && r[0] == s
  {
    [s] + (if times == [] then [] else ComponentStates(cfg, AfterComponentChanged(cfg, s, times[0]), times[1..]))
  }

  /** One event of a run: the chrome update if the debounce fires, then the time is recorded. */
  function DebouncedStep(cfg: Config, s: WindowState, fires: bool, callTime: int): WindowState {
    (if fires then AfterUpdateChrome(cfg, s) else s).(lastCalled := callTime)
  }

  /** Step i of a run updates the chrome exactly when Firings says event i fires. */
  lemma {:induction false} ComponentRunFollowsFirings(cfg: Config, s: WindowState, times: seq<int>)
    decreases |times|
    ensures forall i :: 0 <= i < |times| ==>
      ComponentStates(cfg, s, times)[i + 1] ==
        DebouncedStep(cfg, ComponentStates(cfg, s, times)[i], Firings(s.lastCalled, times)[i], times[i])
  {
    if times != [] {
      var s1 := AfterComponentChanged(cfg, s, times[0]);
      var rest := ComponentStates(cfg, s1, times[1..]);
      var r := ComponentStates(cfg, s, times);
      var f := Firings(s.lastCalled, times);
      var g := Firings(s1.lastCalled, times[1..]);
      assert r == [s] + rest;
      ComponentRunFollowsFirings(cfg, s1, times[1..]);
      forall i | 0 <= i < |times|
        ensures r[i + 1] == DebouncedStep(cfg, r[i], f[i], times[i])
      {
        if i == 0 {
          assert r[1] == rest[0] == s1;
        } else {
          assert r[i + 1] == rest[i - 1 + 1] && r[i] == rest[i - 1];
          assert times[1..][i - 1] == times[i];
          assert g[i - 1] == f[i];
        }
      }
    }
  }

  /**
   * A burst run of the listener: the first event updates the chrome and every
   * later one, the last included, only records its time.
   */
  lemma BurstRunUpdatesOnlyAtStart(cfg: Config, s: WindowState, times: seq<int>)
    requires |times| >= 2
    requires times[0] - s.lastCalled > DEBOUNCE_INTERVAL_MS
    requires forall i :: 1 <= i < |times| ==> times[i] - times[i - 1] <= DEBOUNCE_INTERVAL_MS
    ensures var r := ComponentStates(cfg, s, times);
      && r[1] == AfterUpdateChrome(cfg, s).(lastCalled := times[0])
      && (forall i :: 1 <= i < |times| ==> r[i + 1] == r[i].(lastCalled := times[i]))
  {
    ComponentRunFollowsFirings(cfg, s, times);
    BurstUpdatesOnlyAtStart(s.lastCalled, times);
  }

  // ---------------------------------------------------------------------------
  // The frame object

  class Frame {
    const cfg: Config

    // The host window.
    var extendedState: ExtendedState
    var bounds: Rect
    var hostFullScreen: bool
    var visible: bool

    var preMinimizeState: ExtendedState
    var normalBounds: Option<Rect>
    var hideBorder: bool
    var hideTitleBar: bool
    var lockTitleBar: bool
    var paused: bool
    var macosFullScreen: Option<bool>
    var macosFullScreenPending: bool
    var macosPreFullScreenBounds: Option<Rect>
    var locBeforeMove: Option<Point>
    var sizeBeforeResize: Option<Size>
    var mouseDownLoc: Option<Point>
    var moveInProgress: bool
    var resizeCursor: Cursor
    /** The geometry listener's time of the previous event. */
    var lastCalled: int
    var effects: seq<Effect>

    function State(): WindowState
      reads this
    {
      WindowState(
        Host(extendedState, bounds, hostFullScreen, visible), preMinimizeState, normalBounds,
        Chrome(hideBorder, hideTitleBar, lockTitleBar), paused,
        MacFullScreen(macosFullScreen, macosFullScreenPending, macosPreFullScreenBounds),
        DragSession(locBeforeMove, sizeBeforeResize, mouseDownLoc, moveInProgress, resizeCursor),
        lastCalled, effects)
    }

    predicate Valid()
      reads this
    {
      State().Valid()
    }

    /** new FFrame() followed by initialize(titleBar): lockPref is UI_LOCK_TITLE_BAR, os the detected system. */
    constructor (cfg0: Config, bounds0: Rect, lockPref: bool, os: OSUtil.OS, macApiAvailable: bool)
      ensures cfg == cfg0
      ensures Valid() && State() == Initial(cfg0, bounds0, lockPref, os, macApiAvailable)
    {
      cfg := cfg0;
      extendedState, bounds, hostFullScreen, visible := NORMAL, bounds0, false, false;
      preMinimizeState, normalBounds := NORMAL, None;
      hideBorder := true;
      hideTitleBar := true;
      lockTitleBar := cfg0.isMainFrame && lockPref;
      paused := false;
      macosFullScreen := None;
      if os == OSUtil.MacOS && macApiAvailable {
        macosFullScreen := Some(false);
      }
      macosFullScreenPending, macosPreFullScreenBounds := false, None;
      locBeforeMove, sizeBeforeResize, mouseDownLoc := None, None, None;
      moveInProgress, resizeCursor := false, Default;
      lastCalled := 0;
      effects := [];
    }

    function IsMinimized(): (b: bool)
      reads this
      ensures b == State().Minimized()
    {
      extendedState.iconified
    }

    function IsMaximized(): (b: bool)
      reads this
      ensures b == State().Maximized()
    {
      extendedState.maximizedHoriz && extendedState.maximizedVert
    }

    function IsFullScreen(): (b: bool)
      reads this
      ensures b == State().FullScreen()
    {
      if macosFullScreen.Some? then macosFullScreen.value else hostFullScreen
    }

    function MacosFullScreenRules(): (b: bool)
      reads this
      ensures b == State().MacosRules()
    {
      macosFullScreen.Some?
    }

    /** isNormal: implies not minimized, not maximized and not fullscreen (the converse fails for half-maximized states). */
    function IsNormal(): (b: bool)
      reads this
      ensures b == State().Normal()
      ensures b ==> !IsMinimized() && !IsMaximized() && !IsFullScreen()
    {
      extendedState == NORMAL && !IsFullScreen()
    }

    method SetExtendedState(state: ExtendedState)
      modifies this
      ensures State() == old(State()).WithState(state)
    {
      extendedState := state;
    }

    method ApplyNormalBounds()
      modifies this
      ensures State() == AfterApplyNormalBounds(old(State()))
    {
      if normalBounds.Some? {
        bounds := normalBounds.value;
      }
    }

    method SetNormalBounds(r: Rect)
      modifies this
      ensures State() == AfterSetNormalBounds(old(State()), r)
    {
      normalBounds := Some(r);
      if !IsMaximized() && !IsFullScreen() {
        ApplyNormalBounds();
      }
    }

    method UpdateNormalBounds()
      modifies this
      ensures State() == AfterUpdateNormalBounds(old(State()))
    {
      if IsNormal() {
        normalBounds := Some(bounds);
      }
    }

    method SetMinimized(minimized: bool)
      modifies this
      ensures State() == AfterSetMinimized(old(State()), minimized)
    {
      if minimized == IsMinimized() {
        return;
      }
      if minimized {
        preMinimizeState := extendedState;
        SetExtendedState(preMinimizeState.(iconified := true));
      } else {
        SetExtendedState(preMinimizeState);
      }
    }

    method SetMaximized(maximized: bool)
      modifies this
      ensures State() == AfterSetMaximized(old(State()), maximized)
    {
      if maximized {
        SetExtendedState(extendedState.(maximizedHoriz := true, maximizedVert := true));
      } else {
        SetExtendedState(extendedState.(maximizedHoriz := false, maximizedVert := false));
        ApplyNormalBounds();
      }
    }

    /** SDisplayUtil.setFullScreenWindow(this, fullScreen): reports whether the host changed. */
    method ToggleHostFullScreen(fullScreen: bool) returns (changed: bool)
      modifies this
      ensures changed == HostToggleChanges(cfg, old(State()), fullScreen)
      ensures State() == AfterHostToggle(cfg, old(State()), fullScreen)
    {
      changed := cfg.fullScreenSupported && hostFullScreen != fullScreen;
      if changed {
        hostFullScreen := fullScreen;
        if cfg.toggleMaximizes {
          extendedState := extendedState.(maximizedHoriz := true, maximizedVert := true);
        }
      }
    }

    method SetFullScreen(fullScreen: bool)
      modifies this
      ensures State() == AfterSetFullScreen(cfg, old(State()), fullScreen)
    {
      if macosFullScreen.Some? {
        if macosFullScreen.value == fullScreen {
          return;
        }
        if !visible && fullScreen {
          macosFullScreenPending := true;
          return;
        }
        effects := effects + [MacToggleRequested];
      } else {
        var wasMaximized := IsMaximized();
        var changed := ToggleHostFullScreen(fullScreen);
        if changed {
          SetMaximized(wasMaximized);
          if !fullScreen {
            ApplyNormalBounds();
          }
        }
      }
    }

    method SetWindowLayout(x: int, y: int, width: int, height: int, maximized: bool, fullScreen: bool)
      modifies this
      ensures State() == AfterSetWindowLayout(cfg, old(State()), x, y, width, height, maximized, fullScreen)
    {
      SetNormalBounds(Rect(x, y, width, height));
      SetMaximized(maximized);
      SetFullScreen(fullScreen);
    }

    method ResetState()
      modifies this
      ensures State() == AfterResetState(cfg, old(State()))
    {
      SetExtendedState(NORMAL);
      SetFullScreen(false);
    }

    method SetLocation(p: Point)
      modifies this
      ensures State() == AfterSetLocation(cfg, old(State()), p)
    {
      ResetState();
      bounds := bounds.(x := p.x, y := p.y);
    }

    method SetSize(size: Size)
      modifies this
      ensures State() == AfterSetSize(cfg, old(State()), size)
    {
      ResetState();
      bounds := bounds.(width := size.width, height := size.height);
    }

    /** setLocation(Point): its own reset, then the int overload through the toolkit. */
    method SetLocationPoint(p: Point)
      modifies this
      ensures State() == AfterSetLocationPoint(cfg, old(State()), p)
    {
      ResetState();
      SetLocation(p);
    }

    /** setSize(Dimension): its own reset, then the int overload through the toolkit. */
    method SetSizeDimension(size: Size)
      modifies this
      ensures State() == AfterSetSizeDimension(cfg, old(State()), size)
    {
      ResetState();
      SetSize(size);
    }

    method UpdateBorder()
      modifies this
      ensures State() == AfterUpdateBorder(old(State()))
    {
      if IsMinimized() || hideBorder == (IsMaximized() || IsFullScreen()) {
        return;
      }
      hideBorder := !hideBorder;
      effects := effects + [BorderSet(!hideBorder)];
    }

    method UpdateTitleBar()
      modifies this
      ensures State() == AfterUpdateTitleBar(cfg, old(State()))
    {
      effects := effects + [ButtonsUpdated];
      var shouldHide := !MacosFullScreenRules() && IsFullScreen() && !lockTitleBar;
      if hideTitleBar == shouldHide {
        return;
      }
      hideTitleBar := shouldHide;
      effects := effects + [TitleBarSet(!hideTitleBar)];
      if cfg.isMainFrame {
        effects := effects + [Relayout];
      }
    }

    method SetLockTitleBar(lock: bool)
      modifies this
      ensures State() == AfterSetLockTitleBar(cfg, old(State()), lock)
    {
      if lockTitleBar == lock {
        return;
      }
      lockTitleBar := lock;
      if cfg.isMainFrame {
        effects := effects + [LockSaved(lock)];
      }
      UpdateTitleBar();
    }

    method Pause()
      modifies this
      ensures State() == AfterPause(cfg, old(State()))
    {
      if paused || !cfg.isMainFrame {
        return;
      }
      effects := effects + [SoundPaused, MatchesPaused];
      paused := true;
    }

    method Resume()
      modifies this
      ensures State() == AfterResume(cfg, old(State()))
    {
      if !paused || !cfg.isMainFrame {
        return;
      }
      effects := effects + [SoundResumed, MatchesResumed];
      paused := false;
    }

    /** windowActivated. */
    method WindowActivated()
      modifies this
      ensures State() == AfterResume(cfg, old(State()))
    {
      Resume();
    }

    /** windowDeactivated; toOtherApplication is getOppositeWindow() == null. */
    method WindowDeactivated(toOtherApplication: bool)
      modifies this
      ensures State() == AfterWindowDeactivated(cfg, old(State()), toOtherApplication)
    {
      if toOtherApplication {
        Pause();
        if IsFullScreen() && !MacosFullScreenRules() {
          SetMinimized(true);
        }
      }
    }

    /** The window-state listener, given the event's old and new states. */
    method WindowStateChanged(oldState: ExtendedState, newState: ExtendedState)
      modifies this
      ensures State() == AfterWindowStateChanged(cfg, old(State()), oldState, newState)
    {
      if oldState.iconified && !newState.iconified {
        SetExtendedState(preMinimizeState);
      }
      UpdateBorder();
      UpdateTitleBar();
    }

    /** componentMoved / componentResized, with the current time in milliseconds. */
    method ComponentChanged(callTime: int)
      modifies this
      ensures State() == AfterComponentChanged(cfg, old(State()), callTime)
    {
      if callTime - lastCalled > DEBOUNCE_INTERVAL_MS {
        UpdateBorder();
        UpdateTitleBar();
      }
      lastCalled := callTime;
    }

    /** The macOS listener's windowEnteringFullScreen; screen is the device's bounds. */
    method MacEnteringFullScreen(screen: Rect)
      modifies this
      ensures State() == AfterMacEnteringFullScreen(cfg, old(State()), screen)
    {
      ghost var s0 := State();
      macosFullScreen := Some(true);
      macosPreFullScreenBounds := Some(bounds);
      bounds := screen;
      assert State() == s0.(mac := s0.mac.(flag := Some(true), preFullScreenBounds := Some(s0.host.bounds))).WithBounds(screen);
      UpdateBorder();
      UpdateTitleBar();
    }

    /** The macOS listener's windowExitingFullScreen. */
    method MacExitingFullScreen()
      modifies this
      ensures State() == AfterMacExitingFullScreen(cfg, old(State()))
    {
      macosFullScreen := Some(false);
      ghost var s1 := State();
      if macosPreFullScreenBounds.Some? {
        bounds := macosPreFullScreenBounds.value;
        macosPreFullScreenBounds := None;
        assert State() == s1.(mac := s1.mac.(preFullScreenBounds := None)).WithBounds(s1.mac.preFullScreenBounds.value);
      } else {
        ApplyNormalBounds();
      }
      UpdateBorder();
      UpdateTitleBar();
    }

    /** The macOS listener's other callbacks (windowEnteredFullScreen, windowExitedFullScreen). */
    method MacOtherFullScreenEvent()
      modifies this
      ensures State() == AfterUpdateChrome(cfg, old(State()))
    {
      UpdateBorder();
      UpdateTitleBar();
    }

    method SetVisible(visible0: bool)
      modifies this
      ensures State() == AfterSetVisible(old(State()), visible0)
    {
      visible := visible0;
      if macosFullScreenPending {
        effects := effects + [FullScreenScheduled];
      }
    }

    /** The task scheduled by SetVisible, run later on the event thread. */
    method ScheduledFullScreen()
      modifies this
      ensures State() == AfterScheduledFullScreen(cfg, old(State()))
    {
      SetFullScreen(true);
      macosFullScreenPending := false;
    }

    method TitleBarPressed(at: Point, leftButton: bool, clickCount: int)
      modifies this
      ensures State() == AfterTitleBarPressed(old(State()), at, leftButton, clickCount)
    {
      if leftButton && !IsFullScreen() {
        if clickCount == 1 {
          locBeforeMove := Some(Point(bounds.x, bounds.y));
          mouseDownLoc := Some(at);
        } else {
          SetMaximized(!IsMaximized());
        }
      }
    }

    method TitleBarReleased(leftButton: bool)
      modifies this
      ensures State() == AfterTitleBarReleased(old(State()), leftButton)
    {
      if leftButton {
        locBeforeMove := None;
        mouseDownLoc := None;
        moveInProgress := false;
      }
    }

    method TitleBarDragged(at: Point)
      requires Valid()
      modifies this
      ensures Valid() && State() == AfterTitleBarDragged(cfg, old(State()), at)
    {
      if mouseDownLoc.Some? {
        var dx := at.x - mouseDownLoc.value.x;
        var dy := at.y - mouseDownLoc.value.y;
        if !moveInProgress {
          if IsMaximized() && SquaredDistance32(dx, dy) < 25 {
            return;
          }
          moveInProgress := true;
        }
        SetLocation(Point(locBeforeMove.value.x + dx, locBeforeMove.value.y + dy));
      }
    }

    method ResizePressed(at: Point, leftButton: bool)
      modifies this
      ensures State() == AfterResizePressed(old(State()), at, leftButton)
    {
      if resizeCursor != Default && leftButton {
        locBeforeMove := Some(Point(bounds.x, bounds.y));
        sizeBeforeResize := Some(Size(bounds.width, bounds.height));
        mouseDownLoc := Some(at);
      }
    }

    method ResizeReleased(leftButton: bool)
      modifies this
      ensures State() == AfterResizeReleased(old(State()), leftButton)
    {
      if leftButton {
        locBeforeMove := None;
        sizeBeforeResize := None;
        mouseDownLoc := None;
        resizeCursor := Default;
      }
    }

    method MouseExited()
      modifies this
      ensures State() == AfterMouseExited(old(State()))
    {
      if mouseDownLoc.None? {
        resizeCursor := Default;
      }
    }

    method MouseMoved(at: Point)
      modifies this
      ensures State() == AfterMouseMoved(old(State()), at)
    {
      if mouseDownLoc.None? && !IsMaximized() {
        resizeCursor := CursorZone(at.x, at.y, bounds.width, bounds.height);
      }
    }

    method ResizeDragged(at: Point)
      modifies this
      ensures State() == AfterResizeDragged(cfg, old(State()), at)
    {
      if mouseDownLoc.None? || locBeforeMove.None? || sizeBeforeResize.None? {
        return;
      }
      var r := ResizeDrag(resizeCursor, locBeforeMove.value, sizeBeforeResize.value,
                          at.x - mouseDownLoc.value.x, at.y - mouseDownLoc.value.y,
                          cfg.minSize, cfg.maxSize);
      bounds := r;
    }
  }

  /** The frame's invariant survives the fullscreen transitions. */
  lemma FullScreenPreservesValid(cfg: Config, s: WindowState, r: Rect)
    requires s.Valid()
    ensures AfterScheduledFullScreen(cfg, s).Valid()
    ensures AfterMacEnteringFullScreen(cfg, s, r).Valid()
    ensures AfterMacExitingFullScreen(cfg, s).Valid()
  {
  }

  /** The frame's invariant survives the pointer handlers: a session always records where the window was. */
  lemma PointerPreservesValid(cfg: Config, s: WindowState, at: Point, leftButton: bool, clickCount: int)
    requires s.Valid()
    ensures AfterTitleBarPressed(s, at, leftButton, clickCount).Valid()
    ensures AfterTitleBarReleased(s, leftButton).Valid()
    ensures AfterResizePressed(s, at, leftButton).Valid()
    ensures AfterResizeReleased(s, leftButton).Valid()
    ensures AfterTitleBarDragged(cfg, s, at).Valid()
  {
  }
}
