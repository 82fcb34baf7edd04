/** The window-mode state machine of `GameRoot`: the two toggles, the
    dispatcher that turns a settings change into engine changes, the
    geometry capture and restore helpers, start-up and shutdown.

    The engine (the graphics device manager and the OS window) is abstracted
    as plain fields. `ApplyChanges` is modelled as making the window's client
    area take the requested window position and back-buffer size; the size
    of the current display mode is an input. */
module GameRoot {
  import opened Geometry
  import opened GameSettings
  import opened WindowMode

  /** The values the program writes on the graphics device manager. */
  datatype Graphics = Graphics(
    backBufferWidth: int,
    backBufferHeight: int,
    isFullScreen: bool,
    hardwareModeSwitch: bool,
    synchronizeWithVerticalRetrace: bool)

  /** The whole state the window-mode logic reads and writes: the settings
      record, the engine-side values, and the window. */
  datatype Game = Game(
    settings: Settings,
    graphics: Graphics,
    isFixedTimeStep: bool,
    windowPosition: Point,
    clientBounds: Rect)

  /** The geometry the window would have when windowed: the live client
      bounds while windowed, the captured geometry while fullscreen. */
  function WindowedBounds(g: Game): Rect {
    if g.settings.isFullscreen then g.settings.Saved() else g.clientBounds
  }

  /** The engine agrees with the settings: it is fullscreen exactly when the
      settings say so and, when fullscreen, it uses the display-mode size and
      switches the hardware mode exactly when not borderless. */
  predicate Consistent(g: Game, display: DisplayMode) {
    && g.graphics.isFullScreen == g.settings.isFullscreen
    && (g.settings.isFullscreen ==>
          && g.graphics.hardwareModeSwitch == !g.settings.isBorderless
          && g.graphics.backBufferWidth == display.width
          && g.graphics.backBufferHeight == display.height)
  }

  /** The mode the engine is in, read from its own flags. */
  function EngineMode(gr: Graphics): Mode {
    if !gr.isFullScreen then Windowed
    else if gr.hardwareModeSwitch then Exclusive
    else Borderless
  }

  /** When the engine agrees with valid settings, both are in the same mode. */
  lemma EngineModeAgrees(g: Game, display: DisplayMode)
    requires Valid(g.settings) && Consistent(g, display)
    ensures EngineMode(g.graphics) == ModeOf(g.settings)
  {
  }

  /** `GraphicsDeviceManager.ApplyChanges`, abstracted: the client area takes
      the requested window position and back-buffer size. */
  function ApplyChanges(g: Game): Game {
    g.(clientBounds := Rect(g.windowPosition.x, g.windowPosition.y,
                            g.graphics.backBufferWidth, g.graphics.backBufferHeight))
  }

  /** Captures the current client bounds into the settings' windowed
      geometry; nothing else changes. */
  function SaveWindow(g: Game): (r: Game)
    ensures r.settings.Saved() == g.clientBounds
    ensures r.settings.WithSaved(g.settings.Saved()) == g.settings
    ensures r.(settings := g.settings) == g
  {
    g.(settings := g.settings.(x := g.clientBounds.x, y := g.clientBounds.y,
                               width := g.clientBounds.width, height := g.clientBounds.height))
  }

  /** Puts the window back at the saved position with the saved size: the
      window position and back buffer come from the settings, and the client
      bounds become the saved geometry. Settings and mode flags are untouched. */
  function RestoreWindow(g: Game): (r: Game)
    ensures r.windowPosition == Point(g.settings.x, g.settings.y)
    ensures r.graphics.backBufferWidth == g.settings.width
    ensures r.graphics.backBufferHeight == g.settings.height
    ensures r.clientBounds == g.settings.Saved()
    ensures r.settings == g.settings && r.isFixedTimeStep == g.isFixedTimeStep
    ensures r.graphics.(backBufferWidth := g.graphics.backBufferWidth,
                        backBufferHeight := g.graphics.backBufferHeight) == g.graphics
  {
    var g1 := g.(windowPosition := Point(g.settings.x, g.settings.y));
    var g2 := g1.(graphics := g1.graphics.(backBufferWidth := g.settings.width,
                                           backBufferHeight := g.settings.height));
    ApplyChanges(g2)
  }

  /** Saving then restoring puts the window back where it was. */
  lemma SaveThenRestore(g: Game)
    ensures RestoreWindow(SaveWindow(g)).clientBounds == g.clientBounds
    ensures RestoreWindow(SaveWindow(g)).settings.Saved() == g.clientBounds
  {
  }

  /** Restoring then saving leaves the settings as they were. */
  lemma RestoreThenSave(g: Game)
    ensures SaveWindow(RestoreWindow(g)).settings == g.settings
  {
  }

  /** Staying fullscreen: of the values the program writes, only the
      hardware-mode switch changes, to follow the borderless flag; applying
      the change re-derives the client bounds from the unchanged window
      position and back buffer. */
  function ApplyHardwareMode(g: Game): (r: Game)
    ensures r.graphics.hardwareModeSwitch == !g.settings.isBorderless
    ensures r.graphics.(hardwareModeSwitch := g.graphics.hardwareModeSwitch) == g.graphics
    ensures r.settings == g.settings && r.windowPosition == g.windowPosition
    ensures r.isFixedTimeStep == g.isFixedTimeStep
    ensures r.clientBounds == Rect(g.windowPosition.x, g.windowPosition.y,
                                   g.graphics.backBufferWidth, g.graphics.backBufferHeight)
  {
    ApplyChanges(g.(graphics := g.graphics.(hardwareModeSwitch := !g.settings.isBorderless)))
  }

  /** Entering fullscreen: the windowed geometry is captured first, then the
      back buffer takes the display-mode size and the engine goes fullscreen,
      switching the hardware mode unless borderless. */
  function SetFullscreen(g: Game, display: DisplayMode): (r: Game)
    ensures r.settings.Saved() == g.clientBounds
    ensures r.settings.WithSaved(g.settings.Saved()) == g.settings
    ensures r.graphics.backBufferWidth == display.width
    ensures r.graphics.backBufferHeight == display.height
    ensures r.graphics.isFullScreen
    ensures r.graphics.hardwareModeSwitch == !g.settings.isBorderless
    ensures r.graphics.synchronizeWithVerticalRetrace == g.graphics.synchronizeWithVerticalRetrace
    ensures r.windowPosition == g.windowPosition && r.isFixedTimeStep == g.isFixedTimeStep
  {
    var g1 := SaveWindow(g);
    var g2 := g1.(graphics := g1.graphics.(backBufferWidth := display.width,
                                           backBufferHeight := display.height,
                                           hardwareModeSwitch := !g1.settings.isBorderless,
                                           isFullScreen := true));
    ApplyChanges(g2)
  }

  /** Leaving fullscreen: the engine goes windowed and the window is put
      back to the saved geometry. */
  function UnsetFullscreen(g: Game): (r: Game)
    ensures !r.graphics.isFullScreen
    ensures r.clientBounds == g.settings.Saved()
    ensures r.windowPosition == Point(g.settings.x, g.settings.y)
    ensures r.graphics.backBufferWidth == g.settings.width
    ensures r.graphics.backBufferHeight == g.settings.height
    ensures r.graphics.hardwareModeSwitch == g.graphics.hardwareModeSwitch
    ensures r.settings == g.settings && r.isFixedTimeStep == g.isFixedTimeStep
  {
    RestoreWindow(g.(graphics := g.graphics.(isFullScreen := false)))
  }

  /** Makes the engine follow the settings' mode, given whether the settings
      were fullscreen before the change. The mode flags themselves are never
      changed here. */
  function ApplyFullscreenChange(g: Game, oldIsFullscreen: bool, display: DisplayMode): (r: Game)
    ensures r.settings.isFullscreen == g.settings.isFullscreen
    ensures r.settings.isBorderless == g.settings.isBorderless
    // windowed -> fullscreen: capture the geometry, then resize to the display
    ensures g.settings.isFullscreen && !oldIsFullscreen ==>
      && r.settings.Saved() == g.clientBounds
      && r.graphics.backBufferWidth == display.width
      && r.graphics.backBufferHeight == display.height
      && r.graphics.isFullScreen
      && r.graphics.hardwareModeSwitch == !g.settings.isBorderless
      && r.settings.WithSaved(g.settings.Saved()) == g.settings
      && r.windowPosition == g.windowPosition
      && r.isFixedTimeStep == g.isFixedTimeStep
      && r.graphics.synchronizeWithVerticalRetrace == g.graphics.synchronizeWithVerticalRetrace
    // fullscreen -> fullscreen: only the hardware-mode switch changes, and
    // the client bounds are re-derived from the unchanged position and size
    ensures g.settings.isFullscreen && oldIsFullscreen ==>
      && r.settings == g.settings
      && r.graphics == g.graphics.(hardwareModeSwitch := !g.settings.isBorderless)
      && r.windowPosition == g.windowPosition
      && r.isFixedTimeStep == g.isFixedTimeStep
      && r.clientBounds == Rect(g.windowPosition.x, g.windowPosition.y,
                                g.graphics.backBufferWidth, g.graphics.backBufferHeight)
    // -> windowed: restore the saved geometry
    ensures !g.settings.isFullscreen ==>
      && r.settings == g.settings
      && !r.graphics.isFullScreen
      && r.windowPosition == Point(g.settings.x, g.settings.y)
      && r.graphics.backBufferWidth == g.settings.width
      && r.graphics.backBufferHeight == g.settings.height
      && r.clientBounds == g.settings.Saved()
      && r.graphics.hardwareModeSwitch == g.graphics.hardwareModeSwitch
      && r.graphics.synchronizeWithVerticalRetrace == g.graphics.synchronizeWithVerticalRetrace
      && r.isFixedTimeStep == g.isFixedTimeStep
  {
    if g.settings.isFullscreen then
      if oldIsFullscreen then ApplyHardwareMode(g) else SetFullscreen(g, display)
    else
      UnsetFullscreen(g)
  }

  /** The fullscreen toggle. When not borderless it flips fullscreen; when
      borderless it only clears borderless, so a borderless game drops to
      exclusive fullscreen rather than to a window. */
  function ToggleFullscreen(g: Game, display: DisplayMode): (r: Game)
    ensures !r.settings.isBorderless
    ensures !g.settings.isBorderless ==> r.settings.isFullscreen == !g.settings.isFullscreen
    ensures g.settings.isBorderless ==> r.settings.isFullscreen == g.settings.isFullscreen
    ensures Valid(r.settings)
    ensures r.settings.isVSync == g.settings.isVSync
    ensures r.settings.isFixedTimeStep == g.settings.isFixedTimeStep
    ensures r.settings.WithSaved(g.settings.Saved())
              .(isFullscreen := g.settings.isFullscreen, isBorderless := g.settings.isBorderless) == g.settings
    ensures r.isFixedTimeStep == g.isFixedTimeStep
    ensures r.graphics.synchronizeWithVerticalRetrace == g.graphics.synchronizeWithVerticalRetrace
  {
    var oldIsFullscreen := g.settings.isFullscreen;
    var s := if g.settings.isBorderless then g.settings.(isBorderless := false)
             else g.settings.(isFullscreen := !g.settings.isFullscreen);
    ApplyFullscreenChange(g.(settings := s), oldIsFullscreen, display)
  }

  /** The borderless toggle: flips borderless and forces fullscreen to equal
      the new borderless value. */
  function ToggleBorderless(g: Game, display: DisplayMode): (r: Game)
    ensures r.settings.isBorderless == !g.settings.isBorderless
    ensures r.settings.isFullscreen == r.settings.isBorderless
    ensures Valid(r.settings)
    ensures r.settings.isVSync == g.settings.isVSync
    ensures r.settings.isFixedTimeStep == g.settings.isFixedTimeStep
    ensures r.settings.WithSaved(g.settings.Saved())
              .(isFullscreen := g.settings.isFullscreen, isBorderless := g.settings.isBorderless) == g.settings
    ensures r.isFixedTimeStep == g.isFixedTimeStep
    ensures r.graphics.synchronizeWithVerticalRetrace == g.graphics.synchronizeWithVerticalRetrace
  {
    var oldIsFullscreen := g.settings.isFullscreen;
    var s := g.settings.(isBorderless := !g.settings.isBorderless,
                         isFullscreen := !g.settings.isBorderless);
    ApplyFullscreenChange(g.(settings := s), oldIsFullscreen, display)
  }

  /** The fullscreen toggle follows the key table on modes. */
  lemma ToggleFullscreenFollowsKeyTable(g: Game, display: DisplayMode)
    requires Valid(g.settings)
    ensures ModeOf(ToggleFullscreen(g, display).settings) == FullscreenKey(ModeOf(g.settings))
  {
  }

  /** The borderless toggle follows the key table on modes. */
  lemma ToggleBorderlessFollowsKeyTable(g: Game, display: DisplayMode)
    requires Valid(g.settings)
    ensures ModeOf(ToggleBorderless(g, display).settings) == BorderlessKey(ModeOf(g.settings))
  {
  }

  /** Both toggles keep the engine in agreement with the settings. The
      display mode is read afresh by each toggle (`current`); the back buffer
      matches the one read when fullscreen was last entered: `current` when
      the toggle starts windowed, the earlier `entered` otherwise. */
  lemma TogglesKeepConsistent(g: Game, entered: DisplayMode, current: DisplayMode)
    requires Valid(g.settings)
    ensures Consistent(g, entered) ==>
      Consistent(ToggleFullscreen(g, current), if g.settings.isFullscreen then entered else current)
    ensures Consistent(g, entered) ==>
      Consistent(ToggleBorderless(g, current), if g.settings.isFullscreen then entered else current)
  {
  }

  /** Both toggles keep the windowed geometry: entering fullscreen captures
      exactly the live bounds, staying fullscreen touches no geometry, and
      leaving fullscreen restores exactly the captured bounds. */
  lemma TogglesKeepWindowedBounds(g: Game, display: DisplayMode)
    requires Valid(g.settings)
    ensures WindowedBounds(ToggleFullscreen(g, display)) == WindowedBounds(g)
    ensures WindowedBounds(ToggleBorderless(g, display)) == WindowedBounds(g)
  {
  }

  /** Windowed, then fullscreen, then windowed again by the same key returns
      the window to its original bounds; the same holds for the borderless
      key. */
  lemma FullscreenRoundTrip(g: Game, display: DisplayMode)
    requires !g.settings.isFullscreen && !g.settings.isBorderless
    ensures ToggleFullscreen(ToggleFullscreen(g, display), display).clientBounds == g.clientBounds
    ensures !ToggleFullscreen(ToggleFullscreen(g, display), display).settings.isFullscreen
    ensures !ToggleFullscreen(ToggleFullscreen(g, display), display).graphics.isFullScreen
    ensures ToggleBorderless(ToggleBorderless(g, display), display).clientBounds == g.clientBounds
    ensures !ToggleBorderless(ToggleBorderless(g, display), display).settings.isFullscreen
  {
  }

  /** Start-up: the engine tick mode and vertical sync come from the
      settings, the settings are normalised, the window is put at the saved
      geometry, and a fullscreen record is then applied as a fresh entry into
      fullscreen. */
  function Initialize(g: Game, display: DisplayMode): (r: Game)
    ensures Valid(r.settings)
    ensures r.settings.isBorderless == g.settings.isBorderless
    ensures r.settings.isFullscreen == (g.settings.isFullscreen || g.settings.isBorderless)
    ensures r.settings.Saved() == g.settings.Saved()
    ensures r.settings.isVSync == g.settings.isVSync
    ensures r.settings.isFixedTimeStep == g.settings.isFixedTimeStep
    ensures WindowedBounds(r) == g.settings.Saved()
    ensures r.isFixedTimeStep == g.settings.isFixedTimeStep
    ensures r.graphics.synchronizeWithVerticalRetrace == g.settings.isVSync
    ensures !g.graphics.isFullScreen ==> Consistent(r, display)
  {
    var g1 := g.(isFixedTimeStep := g.settings.isFixedTimeStep,
                 graphics := g.graphics.(synchronizeWithVerticalRetrace := g.settings.isVSync),
                 settings := Normalize(g.settings));
    var g2 := RestoreWindow(g1);
    if g2.settings.isFullscreen then ApplyFullscreenChange(g2, false, display) else g2
  }

  /** Shutdown: the record written back. While windowed the live bounds are
      captured; while fullscreen the geometry captured on entering
      fullscreen is kept. Either way the record holds the windowed bounds. */
  function UnloadContent(g: Game): (s: Settings)
    ensures s.Saved() == WindowedBounds(g)
    ensures s.WithSaved(g.settings.Saved()) == g.settings
    ensures g.settings.isFullscreen ==> s == g.settings
  {
    if !g.settings.isFullscreen then SaveWindow(g).settings else g.settings
  }
}
