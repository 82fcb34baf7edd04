# Window-mode state machine of a MonoGame application shell

This project models, in Dafny, the window-mode logic of the `GameRoot` class
of a small MonoGame game: the fullscreen toggle (Alt+Enter), the borderless
toggle (F11), the dispatcher that turns a settings change into changes on the
graphics device manager, the capture and restore of the windowed geometry,
the normalisation done at start-up and the geometry rule applied at shutdown.

The state is one immutable record, `GameRoot.Game`:

- the settings record (`GameSettings.Settings`): `isFullscreen`,
  `isBorderless`, the saved windowed geometry `x`, `y`, `width`, `height`,
  and the tick-mode and vertical-sync flags;
- the values the program writes on the graphics device manager
  (`GameRoot.Graphics`): back-buffer width and height, `isFullScreen`,
  `hardwareModeSwitch`, vertical sync;
- the engine's fixed-time-step flag, the window position and the current
  client bounds.

Every operation is a pure function from state to state. The engine is
abstracted: `ApplyChanges` makes the client bounds equal to the requested
window position and back-buffer size, and the size of the adapter's current
display mode is an input (`Geometry.DisplayMode`).

The main results:

- `Valid` (`isBorderless ==> isFullscreen`) is established at start-up and
  kept by every toggle and every sequence of frames.
- The flag updates follow an independent key table on three modes (windowed,
  exclusive fullscreen, borderless fullscreen) in `WindowMode`.
- The engine stays in agreement with the settings (`Consistent`).
- The windowed geometry (`WindowedBounds`: the live client bounds while
  windowed, the captured geometry while fullscreen) is kept by every toggle.
  So windowed, then fullscreen, then windowed returns the original bounds.
  A whole session writes back at shutdown the last geometry the window had
  while windowed: the loaded one when the window was never moved.

When borderless, the fullscreen toggle only clears `IsBorderless`
(Game/GameRoot.cs:115-116). `IsFullscreen` stays true, and the dispatcher
takes the stays-fullscreen branch, which switches to exclusive
(hardware-mode) fullscreen rather than to a window.
`Session.ScenarioBorderlessThenFullscreen` states this.

A session is a sequence of frames. A frame is either the key handling of
`Update`, carrying the display mode the adapter reports in that frame (the
program reads it afresh on every entry into fullscreen), or the user moving
or resizing the window. `Session.View` is what the frames determine on
their own: the mode by the key table, the last windowed geometry, and the
display mode read on the last entry into fullscreen. The run lemmas show
that the state follows that view.

Files: `geometry.dfy` (points, rectangles, display mode), `settings.dfy`
(the settings record and normalisation), `window_mode.dfy` (the mode key
table), `game_root.dfy` (the state machine), `session.dfy` (per-frame key
handling and whole sessions).

## Model

| member | source | states |
|---|---|---|
| GameSettings.Normalize | Game/GameRoot.cs:33 | start-up makes the record valid by only ever raising fullscreen: borderless is kept, fullscreen is never cleared, and a valid record is left as it is |
| GameSettings.NormalizeIdempotent | Game/GameRoot.cs:33 | normalising an already normalised record changes nothing |
| WindowMode.ModeRoundTrip | Game/GameRoot.cs:123-127 | the two flags of a valid record encode exactly one of three modes, and every mode is encoded by a valid record |
| WindowMode.KeyTableFacts | Game/GameRoot.cs:112-130 | the fullscreen key never lands in borderless; the borderless key enters borderless exactly from a non-borderless mode; each key pressed twice is the identity except from borderless (fullscreen key) or exclusive (borderless key) |
| GameRoot.EngineModeAgrees | Game/GameRoot.cs:176-193 | when the engine agrees with valid settings, the mode read off `IsFullScreen` and `HardwareModeSwitch` is the mode of the settings |
| GameRoot.SaveWindow | Game/GameRoot.cs:194-199 | the saved geometry becomes the current client bounds and nothing else changes |
| GameRoot.RestoreWindow | Game/GameRoot.cs:200-205 | window position and back buffer come from the saved geometry, the client bounds become that geometry, settings and other engine flags are untouched |
| GameRoot.SaveThenRestore | Game/GameRoot.cs:194-205 | capturing then restoring puts the window back at the bounds it had |
| GameRoot.RestoreThenSave | Game/GameRoot.cs:194-205 | restoring then capturing leaves the settings record unchanged |
| GameRoot.ApplyHardwareMode | Game/GameRoot.cs:176-179 | of the values the program writes only the hardware-mode switch changes, to the negation of borderless; settings, window position, back buffer, `IsFullScreen` and the tick mode are kept, and applying the change re-derives the client bounds from the unchanged position and back buffer |
| GameRoot.SetFullscreen | Game/GameRoot.cs:180-189 | the client bounds are captured into the saved geometry before resizing, the back buffer takes the display-mode size, the engine goes fullscreen with the hardware-mode switch equal to not borderless |
| GameRoot.UnsetFullscreen | Game/GameRoot.cs:190-193 | the engine leaves fullscreen and the window position, back buffer and client bounds come back from the saved geometry |
| GameRoot.ApplyFullscreenChange | Game/GameRoot.cs:165-175 | the three branches: windowed to fullscreen captures geometry and resizes to the display, keeping the rest of the settings, the window position, tick mode and vertical sync; fullscreen to fullscreen changes only the hardware-mode switch, with the client bounds re-derived from the unchanged position and back buffer; to windowed restores the saved geometry, keeping the settings, the hardware-mode switch, tick mode and vertical sync; the mode flags are never changed |
| GameRoot.ToggleFullscreen | Game/GameRoot.cs:112-122 | not borderless: fullscreen flips; borderless: borderless is cleared and fullscreen is kept; the result is never borderless and always valid; apart from the mode flags and the captured geometry the settings record is unchanged, so vertical sync and tick mode keep their values |
| GameRoot.ToggleBorderless | Game/GameRoot.cs:123-130 | borderless flips and fullscreen becomes equal to the new borderless value, so the result is always valid; apart from the mode flags and the captured geometry the settings record is unchanged, so vertical sync and tick mode keep their values |
| GameRoot.ToggleFullscreenFollowsKeyTable | Game/GameRoot.cs:112-122 | on valid settings the fullscreen toggle moves the mode exactly as the fullscreen key of the mode table |
| GameRoot.ToggleBorderlessFollowsKeyTable | Game/GameRoot.cs:123-130 | on valid settings the borderless toggle moves the mode exactly as the borderless key of the mode table |
| GameRoot.TogglesKeepConsistent | Game/GameRoot.cs:112-130 | from valid settings that the engine agrees with, both toggles leave the engine in agreement with the new settings, with the back buffer sized from the display mode read when the toggle enters fullscreen, or from the earlier one when it was already fullscreen |
| GameRoot.TogglesKeepWindowedBounds | Game/GameRoot.cs:165-205 | from valid settings, both toggles keep the windowed geometry (live bounds when windowed, captured bounds when fullscreen) |
| GameRoot.FullscreenRoundTrip | Game/GameRoot.cs:165-205 | windowed, then either toggle twice, is windowed again at the original client bounds |
| GameRoot.Initialize | Game/GameRoot.cs:26-38 | start-up copies tick mode and vertical sync to the engine and keeps them in the settings, normalises the flags, keeps the saved geometry as the windowed geometry, and (from the engine's windowed default) leaves the engine in agreement with the settings |
| GameRoot.UnloadContent | Game/GameRoot.cs:56-59 | the record written at shutdown holds the windowed geometry: the live bounds when windowed, the geometry captured on entering fullscreen otherwise; nothing else in the record changes |
| WindowMode.FrameEntersExactly | Game/GameRoot.cs:73-78 | a frame whose keys enter fullscreen from windowed ends fullscreen, and a frame that ends fullscreen started fullscreen or entered it: fullscreen is entered at most once per frame, and a frame that starts fullscreen re-enters it only after the fullscreen key left it |
| Session.Update | Game/GameRoot.cs:73-78 | a frame with a toggle key pressed leaves valid settings, a frame with no key pressed changes nothing, and a move changes neither settings nor engine values and, while windowed, sets the client bounds |
| Session.UpdateKeeps | Game/GameRoot.cs:73-78 | from valid settings one frame keeps them valid with vertical sync and tick mode unchanged, moves the mode as the key table does, changes the windowed geometry only by a move while windowed, and keeps the engine in agreement for the display mode read on entering fullscreen |
| Session.RunKeepsPreferences | Game/GameRoot.cs:30-31 | every sequence of frames keeps the vertical-sync and tick-mode settings, which are read at start-up and never written |
| Session.RunKeepsValid | Game/GameRoot.cs:73-78 | every sequence of frames keeps `isBorderless ==> isFullscreen` |
| Session.RunFollowsKeyTable | Game/GameRoot.cs:73-78 | every sequence of frames moves the mode as the key table does |
| Session.RunKeepsConsistent | Game/GameRoot.cs:180-189 | every sequence of frames keeps the engine in agreement with the settings, with the back buffer sized from the display mode read on the last entry into fullscreen, even when frames report different display modes |
| Session.RunTracksWindowedBounds | Game/GameRoot.cs:165-205 | every sequence of frames keeps the windowed geometry, except that a move while windowed replaces it |
| Session.ReplayUnchangedBy | Game/GameRoot.cs:112-130 | frames without moves leave the tracked geometry as it was, and frames that all read one display mode leave the recorded display mode as it was |
| Session.SessionPersistsWindowedGeometry | Game/GameRoot.cs:26-64 | start-up, any sequence of frames, shutdown: the record written back is valid, is in the mode the key table reaches, holds the last windowed geometry (the loaded one when the window was never moved), and keeps the loaded vertical-sync and tick-mode settings |
| Session.SessionKeepsConsistent | Game/GameRoot.cs:26-38 | from the engine's windowed default, start-up followed by frames that all read one display mode keeps the engine in agreement with the settings for that display mode |
| Session.ScenarioFullscreenTwice | Game/GameRoot.cs:112-122 | windowed at (100, 100, 800, 600), the fullscreen toggle saves that geometry and a second toggle restores it |
| Session.ScenarioBorderlessThenFullscreen | Game/GameRoot.cs:112-130 | windowed, borderless toggle, fullscreen toggle: ends in exclusive fullscreen, not windowed |

## Left out

- JSON settings persistence (`LoadJson`, `SaveJson`, `EnsureJson`, `GetPath`): file I/O and serialisation. The settings record is taken as given at start-up, and `UnloadContent` returns the record that would be written.
- The default values of a fresh settings record: `Settings.cs` is not part of this model.
- Character movement in `Update` (Game/GameRoot.cs:80-87): floating-point arithmetic over elapsed game time.
- `Draw`, `LoadContent`, fonts, the FPS counter and the camera: rendering and engine plumbing.
- Key detection through input conditions and `Exit()`: each frame is modelled by which toggle keys were pressed (`Session.Keys`).
- The engine's real `ApplyChanges`, the display adapter and the OS window: abstracted as plain fields, with the client bounds following the requested window position and back-buffer size, and the display-mode size as an input. `SaveWindow` reads the client bounds and `RestoreWindow` writes the window position and back buffer, so every result that relates the two rests on this abstraction: start-up keeping the loaded geometry (`GameRoot.Initialize`), `GameRoot.SaveThenRestore`, `GameRoot.TogglesKeepWindowedBounds`, `GameRoot.FullscreenRoundTrip`, `Session.RunTracksWindowedBounds`, `Session.SessionPersistsWindowedGeometry` and `Session.ScenarioFullscreenTwice`.
- How the OS and the engine carry out a move or resize by the user (`AllowUserResizing`): a `Session.Moved` frame sets the window position and client bounds while windowed and is ignored while fullscreen; the back buffer is not resized with it.
