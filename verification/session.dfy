/** A running session: the per-frame handling of `Update` and whole
    sequences of frames between start-up and shutdown. */
module Session {
  import opened Geometry
  import opened GameSettings
  import opened WindowMode
  import opened GameRoot

  /** What happens to the window in one frame: either the key handling of
      `Update`, with which of the two window-mode keys were pressed and the
      display mode the adapter reports in that frame, or the user moving or
      resizing the window to new client bounds. */
  datatype Frame =
    | Keys(fullscreen: bool, borderless: bool, display: DisplayMode)
    | Moved(bounds: Rect)

  /** One frame. Keys: the fullscreen toggle runs first if its key was
      pressed, then the borderless toggle if its key was. A move takes effect
      while windowed; a fullscreen window is not moved. */
  function Update(g: Game, f: Frame): (r: Game)
    ensures f.Keys? && (f.fullscreen || f.borderless) ==> Valid(r.settings)
    ensures f.Keys? && !f.fullscreen && !f.borderless ==> r == g
    ensures f.Moved? ==> r.settings == g.settings && r.graphics == g.graphics
    ensures f.Moved? && !g.settings.isFullscreen ==> r.clientBounds == f.bounds
  {
    match f
    case Keys(fullscreen, borderless, display) =>
      var g1 := if fullscreen then ToggleFullscreen(g, display) else g;
      if borderless then ToggleBorderless(g1, display) else g1
    case Moved(b) =>
      if g.settings.isFullscreen then g
      else g.(windowPosition := Point(b.x, b.y), clientBounds := b)
  }

  /** The state after a sequence of frames. */
  function Run(g: Game, frames: seq<Frame>): Game
    decreases |frames|
  {
    if |frames| == 0 then g
    else Run(Update(g, frames[0]), frames[1..])
  }

  /** What a session's frames determine on their own, without the engine:
      the window mode, the windowed geometry, and the display mode the back
      buffer was sized from when fullscreen was last entered. */
  datatype View = View(mode: Mode, bounds: Rect, display: DisplayMode)

  /** The view of a state, given the display mode read on the last entry
      into fullscreen. */
  function ViewOf(g: Game, entered: DisplayMode): View {
    View(ModeOf(g.settings), WindowedBounds(g), entered)
  }

  /** One frame on the view: keys move the mode by the key table and, when
      they enter fullscreen, record that frame's display mode; a move while
      windowed replaces the windowed geometry. */
  function Step(v: View, f: Frame): View {
    match f
    case Keys(fullscreen, borderless, display) =>
      View(FrameKeys(v.mode, fullscreen, borderless), v.bounds,
           if FrameEnters(v.mode, fullscreen, borderless) then display else v.display)
    case Moved(b) =>
      if v.mode == Windowed then v.(bounds := b) else v
  }

  /** The view after a sequence of frames. */
  function Replay(v: View, frames: seq<Frame>): View
    decreases |frames|
  {
    if |frames| == 0 then v
    else Replay(Step(v, frames[0]), frames[1..])
  }

  /** From a valid state, one frame keeps the settings valid, moves the view
      exactly as `Step` does, and keeps the engine in agreement with the
      settings for the display mode the view records. */
  lemma UpdateKeeps(g: Game, f: Frame, entered: DisplayMode)
    requires Valid(g.settings)
    ensures Valid(Update(g, f).settings)
    ensures Update(g, f).settings.isVSync == g.settings.isVSync
    ensures Update(g, f).settings.isFixedTimeStep == g.settings.isFixedTimeStep
    ensures ModeOf(Update(g, f).settings) == Step(ViewOf(g, entered), f).mode
    ensures WindowedBounds(Update(g, f)) == Step(ViewOf(g, entered), f).bounds
    ensures Consistent(g, entered) ==> Consistent(Update(g, f), Step(ViewOf(g, entered), f).display)
  {
  }

  /** Any sequence of frames keeps `isBorderless ==> isFullscreen`. */
  lemma {:induction false} RunKeepsValid(g: Game, frames: seq<Frame>)
    requires Valid(g.settings)
    ensures Valid(Run(g, frames).settings)
    decreases |frames|
  {
    if |frames| > 0 {
      UpdateKeeps(g, frames[0], DisplayMode(0, 0));
      RunKeepsValid(Update(g, frames[0]), frames[1..]);
    }
  }

  /** Any sequence of frames keeps the vertical-sync and tick-mode settings,
      which the window-mode logic reads but never writes. */
  lemma {:induction false} RunKeepsPreferences(g: Game, frames: seq<Frame>)
    requires Valid(g.settings)
    ensures Run(g, frames).settings.isVSync == g.settings.isVSync
    ensures Run(g, frames).settings.isFixedTimeStep == g.settings.isFixedTimeStep
    decreases |frames|
  {
    if |frames| > 0 {
      UpdateKeeps(g, frames[0], DisplayMode(0, 0));
      RunKeepsPreferences(Update(g, frames[0]), frames[1..]);
    }
  }

  /** Any sequence of frames moves the settings through the modes exactly as
      the key table does. */
  lemma {:induction false} RunFollowsKeyTable(g: Game, frames: seq<Frame>, entered: DisplayMode)
    requires Valid(g.settings)
    ensures ModeOf(Run(g, frames).settings) == Replay(ViewOf(g, entered), frames).mode
    decreases |frames|
  {
    if |frames| > 0 {
      UpdateKeeps(g, frames[0], entered);
      RunFollowsKeyTable(Update(g, frames[0]), frames[1..], Step(ViewOf(g, entered), frames[0]).display);
    }
  }

  /** Any sequence of frames keeps the engine in agreement with the settings,
      for the display mode read on the last entry into fullscreen. */
  lemma {:induction false} RunKeepsConsistent(g: Game, frames: seq<Frame>, entered: DisplayMode)
    requires Valid(g.settings) && Consistent(g, entered)
    ensures Consistent(Run(g, frames), Replay(ViewOf(g, entered), frames).display)
    decreases |frames|
  {
    if |frames| > 0 {
      UpdateKeeps(g, frames[0], entered);
      RunKeepsConsistent(Update(g, frames[0]), frames[1..], Step(ViewOf(g, entered), frames[0]).display);
    }
  }

  /** Any sequence of frames keeps the windowed geometry as the view tracks
      it: toggles never change it, and only a move while windowed replaces it. */
  lemma {:induction false} RunTracksWindowedBounds(g: Game, frames: seq<Frame>, entered: DisplayMode)
    requires Valid(g.settings)
    ensures WindowedBounds(Run(g, frames)) == Replay(ViewOf(g, entered), frames).bounds
    decreases |frames|
  {
    if |frames| > 0 {
      UpdateKeeps(g, frames[0], entered);
      RunTracksWindowedBounds(Update(g, frames[0]), frames[1..], Step(ViewOf(g, entered), frames[0]).display);
    }
  }

  /** Only a move changes the windowed geometry the view tracks, and only
      an entry into fullscreen in a frame reading a new display mode changes
      the display it records. */
  lemma {:induction false} ReplayUnchangedBy(v: View, frames: seq<Frame>)
    ensures (forall i :: 0 <= i < |frames| ==> frames[i].Keys?) ==> Replay(v, frames).bounds == v.bounds
    ensures (forall i :: 0 <= i < |frames| && frames[i].Keys? ==> frames[i].display == v.display) ==>
      Replay(v, frames).display == v.display
    decreases |frames|
  {
    if |frames| > 0 {
      ReplayUnchangedBy(Step(v, frames[0]), frames[1..]);
      if forall i :: 0 <= i < |frames| ==> frames[i].Keys? {
        assert forall i :: 0 <= i < |frames[1..]| ==> frames[1..][i] == frames[i + 1];
      }
      if forall i :: 0 <= i < |frames| && frames[i].Keys? ==> frames[i].display == v.display {
        assert forall i :: 0 <= i < |frames[1..]| ==> frames[1..][i] == frames[i + 1];
      }
    }
  }

  /** A whole session, from start-up through any frames to shutdown: the
      record written back is valid, is in the mode the key table reaches from
      the normalised start mode, and holds the last windowed geometry, which
      is the loaded one when the window was never moved. */
  lemma SessionPersistsWindowedGeometry(g: Game, frames: seq<Frame>, display: DisplayMode)
    ensures Valid(UnloadContent(Run(Initialize(g, display), frames)))
    ensures UnloadContent(Run(Initialize(g, display), frames)).isVSync == g.settings.isVSync
    ensures UnloadContent(Run(Initialize(g, display), frames)).isFixedTimeStep == g.settings.isFixedTimeStep
    ensures ModeOf(UnloadContent(Run(Initialize(g, display), frames)))
         == Replay(View(ModeOf(Normalize(g.settings)), g.settings.Saved(), display), frames).mode
    ensures UnloadContent(Run(Initialize(g, display), frames)).Saved()
         == Replay(View(ModeOf(Normalize(g.settings)), g.settings.Saved(), display), frames).bounds
    ensures (forall i :: 0 <= i < |frames| ==> frames[i].Keys?) ==>
      UnloadContent(Run(Initialize(g, display), frames)).Saved() == g.settings.Saved()
  {
    var g0 := Initialize(g, display);
    RunTracksWindowedBounds(g0, frames, display);
    RunFollowsKeyTable(g0, frames, display);
    RunKeepsValid(g0, frames);
    RunKeepsPreferences(g0, frames);
    ReplayUnchangedBy(ViewOf(g0, display), frames);
  }

  /** A session whose frames all read the same display mode keeps the engine
      in agreement with the settings for that display from start-up on, when
      the engine starts windowed as it does by default. */
  lemma SessionKeepsConsistent(g: Game, frames: seq<Frame>, display: DisplayMode)
    requires !g.graphics.isFullScreen
    requires forall i :: 0 <= i < |frames| && frames[i].Keys? ==> frames[i].display == display
    ensures Consistent(Run(Initialize(g, display), frames), display)
  {
    var g0 := Initialize(g, display);
    RunKeepsConsistent(g0, frames, display);
    ReplayUnchangedBy(ViewOf(g0, display), frames);
  }

  /** Windowed at (100, 100) with size 800x600: the fullscreen key twice
      returns the window to (100, 100, 800, 600). */
  lemma ScenarioFullscreenTwice(g: Game, display: DisplayMode)
    requires !g.settings.isFullscreen && !g.settings.isBorderless
    requires g.clientBounds == Rect(100, 100, 800, 600)
    ensures ToggleFullscreen(g, display).settings.isFullscreen
    ensures ToggleFullscreen(g, display).settings.Saved() == Rect(100, 100, 800, 600)
    ensures !ToggleFullscreen(ToggleFullscreen(g, display), display).settings.isFullscreen
    ensures ToggleFullscreen(ToggleFullscreen(g, display), display).clientBounds == Rect(100, 100, 800, 600)
  {
  }

  /** Windowed, then the borderless key, then the fullscreen key: borderless
      is cleared but the game stays fullscreen, in exclusive mode. */
  lemma ScenarioBorderlessThenFullscreen(g: Game, display: DisplayMode)
    requires !g.settings.isFullscreen && !g.settings.isBorderless
    ensures ToggleBorderless(g, display).settings.isBorderless
    ensures ToggleBorderless(g, display).settings.isFullscreen
    ensures !ToggleFullscreen(ToggleBorderless(g, display), display).settings.isBorderless
    ensures ToggleFullscreen(ToggleBorderless(g, display), display).settings.isFullscreen
    ensures ToggleFullscreen(ToggleBorderless(g, display), display).graphics.hardwareModeSwitch
  {
  }
}
