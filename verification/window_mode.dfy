/** The three window modes the settings flags encode, and the key table the
    game implements on them. This is an independent reference for the
    flag-level toggles in `GameRoot`: the lemmas there show that the flag
    updates follow this table. */
module WindowMode {
  import opened GameSettings

  /** Windowed, exclusive (hardware mode switch) fullscreen, or borderless
      fullscreen. */
  datatype Mode = Windowed | Exclusive | Borderless

  /** The mode a settings record is in. For a valid record the two flags
      encode exactly one mode. */
  function ModeOf(s: Settings): Mode {
    if !s.isFullscreen then Windowed
    else if s.isBorderless then Borderless
    else Exclusive
  }

  /** The flags (`isFullscreen`, `isBorderless`) that encode mode `m`. */
  function FlagsOf(m: Mode): (bool, bool) {
    match m
    case Windowed => (false, false)
    case Exclusive => (true, false)
    case Borderless => (true, true)
  }

  /** `s` with its mode flags replaced by those of `m`. */
  function WithMode(s: Settings, m: Mode): (r: Settings)
    ensures Valid(r)
    ensures r.(isFullscreen := s.isFullscreen, isBorderless := s.isBorderless) == s
  {
    s.(isFullscreen := FlagsOf(m).0, isBorderless := FlagsOf(m).1)
  }

  /** Encoding and decoding modes are inverse: every mode is encoded by a
      valid record, and a valid record is determined by its mode. */
  lemma ModeRoundTrip(s: Settings, m: Mode)
    ensures ModeOf(WithMode(s, m)) == m
    ensures Valid(s) <==> WithMode(s, ModeOf(s)) == s
  {
  }

  /** The fullscreen key (Alt+Enter): windowed and exclusive swap, and
      borderless drops to exclusive fullscreen rather than to windowed. */
  function FullscreenKey(m: Mode): Mode {
    match m
    case Windowed => Exclusive
    case Exclusive => Windowed
    case Borderless => Exclusive
  }

  /** The borderless key (F11): borderless goes back to windowed, and both
      other modes go to borderless. */
  function BorderlessKey(m: Mode): Mode {
    match m
    case Windowed => Borderless
    case Exclusive => Borderless
    case Borderless => Windowed
  }

  /** One frame's key handling: the fullscreen key is looked at first, then
      the borderless key. */
  function FrameKeys(m: Mode, fullscreenPressed: bool, borderlessPressed: bool): Mode {
    var m1 := if fullscreenPressed then FullscreenKey(m) else m;
    if borderlessPressed then BorderlessKey(m1) else m1
  }

  /** Whether one frame's key handling enters fullscreen from windowed: the
      fullscreen key pressed while windowed, or the borderless key pressed
      while windowed after the fullscreen key was handled. */
  predicate FrameEnters(m: Mode, fullscreenPressed: bool, borderlessPressed: bool) {
    var m1 := if fullscreenPressed then FullscreenKey(m) else m;
    (fullscreenPressed && m == Windowed) || (borderlessPressed && m1 == Windowed)
  }

  /** A frame that enters fullscreen ends fullscreen, and a frame that ends
      fullscreen either entered it or started fullscreen. Fullscreen is
      entered at most once per frame; a frame that starts fullscreen
      re-enters it only after the fullscreen key left it. */
  lemma FrameEntersExactly(m: Mode, fullscreenPressed: bool, borderlessPressed: bool)
    ensures FrameEnters(m, fullscreenPressed, borderlessPressed) ==>
      FrameKeys(m, fullscreenPressed, borderlessPressed) != Windowed
    ensures FrameKeys(m, fullscreenPressed, borderlessPressed) != Windowed ==>
      FrameEnters(m, fullscreenPressed, borderlessPressed) || m != Windowed
    ensures m != Windowed && FrameEnters(m, fullscreenPressed, borderlessPressed) ==>
      FullscreenKey(m) == Windowed && fullscreenPressed
  {
  }

  /** Consequences of the key table: the fullscreen key always leaves
      borderless mode, the borderless key always enters or leaves it, and
      pressing either key twice is not the identity on every mode. */
  lemma KeyTableFacts(m: Mode)
    ensures FullscreenKey(m) != Borderless
    ensures (BorderlessKey(m) == Borderless) <==> (m != Borderless)
    ensures FullscreenKey(FullscreenKey(m)) == m <==> m != Borderless
    ensures BorderlessKey(BorderlessKey(m)) == m <==> m != Exclusive
  {
  }
}
