/** The persisted settings record and the start-up normalisation that makes
    it well-formed. */
module GameSettings {
  import opened Geometry

  /** The fields of `Settings.json`. `x`, `y`, `width` and `height` are the
      last windowed geometry; they are only meaningful while windowed and are
      kept untouched while fullscreen so that they can be restored. */
  datatype Settings = Settings(
    isFixedTimeStep: bool,
    isVSync: bool,
    isFullscreen: bool,
    isBorderless: bool,
    x: int,
    y: int,
    width: int,
    height: int)
  {
    /** The windowed geometry the record remembers. */
    function Saved(): Rect {
      Rect(x, y, width, height)
    }

    /** The same record remembering the geometry `b` instead. */
    function WithSaved(b: Rect): (s: Settings)
      ensures s.Saved() == b
      ensures s.isFixedTimeStep == isFixedTimeStep && s.isVSync == isVSync
      ensures s.isFullscreen == isFullscreen && s.isBorderless == isBorderless
    {
      this.(x := b.x, y := b.y, width := b.width, height := b.height)
    }
  }

  /** Borderless is a sub-mode of fullscreen: a record that claims to be
      borderless must also claim to be fullscreen. */
  predicate Valid(s: Settings) {
    s.isBorderless ==> s.isFullscreen
  }

  /** Start-up normalisation: a borderless record is forced fullscreen. It is
      the least change that makes the record valid: borderless is never
      cleared, fullscreen is never cleared, and a valid record is kept as is. */
  function Normalize(s: Settings): (r: Settings)
    ensures Valid(r)
    ensures r.isBorderless == s.isBorderless
    ensures s.isFullscreen ==> r.isFullscreen
    ensures Valid(s) ==> r == s
    ensures r.(isFullscreen := s.isFullscreen) == s
  {
    s.(isFullscreen := s.isFullscreen || s.isBorderless)
  }

  /** Normalising twice is normalising once. */
  lemma NormalizeIdempotent(s: Settings)
    ensures Normalize(Normalize(s)) == Normalize(s)
  {
  }
}
