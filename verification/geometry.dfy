/** Screen geometry as the engine reports it: window positions, client
    rectangles and the size of the adapter's current display mode. The
    coordinates are C# `int`s in the program; no arithmetic is done on them,
    so they are modelled as unbounded integers. */
module Geometry {

  /** A window position in screen coordinates. */
  datatype Point = Point(x: int, y: int)

  /** A client-area rectangle, as `Window.ClientBounds` reports it. */
  datatype Rect = Rect(x: int, y: int, width: int, height: int)

  /** The size of the adapter's current display mode. The program only reads
      it when entering fullscreen, so the model takes it as an input. */
  datatype DisplayMode = DisplayMode(width: int, height: int)
}
