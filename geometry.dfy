/**
 * The toolkit's geometry value types: a point, a size and a rectangle,
 * all in whole pixels.
 */
module Geometry {

  datatype Point = Point(x: int, y: int)
  {
    /** This point shifted by (dx, dy). */
    function Translated(dx: int, dy: int): Point
    {
      Point(x + dx, y + dy)
    }
  }

  datatype Size = Size(width: int, height: int)

  /** A rectangle given by its top-left corner and its dimensions. */
  datatype Rectangle = Rectangle(x: int, y: int, width: int, height: int)
  {
    function TopLeft(): Point
    {
      Point(x, y)
    }

    function Dimensions(): Size
    {
      Size(width, height)
    }

    /** This rectangle moved by (dx, dy); its size is kept. */
    function Translated(dx: int, dy: int): Rectangle
    {
      Rectangle(x + dx, y + dy, width, height)
    }
  }
}
