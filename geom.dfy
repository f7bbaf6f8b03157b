/** The geometric value types the page and shape code works with. Lengths
    are only assigned and swapped there, so they are plain integers. */
module Geom {

  /** An absolute length. */
  type Length = int

  /** A 2D offset; both components may be negative. */
  datatype Point = Point(x: Length, y: Length)

  /** A 2D extent. */
  datatype Size = Size(width: Length, height: Length)

  /** A length made of a part relative to some reference length and an
      absolute part; it is resolved later by the layout engine, never here. */
  datatype Linear = Linear(rel: int, abs: Length)

  /** Four independently settable values, one per side. */
  datatype Sides<T> = Sides(left: T, top: T, right: T, bottom: T)

  /** The same value on all four sides (`Sides::uniform`). */
  function Uniform<T>(value: T): Sides<T> {
    Sides(value, value, value, value)
  }

  /** Both components are non-negative, so the size is a proper extent. */
  predicate IsExtent(s: Size) {
    s.width >= 0 && s.height >= 0
  }
}
