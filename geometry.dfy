/** Integer sizes and rectangles, as the toolkit's QSize and QRect are used by the layout code.
    A rectangle is kept as its top-left corner plus its size. */
module Geometry {

  datatype Size = Size(width: int, height: int) {

    /** Component-wise sum (QSize's operator+). */
    function Plus(other: Size): Size
    {
      Size(width + other.width, height + other.height)
    }

    /** The smallest size at least as large as both this and `other` in each dimension
        (QSize::expandedTo). */
    function ExpandedTo(other: Size): (r: Size)
      ensures r.AtLeast(this) && r.AtLeast(other)
      ensures r.width == width || r.width == other.width
      ensures r.height == height || r.height == other.height
    {
      Size(if width >= other.width then width else other.width,
           if height >= other.height then height else other.height)
    }

    /** Not smaller than `other` in either dimension. */
    predicate AtLeast(other: Size) {
      width >= other.width && height >= other.height
    }
  }

  datatype Rect = Rect(x: int, y: int, width: int, height: int) {

    /** The rectangle's width and height (QRect::size). */
    function Dimensions(): Size {
      Size(width, height)
    }

    /** The same top-left corner with a new size (QRect::setSize). */
    function WithSize(s: Size): Rect
    {
      Rect(x, y, s.width, s.height)
    }
  }
}
