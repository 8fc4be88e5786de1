/**
 * The pieces of Android's graphics geometry that the library reads and
 * writes: integer rectangles (`android.graphics.Rect`), float rectangles
 * (`RectF`, with Float modelled as an exact `real`), points and the
 * position boxes of views in a view hierarchy.
 */
module Geometry {

  /** `android.graphics.Rect`: integer edges; width and height may be negative. */
  datatype Rect = Rect(left: int, top: int, right: int, bottom: int) {

    function Width(): int { right - left }

    function Height(): int { bottom - top }

    /** Neither side is empty or inverted. */
    predicate HasArea() { Width() > 0 && Height() > 0 }
  }

  /** The rectangle that `Rect.setEmpty()` leaves behind. */
  const EMPTY_RECT := Rect(0, 0, 0, 0)

  /** `android.graphics.RectF`, with Float as `real`. */
  datatype RectF = RectF(left: real, top: real, right: real, bottom: real)

  /** `android.graphics.Point`. */
  datatype Point = Point(x: int, y: int)

  /**
   * A view as seen by `relativeTo`: an identity and its `left`/`top`
   * offset inside its own parent.
   */
  datatype ViewBox = ViewBox(id: int, left: int, top: int)

  /**
   * A mutable `android.graphics.Rect`, the `outRect` that an item
   * decoration fills in place.
   */
  class MutableRect {
    var left: int
    var top: int
    var right: int
    var bottom: int

    function Value(): Rect
      reads this
    {
      Rect(left, top, right, bottom)
    }

    constructor (r: Rect)
      ensures Value() == r
    {
      left, top, right, bottom := r.left, r.top, r.right, r.bottom;
    }

    /** `Rect.setEmpty()`. */
    method SetEmpty()
      modifies this
      ensures Value() == EMPTY_RECT
    {
      left, top, right, bottom := 0, 0, 0, 0;
    }
  }
}
