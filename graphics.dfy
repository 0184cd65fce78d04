/**
 * Core Graphics value types shared by the text sticker and the watermark:
 * points, sizes and rectangles over `real` (the model's stand-in for
 * `CGFloat`), colours, and `CGRect.insetBy`.
 */
module Graphics {

  datatype Option<+T> = None | Some(value: T)

  /** `CGPoint`. */
  datatype Point = Point(x: real, y: real)

  const ZeroPoint: Point := Point(0.0, 0.0)

  /** `CGSize`. */
  datatype Size = Size(width: real, height: real)

  /** `CGRect`: an origin and a size; a negative width or height is allowed, as in Core Graphics. */
  datatype Rect = Rect(origin: Point, size: Size) {

    function MidX(): real { origin.x + size.width / 2.0 }

    function MidY(): real { origin.y + size.height / 2.0 }

    /** True when neither dimension is negative (`CGRect.standardized` leaves it as it is). */
    predicate IsStandard() { size.width >= 0.0 && size.height >= 0.0 }

    /** `CGRect.standardized`: the same area, with a non-negative width and height. */
    function Standardized(): (r: Rect)
      ensures r.IsStandard()
      ensures r.MidX() == MidX() && r.MidY() == MidY()
      ensures IsStandard() ==> r == this
    {
      var x := if size.width < 0.0 then origin.x + size.width else origin.x;
      var y := if size.height < 0.0 then origin.y + size.height else origin.y;
      var width := if size.width < 0.0 then -size.width else size.width;
      var height := if size.height < 0.0 then -size.height else size.height;
      Rect(Point(x, y), Size(width, height))
    }
  }

  /** The rectangle of the given size whose origin is the zero point, as `UIView.bounds` is. */
  function BoundsOf(size: Size): Rect
  {
    Rect(ZeroPoint, size)
  }

  /**
   * `CGRect.insetBy(dx:dy:)`: shrinks a rectangle by `dx` on its left and
   * right edges and by `dy` on its top and bottom edges, after
   * standardizing it. When the result would have a negative width or
   * height, Core Graphics returns `CGRect.null`, written `None` here.
   */
  function InsetBy(r: Rect, dx: real, dy: real): (inset: Option<Rect>)
    ensures inset.Some? <==>
              r.Standardized().size.width >= 2.0 * dx && r.Standardized().size.height >= 2.0 * dy
    ensures inset.Some? ==>
              inset.value.IsStandard()
              && inset.value.MidX() == r.MidX() && inset.value.MidY() == r.MidY()
              && inset.value.size == Size(r.Standardized().size.width - 2.0 * dx,
                                          r.Standardized().size.height - 2.0 * dy)
  {
    var s := r.Standardized();
    var width := s.size.width - 2.0 * dx;
    var height := s.size.height - 2.0 * dy;
    if width < 0.0 || height < 0.0 then None
    else Some(Rect(Point(s.origin.x + dx, s.origin.y + dy), Size(width, height)))
  }

  /** `UIColor`, as its red, green, blue and alpha components. */
  datatype Color = Color(red: real, green: real, blue: real, alpha: real) {

    /** `UIColor.withAlphaComponent`: the same colour with its alpha replaced. */
    function WithAlphaComponent(a: real): Color
    {
      this.(alpha := a)
    }
  }

  const Black: Color := Color(0.0, 0.0, 0.0, 1.0)
}
