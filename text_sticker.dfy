/**
 * The text sticker of the photo editor: its snapshot/restore pair, the
 * padding around its rendered text image, and `changeSize(to:)`, which
 * takes the view transform off, re-centres the sticker's rectangles on a
 * new content size and puts the transform back.
 */
module TextSticker {
  import opened Graphics

  /** Padding between the sticker's border and its text image, on every side. */
  const EdgeInset: real := 10.0

  /** `CGFloat.pi`, written out to double precision. */
  const Pi: real := 3.141592653589793

  /** `zl.toPi`: an angle in degrees converted to radians. */
  function ToPi(degrees: real): real
  {
    degrees * Pi / 180.0
  }

  /** `ZLInputTextStyle`, an opaque style token. */
  datatype TextStyle = TextStyle(tag: nat)

  /** A rasterised text image: which bitmap it is, and its size in points. */
  datatype Image = Image(id: nat, size: Size)

  /**
   * A view transform made of a uniform scale, a rotation and a translation.
   * `CGAffineTransform.scaledBy` and `rotated` concatenate the new scale or
   * rotation BEFORE the existing transform, so they change only the linear
   * part and leave the translation as it is; a uniform scale commutes with
   * every rotation, so that linear part stays `scale` times a rotation by
   * `angle` radians.
   */
  datatype AffineTransform = AffineTransform(scale: real, angle: real, tx: real, ty: real) {

    /** `scaledBy(x: s, y: s)`. */
    function ScaledBy(s: real): AffineTransform
    {
      this.(scale := scale * s)
    }

    /** `rotated(by: a)`. */
    function Rotated(a: real): AffineTransform
    {
      this.(angle := angle + a)
    }
  }

  const Identity: AffineTransform := AffineTransform(1.0, 0.0, 0.0, 0.0)

  /** The transform of a sticker whose state is fully applied on top of a translation by `p`. */
  function Composed(originScale: real, originAngle: real, gesScale: real, gesRotation: real, p: Point): AffineTransform
  {
    AffineTransform(originScale * gesScale, gesRotation + ToPi(originAngle), p.x, p.y)
  }

  /** The four steps that open `changeSize(to:)`: unscale by both scales, unrotate by both angles. */
  function Reverted(t: AffineTransform, originScale: real, gesScale: real, gesRotation: real, originAngle: real): AffineTransform
    requires originScale != 0.0 && gesScale != 0.0
  {
    t.ScaledBy(1.0 / originScale).ScaledBy(1.0 / gesScale).Rotated(-gesRotation).Rotated(-ToPi(originAngle))
  }

  /** The four steps that close `changeSize(to:)`: rescale by both scales, rerotate by both angles. */
  function Reapplied(t: AffineTransform, originScale: real, gesScale: real, gesRotation: real, originAngle: real): AffineTransform
  {
    t.ScaledBy(originScale).ScaledBy(gesScale).Rotated(gesRotation).Rotated(ToPi(originAngle))
  }

  /** Scaling by `1/s` is dividing by `s`. */
  lemma ScaleByInverse(x: real, s: real)
    requires s != 0.0
    ensures x * (1.0 / s) == x / s
  {
  }

  /** Putting the transform back undoes taking it off: `changeSize` leaves the transform as it found it. */
  lemma ReappliedReverted(t: AffineTransform, originScale: real, gesScale: real, gesRotation: real, originAngle: real)
    requires originScale != 0.0 && gesScale != 0.0
    ensures Reapplied(Reverted(t, originScale, gesScale, gesRotation, originAngle),
                      originScale, gesScale, gesRotation, originAngle) == t
  {
    var k := t.scale;
    calc {
      k * (1.0 / originScale) * (1.0 / gesScale) * originScale * gesScale;
      { ScaleByInverse(k, originScale); }
      k / originScale * (1.0 / gesScale) * originScale * gesScale;
      { ScaleByInverse(k / originScale, gesScale); }
      k / originScale / gesScale * originScale * gesScale;
      k;
    }
  }

  /**
   * When the sticker shows exactly its composed transform, taking the
   * transform off leaves only the translation, so the rectangles are
   * recomputed under the identity when there is none.
   */
  lemma RevertedComposed(originScale: real, originAngle: real, gesScale: real, gesRotation: real, p: Point)
    requires originScale != 0.0 && gesScale != 0.0
    ensures Reverted(Composed(originScale, originAngle, gesScale, gesRotation, p),
                     originScale, gesScale, gesRotation, originAngle)
            == AffineTransform(1.0, 0.0, p.x, p.y)
    ensures p == ZeroPoint ==>
              Reverted(Composed(originScale, originAngle, gesScale, gesRotation, p),
                       originScale, gesScale, gesRotation, originAngle) == Identity
  {
    var k := originScale * gesScale;
    calc {
      k * (1.0 / originScale) * (1.0 / gesScale);
      { ScaleByInverse(k, originScale); }
      k / originScale * (1.0 / gesScale);
      { ScaleByInverse(k / originScale, gesScale); }
      k / originScale / gesScale;
      1.0;
    }
  }

  /**
   * The rectangle of size `newSize` with the same centre as `r`: what
   * `changeSize(to:)` makes of the live frame and, separately, of the
   * origin frame.
   */
  function Recentered(r: Rect, newSize: Size): (c: Rect)
    ensures c.MidX() == r.MidX() && c.MidY() == r.MidY()
    ensures c.size == newSize
  {
    var center := Point(r.MidX(), r.MidY());
    Rect(Point(center.x - newSize.width / 2.0, center.y - newSize.height / 2.0), newSize)
  }

  /** Re-centring on one size and then on the original size gives the original rectangle back. */
  lemma RecenteredRoundTrip(r: Rect, newSize: Size)
    ensures Recentered(Recentered(r, newSize), r.size) == r
  {
  }

  /** A 100 by 100 frame at the origin, resized to 50 by 50, keeps its centre at (50, 50). */
  lemma RecenteredExample()
    ensures Recentered(Rect(ZeroPoint, Size(100.0, 100.0)), Size(50.0, 50.0))
            == Rect(Point(25.0, 25.0), Size(50.0, 50.0))
  {
  }

  /** Re-centring twice is re-centring once on the last size. */
  lemma RecenteredTwice(r: Rect, first: Size, second: Size)
    ensures Recentered(Recentered(r, first), second) == Recentered(r, second)
  {
  }

  /** `calculateSize(image:)`: the sticker size that holds `image` with `EdgeInset` on every side. */
  function CalculateSize(image: Image): Size
  {
    Size(image.size.width + EdgeInset * 2.0, image.size.height + EdgeInset * 2.0)
  }

  /**
   * The image view's frame, the sticker's bounds inset by `EdgeInset`,
   * is exactly the image's size when the sticker was sized by
   * `CalculateSize`.
   */
  lemma CalculatedSizeFitsImage(image: Image)
    requires image.size.width >= 0.0 && image.size.height >= 0.0
    ensures CalculateSize(image).width == image.size.width + 2.0 * EdgeInset
    ensures CalculateSize(image).height == image.size.height + 2.0 * EdgeInset
    ensures InsetBy(BoundsOf(CalculateSize(image)), EdgeInset, EdgeInset)
            == Some(Rect(Point(EdgeInset, EdgeInset), image.size))
  {
  }

  /** `ZLTextStickerState`: the ten fields that describe a text sticker. */
  datatype TextStickerState = TextStickerState(
    text: string,
    textColor: Color,
    style: TextStyle,
    image: Image,
    originScale: real,
    originAngle: real,
    originFrame: Rect,
    gesScale: real,
    gesRotation: real,
    totalTranslationPoint: Point)

  /**
   * `ZLTextStickerView`, with the fields of its base sticker class that it
   * reads and writes. `frame` is the rectangle the view reports as its frame
   * while its rectangles are recomputed, that is, under the transform that is
   * in force between the two halves of `changeSize(to:)`.
   */
  class TextStickerView {
    var text: string
    var textColor: Color
    var style: TextStyle
    var image: Image
    var originScale: real
    var originAngle: real
    var originFrame: Rect
    var gesScale: real
    var gesRotation: real
    var totalTranslationPoint: Point
    var showBorder: bool

    var transform: AffineTransform
    var frame: Rect
    /** The frame of the image view; `None` stands for `CGRect.null`. */
    var imageViewFrame: Option<Rect>
    var optionViewFrame: Rect

    /**
     * `init(text:textColor:style:image:...)`. The base initialiser stores the
     * six geometric values and the border flag; the frame, the transform and
     * the subview frames are laid out later by the base class.
     */
    constructor (text: string, textColor: Color, style: TextStyle, image: Image,
                 originScale: real, originAngle: real, originFrame: Rect,
                 gesScale: real := 1.0, gesRotation: real := 0.0,
                 totalTranslationPoint: Point := ZeroPoint, showBorder: bool := true)
      ensures this.text == text && this.textColor == textColor && this.style == style && this.image == image
      ensures this.originScale == originScale && this.originAngle == originAngle && this.originFrame == originFrame
      ensures this.gesScale == gesScale && this.gesRotation == gesRotation
      ensures this.totalTranslationPoint == totalTranslationPoint && this.showBorder == showBorder
    {
      this.text := text;
      this.textColor := textColor;
      this.style := style;
      this.image := image;
      this.originScale := originScale;
      this.originAngle := originAngle;
      this.originFrame := originFrame;
      this.gesScale := gesScale;
      this.gesRotation := gesRotation;
      this.totalTranslationPoint := totalTranslationPoint;
      this.showBorder := showBorder;
    }

    /** `init(state:)`: a sticker restored from a snapshot, shown without its border. */
    constructor FromState(state: TextStickerState)
      ensures State() == state
      ensures !showBorder
    {
      text := state.text;
      textColor := state.textColor;
      style := state.style;
      image := state.image;
      originScale := state.originScale;
      originAngle := state.originAngle;
      originFrame := state.originFrame;
      gesScale := state.gesScale;
      gesRotation := state.gesRotation;
      totalTranslationPoint := state.totalTranslationPoint;
      showBorder := false;
    }

    /** The `state` getter: a snapshot of the ten sticker fields. */
    function State(): TextStickerState
      reads this
    {
      TextStickerState(text, textColor, style, image, originScale, originAngle, originFrame,
                       gesScale, gesRotation, totalTranslationPoint)
    }

    /** `setupUIFrameWhenFirstLayout`: the image view sits `EdgeInset` inside the border, the option view fills the sticker. */
    method SetupUIFrameWhenFirstLayout()
      modifies this`imageViewFrame, this`optionViewFrame
      ensures imageViewFrame == InsetBy(BoundsOf(frame.size), EdgeInset, EdgeInset)
      ensures optionViewFrame == BoundsOf(frame.size)
    {
      imageViewFrame := InsetBy(BoundsOf(frame.size), EdgeInset, EdgeInset);
      optionViewFrame := BoundsOf(frame.size);
    }

    /**
     * `changeSize(to:)`. Only the transform, the two frames and the subview
     * frames are assigned; every other field keeps its value. The ghost
     * result is the transform in force while the frames are recomputed.
     */
    method ChangeSize(newSize: Size) returns (ghost layoutTransform: AffineTransform)
      requires originScale != 0.0 && gesScale != 0.0
      modifies this`transform, this`frame, this`originFrame, this`imageViewFrame, this`optionViewFrame
      ensures layoutTransform == Reverted(old(transform), originScale, gesScale, gesRotation, originAngle)
      ensures transform == old(transform)
      ensures frame == Recentered(old(frame), newSize)
      ensures originFrame == Recentered(old(originFrame), newSize)
      ensures imageViewFrame == InsetBy(BoundsOf(newSize), EdgeInset, EdgeInset)
      ensures optionViewFrame == BoundsOf(newSize)
    {
      // Take the zoom scale, the gesture scale and both rotations off.
      transform := transform.ScaledBy(1.0 / originScale);
      transform := transform.ScaledBy(1.0 / gesScale);
      transform := transform.Rotated(-gesRotation);
      transform := transform.Rotated(-ToPi(originAngle));
      layoutTransform := transform;

      // The live frame keeps its centre and takes the new size.
      var center := Point(frame.MidX(), frame.MidY());
      var f := frame;
      f := f.(origin := f.origin.(x := center.x - newSize.width / 2.0));
      f := f.(origin := f.origin.(y := center.y - newSize.height / 2.0));
      f := f.(size := newSize);
      frame := f;

      // So does the origin frame, around its own centre.
      var oc := Point(originFrame.MidX(), originFrame.MidY());
      var of := originFrame;
      of := of.(origin := of.origin.(x := oc.x - newSize.width / 2.0));
      of := of.(origin := of.origin.(y := oc.y - newSize.height / 2.0));
      of := of.(size := newSize);
      originFrame := of;

      imageViewFrame := InsetBy(BoundsOf(frame.size), EdgeInset, EdgeInset);
      optionViewFrame := BoundsOf(frame.size);

      // Put the scales and rotations back.
      transform := transform.ScaledBy(originScale);
      transform := transform.ScaledBy(gesScale);
      transform := transform.Rotated(gesRotation);
      transform := transform.Rotated(ToPi(originAngle));
      ReappliedReverted(old(transform), originScale, gesScale, gesRotation, originAngle);
    }
  }
}
