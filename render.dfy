/**
 * The layout arithmetic of rendering one side: the canvas size, where the scaled
 * base image goes, and the mark's guide box and strike lines in mark space. The
 * canvas is an object whose width and height the renderer overwrites; the pixels
 * themselves are not modelled: a render yields a Frame, the list of what is drawn where.
 */
module Render {
  import opened Wrappers
  import opened Geometry
  import opened Marking

  /** Natural size of a decoded image. */
  datatype ImageSize = ImageSize(width: nat, height: nat)

  /** Text measurement: advance width and ascent + descent. */
  datatype Metrics = Metrics(width: real, height: real)

  datatype Box = Box(x: real, y: real, width: real, height: real)

  datatype Segment = Segment(from: Point, to: Point)

  /** The mark in its own coordinates (origin at the anchor, axes along the mark). */
  datatype Mark = Mark(guide: Box, top: Segment, bottom: Segment)

  /** Everything one render draws, in drawing order after the white background. */
  datatype Frame = Frame(
    width: nat,
    height: nat,
    image: Box,
    anchor: Point,
    rotation: real,
    mark: Mark,
    strokeWidth: real,
    text: string,
    fontSize: real)

  const CanvasWidth: nat := 1500
  const LineExtension: real := 50.0
  const LineSpacingFactor: real := 1.2

  /** Canvas height at the image's aspect ratio, before the canvas attribute truncates it. */
  function AspectHeight(image: ImageSize): (t: real)
    requires image.width > 0
    ensures t >= 0.0 && t * image.width as real == (CanvasWidth * image.height) as real
  {
    var ratio := image.height as real / image.width as real;
    assert ratio * image.width as real == image.height as real;
    CanvasWidth as real * ratio
  }

  /**
   * The canvas height actually stored: the height attribute is an unsigned integer, so
   * the assigned aspect height is truncated.
   */
  function CanvasHeight(image: ImageSize): (h: nat)
    requires image.width > 0
    ensures h as real <= AspectHeight(image) < h as real + 1.0
  {
    AspectHeight(image).Floor
  }

  /** The truncation loses nothing exactly when the image width divides 1500 times its height. */
  lemma WholeAspect(image: ImageSize)
    requires image.width > 0
    ensures CanvasHeight(image) as real == AspectHeight(image) <==> (CanvasWidth * image.height) % image.width == 0
  {
    var n, w := CanvasWidth * image.height, image.width;
    var t := AspectHeight(image);
    DivisionCast(n, w);
    QuotientBounds(t, (n / w) as real, (n % w) as real, w as real);
    assert CanvasHeight(image) == n / w;
  }

  /** Euclidean division of naturals, carried over to the reals. */
  lemma DivisionCast(n: nat, w: nat)
    requires w > 0
    ensures n as real == (n / w) as real * w as real + (n % w) as real
    ensures 0.0 <= (n % w) as real < w as real
  {
    var q, r := n / w, n % w;
    assert n == q * w + r;
    CastProduct(q, w);
  }

  lemma CastProduct(a: int, b: int)
    ensures (a * b) as real == a as real * b as real
  {
  }

  /** If t * w == q * w + r with 0 <= r < w, then t lies in [q, q + 1) and equals q only for r = 0. */
  lemma QuotientBounds(t: real, q: real, r: real, w: real)
    requires w > 0.0 && 0.0 <= r < w && t * w == q * w + r
    ensures q <= t < q + 1.0
    ensures t == q <==> r == 0.0
  {
    Distribute(t, q, w);
    ProductSigns(t - q, w, r);
  }

  lemma Distribute(t: real, q: real, w: real)
    ensures (t - q) * w == t * w - q * w
  {
  }

  lemma PositiveProduct(a: real, w: real)
    requires a >= 0.0 && w > 0.0
    ensures a * w >= 0.0 && (a > 0.0 ==> a * w > 0.0)
  {
  }

  /** Reading the factor a back from the product p == a * w with w > 0. */
  lemma ProductSigns(a: real, w: real, p: real)
    requires w > 0.0 && p == a * w
    ensures p >= 0.0 ==> a >= 0.0
    ensures p < w ==> a < 1.0
    ensures p == 0.0 <==> a == 0.0
  {
    if a >= 1.0 {
      assert p - w == (a - 1.0) * w;
      PositiveProduct(a - 1.0, w);
    } else if a < 0.0 {
      assert p == -((-a) * w);
      PositiveProduct(-a, w);
    } else if a > 0.0 {
      PositiveProduct(a, w);
    }
  }

  /**
   * A length `size` no longer than `t` centred in a canvas of truncated length h, where
   * h <= t < h + 1, overhangs each edge by less than half a pixel, and not at all when h == t.
   */
  lemma Centring(h: real, t: real, size: real)
    requires h <= t < h + 1.0 && 0.0 <= size <= t
    ensures -0.5 < (h - size) / 2.0 && (h - size) / 2.0 + size < h + 0.5
    ensures h == t ==> 0.0 <= (h - size) / 2.0 && (h - size) / 2.0 + size <= h
  {
  }

  /** Scaling a non-negative length by a factor in (0, 1] does not lengthen it. */
  lemma ScaledAtMost(t: real, scale: real)
    requires t >= 0.0 && 0.0 < scale <= 1.0
    ensures 0.0 <= t * scale <= t
  {
    assert t * scale <= t * 1.0;
  }

  /**
   * Where the base image is drawn: full canvas width times the scale, aspect height
   * times the scale, centred on both axes of the canvas.
   */
  function ImageBox(image: ImageSize, scale: real): (b: Box)
    requires image.width > 0
    ensures b.width == CanvasWidth as real * scale && b.height == AspectHeight(image) * scale
    ensures b.x + b.width + b.x == CanvasWidth as real
    ensures b.y + b.height + b.y == CanvasHeight(image) as real
  {
    var width := CanvasWidth as real * scale;
    var height := AspectHeight(image) * scale;
    Box((CanvasWidth as real - width) / 2.0, (CanvasHeight(image) as real - height) / 2.0, width, height)
  }

  /** The drawn image keeps the aspect ratio of the source image. */
  lemma ImageKeepsAspect(image: ImageSize, scale: real)
    requires image.width > 0
    ensures ImageBox(image, scale).height * image.width as real == ImageBox(image, scale).width * image.height as real
  {
    var t, w, hh := AspectHeight(image), image.width as real, image.height as real;
    assert t * w == CanvasWidth as real * hh;
    calc {
      ImageBox(image, scale).height * w;
      (t * scale) * w;
      { Commute(t, scale, w); }
      (t * w) * scale;
      (CanvasWidth as real * hh) * scale;
      { Commute(CanvasWidth as real, hh, scale); }
      (CanvasWidth as real * scale) * hh;
      ImageBox(image, scale).width * hh;
    }
  }

  lemma Commute(a: real, b: real, c: real)
    ensures (a * b) * c == (a * c) * b
  {
  }

  /**
   * A box of width full * scale and height t * scale centred in a full × h canvas, where
   * h is t truncated, stays within the width and overhangs the height by under half a pixel.
   */
  lemma CentredBox(full: real, h: real, t: real, scale: real, b: Box)
    requires full >= 0.0 && h <= t < h + 1.0 && t >= 0.0 && 0.0 < scale <= 1.0
    requires b == Box((full - full * scale) / 2.0, (h - t * scale) / 2.0, full * scale, t * scale)
    ensures 0.0 <= b.x && b.x + b.width <= full
    ensures -0.5 < b.y && b.y + b.height < h + 0.5
    ensures h == t ==> 0.0 <= b.y && b.y + b.height <= h
  {
    ScaledAtMost(full, scale);
    Centring(full, full, b.width);
    ScaledAtMost(t, scale);
    Centring(h, t, b.height);
  }

  /**
   * For a scale in (0, 1] the image lies within the canvas horizontally. Vertically it
   * overhangs by less than half a pixel at each edge, because the canvas height was
   * truncated while the drawn height was not.
   */
  lemma ImageInside(image: ImageSize, scale: real)
    requires image.width > 0 && 0.0 < scale <= 1.0
    ensures var b := ImageBox(image, scale);
      0.0 <= b.x && b.x + b.width <= CanvasWidth as real &&
      -0.5 < b.y && b.y + b.height < CanvasHeight(image) as real + 0.5
  {
    CentredBox(CanvasWidth as real, CanvasHeight(image) as real, AspectHeight(image), scale, ImageBox(image, scale));
  }

  /** The image lies within the canvas vertically as well when the aspect height is a whole number. */
  lemma ImageInsideExact(image: ImageSize, scale: real)
    requires image.width > 0 && 0.0 < scale <= 1.0
    requires (CanvasWidth * image.height) % image.width == 0
    ensures var b := ImageBox(image, scale);
      0.0 <= b.y && b.y + b.height <= CanvasHeight(image) as real
  {
    WholeAspect(image);
    CentredBox(CanvasWidth as real, CanvasHeight(image) as real, AspectHeight(image), scale, ImageBox(image, scale));
  }

  /**
   * At full scale the image fills the canvas width from x = 0; its top edge is at 0
   * exactly when the aspect height is whole, and otherwise slightly above the canvas.
   */
  lemma FullScaleOffset(image: ImageSize)
    requires image.width > 0
    ensures ImageBox(image, 1.0).x == 0.0 && ImageBox(image, 1.0).width == CanvasWidth as real
    ensures ImageBox(image, 1.0).y <= 0.0
    ensures ImageBox(image, 1.0).y == 0.0 <==> (CanvasWidth * image.height) % image.width == 0
  {
    assert ImageBox(image, 1.0).height == AspectHeight(image);
    WholeAspect(image);
  }

  /**
   * The mark in its own coordinates: the dashed guide rectangle (-100, -50, 400, 100),
   * and two strike lines at 1.2 text heights above and below the centre, each running
   * 50 pixels past the text on both sides.
   */
  function MarkShape(m: Metrics): (r: Mark)
    requires m.width >= 0.0 && m.height >= 0.0
    ensures r.guide == Box(BoxLeft, BoxTop, BoxWidth, BoxHeight)
    ensures r.top.from.x == r.bottom.from.x == -r.top.to.x && r.top.to.x == r.bottom.to.x
    ensures r.top.to.x - r.top.from.x == m.width + 2.0 * LineExtension
    ensures r.top.from.y == r.top.to.y == -LineSpacingFactor * m.height
    ensures r.bottom.from.y == r.bottom.to.y == LineSpacingFactor * m.height
  {
    var lineSpacing := m.height * LineSpacingFactor;
    var lineStart := -m.width / 2.0 - LineExtension;
    var lineEnd := m.width / 2.0 + LineExtension;
    Mark(Box(-100.0, -50.0, 400.0, 100.0),
         Segment(Point(lineStart, -lineSpacing), Point(lineEnd, -lineSpacing)),
         Segment(Point(lineStart, lineSpacing), Point(lineEnd, lineSpacing)))
  }

  predicate InsideBox(b: Box, q: Point) {
    b.x <= q.x <= b.x + b.width && b.y <= q.y <= b.y + b.height
  }

  /**
   * The dashed guide rectangle drawn around the mark is exactly the region a press or
   * hover treats as the mark, for every anchor and every rotation.
   */
  lemma GuideIsHitBox(m: Metrics, q: Point, anchor: Point, t: Turn)
    requires m.width >= 0.0 && m.height >= 0.0 && IsRotation(t)
    ensures InsideBox(MarkShape(m).guide, q) <==> Hit(FromMarkSpace(q, anchor, t), anchor, t)
  {
    MarkSpaceRoundTrip(q, q, anchor, t);
  }

  /**
   * The fixed box does not follow the text: both strike lines lie inside it exactly when
   * the text is at most 100 pixels wide and 1.2 text heights fit in 50 pixels.
   */
  lemma StrikeLinesInGuide(m: Metrics)
    requires m.width >= 0.0 && m.height >= 0.0
    ensures var r := MarkShape(m);
      (InsideBox(r.guide, r.top.from) && InsideBox(r.guide, r.top.to) &&
       InsideBox(r.guide, r.bottom.from) && InsideBox(r.guide, r.bottom.to))
      <==> m.width <= 100.0 && LineSpacingFactor * m.height <= 50.0
  {
  }

  /** The frame one render draws for these inputs on a canvas of the given size. */
  function Compose(width: nat, height: nat, image: ImageSize, s: Settings, m: Metrics): (f: Frame)
    requires image.width > 0 && m.width >= 0.0 && m.height >= 0.0
    ensures f.width == width && f.height == height
    ensures f.image.width == CanvasWidth as real * s.imageScale && f.image.height == AspectHeight(image) * s.imageScale
    ensures f.anchor == Anchor(s) && f.rotation == s.rotation
    ensures f.mark.guide == Box(BoxLeft, BoxTop, BoxWidth, BoxHeight)
    ensures f.strokeWidth == s.lineWidth && f.text == s.text && f.fontSize == s.textSize
  {
    Frame(width, height, ImageBox(image, s.imageScale), Anchor(s), s.rotation,
          MarkShape(m), s.lineWidth, s.text, s.textSize)
  }

  /** A canvas element: its pixel size, its cursor style, and whether it has a 2-D context. */
  class Canvas {
    var width: nat
    var height: nat
    var cursor: Cursor
    const hasContext: bool

    /** A new canvas element has the default size of 300 by 150. */
    constructor (hasContext: bool)
      ensures this.hasContext == hasContext
      ensures width == 300 && height == 150 && cursor == DefaultCursor
    {
      this.hasContext := hasContext;
      width, height, cursor := 300, 150, DefaultCursor;
    }

    /**
     * Render one side onto this canvas: resize it to 1500 pixels wide at the image's
     * aspect ratio and draw the centred image and the mark. Without a context nothing
     * happens.
     */
    method Process(image: ImageSize, s: Settings, m: Metrics) returns (frame: Option<Frame>)
      requires image.width > 0 && m.width >= 0.0 && m.height >= 0.0
      modifies this
      ensures cursor == old(cursor)
      ensures !hasContext ==> frame == None && width == old(width) && height == old(height)
      ensures hasContext ==> width == CanvasWidth && height == CanvasHeight(image)
      ensures hasContext ==> frame == Some(Compose(CanvasWidth, CanvasHeight(image), image, s, m))
    {
      if !hasContext {
        return None;
      }
      width := CanvasWidth;
      height := CanvasHeight(image);
      frame := Some(Compose(width, height, image, s, m));
    }
  }

  /** Rendering twice with unchanged inputs draws the same frame and leaves the same canvas size. */
  method RenderTwice(c: Canvas, image: ImageSize, s: Settings, m: Metrics)
      returns (first: Option<Frame>, second: Option<Frame>)
    requires image.width > 0 && m.width >= 0.0 && m.height >= 0.0
    modifies c
    ensures first == second
    ensures c.hasContext ==> c.width == CanvasWidth && c.height == CanvasHeight(image)
    ensures !c.hasContext ==> c.width == old(c.width) && c.height == old(c.height)
  {
    first := c.Process(image, s, m);
    var w, h := c.width, c.height;
    second := c.Process(image, s, m);
    assert c.width == w && c.height == h;
  }
}
