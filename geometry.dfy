/**
 * Coordinate arithmetic of the watermark editor: mapping a pointer position from the
 * displayed canvas to the canvas's own pixels, the inverse rotation used by the hit
 * test, the forward transform used when the mark is drawn, and the fixed hit box.
 *
 * Trigonometry is not computed here: a rotation is given by the pair (c, s), the
 * cosine and sine of the NEGATED mark angle, which is what the hit test multiplies by.
 */
module Geometry {

  /** A point in client, canvas or mark coordinates. */
  datatype Point = Point(x: real, y: real)

  /** The display rectangle of a canvas element, as the browser reports it. */
  datatype Rect = Rect(left: real, top: real, width: real, height: real)

  /** cos(-angle) and sin(-angle) for the mark's rotation angle. */
  datatype Turn = Turn(c: real, s: real)

  predicate IsRotation(t: Turn) {
    t.c * t.c + t.s * t.s == 1.0
  }

  /** Rotation 0: cos 0 = 1, sin 0 = 0. */
  const NoTurn := Turn(1.0, 0.0)

  /** The hit box in mark space: x from -100 over a width of 400, y from -50 over a height of 100. */
  const BoxLeft: real := -100.0
  const BoxTop: real := -50.0
  const BoxWidth: real := 400.0
  const BoxHeight: real := 100.0

  function Sub(p: Point, q: Point): Point {
    Point(p.x - q.x, p.y - q.y)
  }

  function Add(p: Point, q: Point): Point {
    Point(p.x + q.x, p.y + q.y)
  }

  /** Squared Euclidean distance between two points. */
  function Dist2(p: Point, q: Point): real {
    (p.x - q.x) * (p.x - q.x) + (p.y - q.y) * (p.y - q.y)
  }

  /**
   * The pointer position in canvas pixels: the offset from the rectangle's corner,
   * scaled on each axis by canvas size / displayed size. The two axes are scaled
   * independently, so a stretched display maps back correctly.
   */
  function ToCanvas(client: Point, rect: Rect, canvasWidth: nat, canvasHeight: nat): (p: Point)
    requires rect.width > 0.0 && rect.height > 0.0
    ensures p.x * rect.width == (client.x - rect.left) * canvasWidth as real
    ensures p.y * rect.height == (client.y - rect.top) * canvasHeight as real
    ensures client.x == rect.left ==> p.x == 0.0
    ensures client.y == rect.top ==> p.y == 0.0
    ensures client.x == rect.left + rect.width ==> p.x == canvasWidth as real
    ensures client.y == rect.top + rect.height ==> p.y == canvasHeight as real
  {
    var scaleX := canvasWidth as real / rect.width;
    var scaleY := canvasHeight as real / rect.height;
    assert scaleX * rect.width == canvasWidth as real;
    assert scaleY * rect.height == canvasHeight as real;
    Point((client.x - rect.left) * scaleX, (client.y - rect.top) * scaleY)
  }

  /** The client position that a canvas pixel is displayed at: the inverse of ToCanvas. */
  function ToClient(p: Point, rect: Rect, canvasWidth: nat, canvasHeight: nat): (client: Point)
    requires canvasWidth > 0 && canvasHeight > 0
  {
    Point(rect.left + p.x * rect.width / canvasWidth as real,
          rect.top + p.y * rect.height / canvasHeight as real)
  }

  lemma ToCanvasRoundTrip(client: Point, p: Point, rect: Rect, canvasWidth: nat, canvasHeight: nat)
    requires rect.width > 0.0 && rect.height > 0.0 && canvasWidth > 0 && canvasHeight > 0
    ensures ToCanvas(ToClient(p, rect, canvasWidth, canvasHeight), rect, canvasWidth, canvasHeight) == p
    ensures ToClient(ToCanvas(client, rect, canvasWidth, canvasHeight), rect, canvasWidth, canvasHeight) == client
  {
    var w, h := canvasWidth as real, canvasHeight as real;
    var c := ToClient(p, rect, canvasWidth, canvasHeight);
    var q := ToCanvas(c, rect, canvasWidth, canvasHeight);
    assert (c.x - rect.left) * w == p.x * rect.width;
    assert q.x * rect.width == p.x * rect.width;
    assert (c.y - rect.top) * h == p.y * rect.height;
    assert q.y * rect.height == p.y * rect.height;
    var r := ToCanvas(client, rect, canvasWidth, canvasHeight);
    var d := ToClient(r, rect, canvasWidth, canvasHeight);
    assert r.x * rect.width / w == client.x - rect.left;
    assert r.y * rect.height / h == client.y - rect.top;
  }

  /**
   * A pointer inside the displayed rectangle maps inside the canvas, and only such a
   * pointer does (both directions, on each axis).
   */
  lemma ToCanvasInside(client: Point, rect: Rect, canvasWidth: nat, canvasHeight: nat)
    requires rect.width > 0.0 && rect.height > 0.0 && canvasWidth > 0 && canvasHeight > 0
    ensures var p := ToCanvas(client, rect, canvasWidth, canvasHeight);
      (0.0 <= p.x <= canvasWidth as real <==> rect.left <= client.x <= rect.left + rect.width) &&
      (0.0 <= p.y <= canvasHeight as real <==> rect.top <= client.y <= rect.top + rect.height)
  {
    var p := ToCanvas(client, rect, canvasWidth, canvasHeight);
    ScaleOrder(p.x, client.x - rect.left, rect.width, canvasWidth as real);
    ScaleOrder(p.y, client.y - rect.top, rect.height, canvasHeight as real);
  }

  /** If a * w == d * n with w, n > 0, then a lies in [0, n] exactly when d lies in [0, w]. */
  lemma ScaleOrder(a: real, d: real, w: real, n: real)
    requires w > 0.0 && n > 0.0 && a * w == d * n
    ensures 0.0 <= a <= n <==> 0.0 <= d <= w
  {
    if a < 0.0 { assert a * w < 0.0; assert d * n < 0.0; assert d < 0.0; }
    if d < 0.0 { assert d * n < 0.0; assert a < 0.0; }
    if a > n { assert a * w > n * w; assert d * n > w * n; assert d > w; }
    if d > w { assert d * n > w * n; assert a * w > n * w; assert a > n; }
  }

  /**
   * The hit test's transform: translate so the anchor is the origin, then rotate by the
   * negated mark angle, so that the mark's own axes become the coordinate axes.
   */
  function ToMarkSpace(p: Point, anchor: Point, t: Turn): (q: Point)
    ensures t == NoTurn ==> q == Sub(p, anchor)
  {
    var dx := p.x - anchor.x;
    var dy := p.y - anchor.y;
    Point(dx * t.c - dy * t.s, dx * t.s + dy * t.c)
  }

  /**
   * The drawing transform: rotate by the mark angle (cosine c, sine -s), then translate
   * to the anchor. This is where a mark-space point ends up on the canvas.
   */
  function FromMarkSpace(q: Point, anchor: Point, t: Turn): (p: Point)
    ensures t == NoTurn ==> p == Add(anchor, q)
    ensures q == Point(0.0, 0.0) ==> p == anchor
  {
    Point(anchor.x + q.x * t.c + q.y * t.s, anchor.y - q.x * t.s + q.y * t.c)
  }

  /** The drawing transform and the hit test's transform undo each other. */
  lemma MarkSpaceRoundTrip(p: Point, q: Point, anchor: Point, t: Turn)
    requires IsRotation(t)
    ensures ToMarkSpace(FromMarkSpace(q, anchor, t), anchor, t) == q
    ensures FromMarkSpace(ToMarkSpace(p, anchor, t), anchor, t) == p
  {
    var c, s := t.c, t.s;
    var u, v := q.x, q.y;
    calc {
      (u * c + v * s) * c - (v * c - u * s) * s;
      u * (c * c + s * s);
      u;
    }
    calc {
      (u * c + v * s) * s + (v * c - u * s) * c;
      v * (c * c + s * s);
      v;
    }
    var dx, dy := p.x - anchor.x, p.y - anchor.y;
    calc {
      (dx * c - dy * s) * c + (dx * s + dy * c) * s;
      dx * (c * c + s * s);
      dx;
    }
    calc {
      (dx * s + dy * c) * c - (dx * c - dy * s) * s;
      dy * (c * c + s * s);
      dy;
    }
  }

  /** The axis-aligned test in mark space, the same bounds at every call site. */
  predicate InBox(q: Point): (r: bool)
    ensures r <==> -100.0 <= q.x <= 300.0 && -50.0 <= q.y <= 50.0
    ensures q == Point(0.0, 0.0) ==> r
  {
    BoxLeft <= q.x <= BoxLeft + BoxWidth && BoxTop <= q.y <= BoxTop + BoxHeight
  }

  /**
   * Whether a canvas point falls on the mark anchored at `anchor` and turned by `t`:
   * the test that both a press and a hover make.
   */
  function Hit(p: Point, anchor: Point, t: Turn): (r: bool)
    ensures p == anchor ==> r
    ensures t == NoTurn ==>
      (r <==> anchor.x - 100.0 <= p.x <= anchor.x + 300.0 && anchor.y - 50.0 <= p.y <= anchor.y + 50.0)
  {
    AnchorToOrigin(anchor, t);
    InBox(ToMarkSpace(p, anchor, t))
  }

  /** The anchor is the origin of mark space, whatever the rotation. */
  lemma AnchorToOrigin(anchor: Point, t: Turn)
    ensures ToMarkSpace(anchor, anchor, t) == Point(0.0, 0.0)
  {
    var dx := anchor.x - anchor.x;
    assert dx == 0.0;
    assert dx * t.c == 0.0 && dx * t.s == 0.0;
  }

  /** Rotation about the anchor keeps distances to the anchor. */
  lemma MarkSpaceKeepsDistance(p: Point, anchor: Point, t: Turn)
    requires IsRotation(t)
    ensures Dist2(ToMarkSpace(p, anchor, t), Point(0.0, 0.0)) == Dist2(p, anchor)
  {
    var c, s := t.c, t.s;
    var dx, dy := p.x - anchor.x, p.y - anchor.y;
    calc {
      (dx * c - dy * s) * (dx * c - dy * s) + (dx * s + dy * c) * (dx * s + dy * c);
      dx * dx * (c * c + s * s) + dy * dy * (c * c + s * s);
      dx * dx + dy * dy;
    }
  }

  /** Outside [-b, b] the square exceeds b * b. */
  lemma SquareGrows(u: real, b: real)
    requires b >= 0.0
    ensures u > b ==> u * u > b * b
    ensures u < -b ==> u * u > b * b
  {
    if u > b { assert u * u > b * u >= b * b; }
    if u < -b { assert u * u > -b * u >= b * b; }
  }

  /**
   * Whatever the rotation, every point within 50 pixels of the anchor is on the mark,
   * and every point on the mark is within sqrt(300^2 + 50^2) of it.
   */
  lemma HitReach(p: Point, anchor: Point, t: Turn)
    requires IsRotation(t)
    ensures Dist2(p, anchor) <= 2500.0 ==> Hit(p, anchor, t)
    ensures Hit(p, anchor, t) ==> Dist2(p, anchor) <= 92500.0
  {
    var q := ToMarkSpace(p, anchor, t);
    MarkSpaceKeepsDistance(p, anchor, t);
    assert Dist2(q, Point(0.0, 0.0)) == q.x * q.x + q.y * q.y;
    if Dist2(p, anchor) <= 2500.0 {
      assert q.x * q.x <= 50.0 * 50.0;
      assert q.y * q.y <= 50.0 * 50.0;
      SquareGrows(q.x, 50.0);
      SquareGrows(q.y, 50.0);
    }
    if Hit(p, anchor, t) {
      SquareAtMost(q.x, -100.0, 300.0);
      SquareAtMost(q.y, -50.0, 50.0);
    }
  }

  /** For lo <= u <= hi with lo <= 0 <= hi, u * u is at most the larger of lo * lo and hi * hi. */
  lemma SquareAtMost(u: real, lo: real, hi: real)
    requires lo <= 0.0 <= hi && -lo <= hi && lo <= u <= hi
    ensures u * u <= hi * hi
  {
    if u >= 0.0 { assert u * u <= u * hi <= hi * hi; }
    else { assert u * u <= u * lo <= lo * lo <= hi * hi; }
  }
}
