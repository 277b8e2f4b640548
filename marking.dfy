/**
 * The records the watermark editor keeps: the settings of one mark (one record per
 * image side), the drag record shared by both editors, their initial values, and the
 * anchor arithmetic of a drag.
 */
module Marking {
  import opened Wrappers
  import opened Geometry

  /** What one side's mark looks like and where it sits, in canvas pixels. */
  datatype Settings = Settings(
    text: string,
    lineWidth: real,
    textSize: real,
    rotation: real,   // degrees
    xPosition: real,
    yPosition: real,
    imageScale: real)

  /** The gesture a drag performs; only Move is ever started. */
  datatype DragKind = MoveDrag | RotateDrag | ResizeDrag

  /** The drag record; `kind` is None until the first successful press. */
  datatype DragState = DragState(
    isDragging: bool,
    startX: real,
    startY: real,
    startRotation: real,
    startSize: real,
    kind: Option<DragKind>)

  datatype Side = Front | Back

  /** The value of the canvas's CSS cursor property as the editor sets it. */
  datatype Cursor = DefaultCursor | MoveCursor

  function DefaultSettings(): (s: Settings)
    ensures s.text == "FOR PRIVATE USE ONLY" && |s.text| == 20
    ensures s.lineWidth == 5.0 && s.textSize == 48.0 && s.rotation == -45.0
    ensures Anchor(s) == Point(400.0, 300.0) && s.imageScale == 1.0
  {
    Settings("FOR PRIVATE USE ONLY", 5.0, 48.0, -45.0, 400.0, 300.0, 1.0)
  }

  function InitialDrag(): (d: DragState)
    ensures !d.isDragging && d.kind == None
    ensures d.startX == 0.0 && d.startY == 0.0 && d.startRotation == 0.0 && d.startSize == 0.0
  {
    DragState(false, 0.0, 0.0, 0.0, 0.0, None)
  }

  /** The pivot of the mark. */
  function Anchor(s: Settings): Point {
    Point(s.xPosition, s.yPosition)
  }

  /**
   * The anchor after a drag that started at `start` and then visited `moves` in order:
   * each move adds the pointer's step since the previous point to the anchor.
   */
  function Follow(anchor: Point, start: Point, moves: seq<Point>): (r: Point)
    ensures moves == [] ==> r == anchor
    ensures |moves| == 1 ==> r == Add(anchor, Sub(moves[0], start))
    decreases |moves|
  {
    if moves == [] then anchor
    else Follow(Add(anchor, Sub(moves[0], start)), moves[0], moves[1..])
  }

  /** The steps telescope: the anchor moves by exactly last point minus press point. */
  lemma {:induction false} FollowTelescopes(anchor: Point, start: Point, moves: seq<Point>)
    requires moves != []
    ensures Follow(anchor, start, moves) == Add(anchor, Sub(moves[|moves| - 1], start))
    decreases |moves|
  {
    var next := Add(anchor, Sub(moves[0], start));
    if |moves| > 1 {
      FollowTelescopes(next, moves[0], moves[1..]);
      assert moves[1..][|moves[1..]| - 1] == moves[|moves| - 1];
    }
  }
}
