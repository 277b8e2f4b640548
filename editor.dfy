/**
 * The watermark editor: the two uploaded images, one settings record per side, and ONE
 * drag record shared by both sides' canvases. Pointer handlers are methods that update
 * these fields in place.
 *
 * The ghost fields remember, at the last successful press, the press point and both
 * anchors. The invariant Valid() then says that the anchors have moved, in total,
 * by exactly the distance from the press point to the drag record's current start
 * point: moves add their step and re-base the start, so nothing drifts.
 *
 * The handlers themselves would let a drag begun on one canvas continue over the other
 * canvas and move that side's mark, because the drag record is shared. The page never
 * delivers that sequence: leaving a canvas ends the drag (MouseUp) before any move over
 * the other canvas arrives. The ghost fields pressSide and sameSide record whether every
 * move of the current drag came from the pressed canvas; while they do, the other side's
 * mark stays where it was, and the pressed side alone carries the whole travel.
 */
module Editor {
  import opened Wrappers
  import opened Geometry
  import opened Marking
  import opened Render
  import opened Ingest

  /** The discrete controls under each editor. */
  datatype Control =
    | SetScale(scale: real)
    | SetText(text: string)
    | SetSize(size: int)
    | SetRotation(degrees: int)

  function Other(side: Side): Side {
    if side == Front then Back else Front
  }

  /** The settings with the anchor shifted by (dx, dy). */
  function Shifted(s: Settings, dx: real, dy: real): (r: Settings)
    ensures Anchor(r) == Add(Anchor(s), Point(dx, dy))
    ensures r.(xPosition := s.xPosition, yPosition := s.yPosition) == s
  {
    s.(xPosition := s.xPosition + dx, yPosition := s.yPosition + dy)
  }

  /**
   * The settings after one control change: the chosen field takes the control's value
   * and every other field, the anchor among them, stays.
   */
  function Adjusted(s: Settings, c: Control): (r: Settings)
    ensures Anchor(r) == Anchor(s) && r.lineWidth == s.lineWidth
    ensures c.SetScale? ==> r.imageScale == c.scale && r.(imageScale := s.imageScale) == s
    ensures c.SetText? ==> r.text == c.text && r.(text := s.text) == s
    ensures c.SetSize? ==> r.textSize == c.size as real && r.(textSize := s.textSize) == s
    ensures c.SetRotation? ==> r.rotation == c.degrees as real && r.(rotation := s.rotation) == s
  {
    match c
    case SetScale(scale) => s.(imageScale := scale)
    case SetText(text) => s.(text := text)
    case SetSize(size) => s.(textSize := size as real)
    case SetRotation(degrees) => s.(rotation := degrees as real)
  }

  class Editor {
    var frontImage: Option<File>
    var backImage: Option<File>
    var front: Settings
    var back: Settings
    var drag: DragState

    ghost var pressPoint: Point
    ghost var frontAtPress: Point
    ghost var backAtPress: Point
    ghost var pressSide: Side
    ghost var sameSide: bool

    ghost predicate Valid()
      reads this
    {
      && (drag.isDragging ==> drag.kind == Some(MoveDrag))
      && (front.xPosition - frontAtPress.x) + (back.xPosition - backAtPress.x) == drag.startX - pressPoint.x
      && (front.yPosition - frontAtPress.y) + (back.yPosition - backAtPress.y) == drag.startY - pressPoint.y
      && (sameSide && pressSide == Front ==> Anchor(back) == backAtPress)
      && (sameSide && pressSide == Back ==> Anchor(front) == frontAtPress)
    }

    /**
     * While every move of the drag came from the pressed canvas, the pressed side's mark
     * has moved by exactly the pointer's travel since the press, and the other side's
     * mark has not moved.
     */
    lemma SameSideNoDrift()
      requires Valid() && sameSide
      ensures var atPress := if pressSide == Front then frontAtPress else backAtPress;
        Anchor(SettingsOf(pressSide)) == Add(atPress, Sub(Point(drag.startX, drag.startY), pressPoint))
      ensures Anchor(SettingsOf(Other(pressSide))) == (if pressSide == Front then backAtPress else frontAtPress)
    {
    }

    function SettingsOf(side: Side): Settings
      reads this
    {
      if side == Front then front else back
    }

    constructor ()
      ensures Valid()
      ensures frontImage == None && backImage == None
      ensures front == DefaultSettings() && back == DefaultSettings()
      ensures drag == InitialDrag()
    {
      frontImage, backImage := None, None;
      front, back := DefaultSettings(), DefaultSettings();
      drag := InitialDrag();
      pressPoint := Point(0.0, 0.0);
      frontAtPress := Anchor(DefaultSettings());
      backAtPress := Anchor(DefaultSettings());
      pressSide, sameSide := Front, true;
    }

    /**
     * Upload a file for one side. No file, or a HEIC/HEIF file whose conversion failed,
     * leaves everything as it was.
     */
    method Upload(file: Option<File>, side: Side, converted: Option<seq<byte>>)
      requires Valid()
      modifies this
      ensures Valid()
      ensures front == old(front) && back == old(back) && drag == old(drag)
      ensures file.None? || Accept(file.value, converted).None? ==>
                frontImage == old(frontImage) && backImage == old(backImage)
      ensures file.Some? && Accept(file.value, converted).Some? ==>
                if side == Front
                then frontImage == Accept(file.value, converted) && backImage == old(backImage)
                else backImage == Accept(file.value, converted) && frontImage == old(frontImage)
    {
      if file.None? {
        return;
      }
      var image := Accept(file.value, converted);
      if image.None? {
        return;
      }
      if side == Front {
        frontImage := image;
      } else {
        backImage := image;
      }
    }

    /** A change made with one of a side's controls. */
    method Adjust(side: Side, c: Control)
      requires Valid()
      modifies this
      ensures Valid()
      ensures frontImage == old(frontImage) && backImage == old(backImage) && drag == old(drag)
      ensures SettingsOf(side) == Adjusted(old(SettingsOf(side)), c)
      ensures SettingsOf(Other(side)) == old(SettingsOf(Other(side)))
    {
      if side == Front {
        front := Adjusted(front, c);
      } else {
        back := Adjusted(back, c);
      }
    }

    /**
     * A press on one side's canvas. A press on the mark starts a move drag from the
     * press point; a press elsewhere, or with no canvas, changes nothing.
     */
    method MouseDown(side: Side, canvas: Canvas?, client: Point, rect: Rect, t: Turn)
      requires Valid()
      requires rect.width > 0.0 && rect.height > 0.0
      modifies this
      ensures Valid()
      ensures front == old(front) && back == old(back)
      ensures frontImage == old(frontImage) && backImage == old(backImage)
      ensures canvas == null ==> drag == old(drag)
      ensures canvas != null ==>
                var p := ToCanvas(client, rect, canvas.width, canvas.height);
                var s := SettingsOf(side);
                if Hit(p, Anchor(s), t)
                then drag == DragState(true, p.x, p.y, s.rotation, s.textSize, Some(MoveDrag))
                     && pressPoint == p && frontAtPress == Anchor(front) && backAtPress == Anchor(back)
                     && pressSide == side && sameSide
                else drag == old(drag)
    {
      if canvas == null {
        return;
      }
      var p := ToCanvas(client, rect, canvas.width, canvas.height);
      var settings := SettingsOf(side);
      if Hit(p, Anchor(settings), t) {
        drag := DragState(true, p.x, p.y, settings.rotation, settings.textSize, Some(MoveDrag));
        pressPoint := p;
        frontAtPress := Anchor(front);
        backAtPress := Anchor(back);
        pressSide, sameSide := side, true;
      }
    }

    /**
     * A move over one side's canvas. Without a drag it only sets that canvas's cursor,
     * from the same hit test a press uses. During a move drag it shifts this side's
     * anchor by the step from the drag's start point and makes the new point the start.
     */
    method MouseMove(side: Side, canvas: Canvas?, client: Point, rect: Rect, t: Turn)
      requires Valid()
      requires rect.width > 0.0 && rect.height > 0.0
      modifies this, canvas
      ensures Valid()
      ensures frontImage == old(frontImage) && backImage == old(backImage)
      ensures pressPoint == old(pressPoint)
      ensures frontAtPress == old(frontAtPress) && backAtPress == old(backAtPress)
      ensures pressSide == old(pressSide)
      ensures sameSide == (old(sameSide) && (canvas == null || !old(drag.isDragging) || side == pressSide))
      ensures canvas == null ==> front == old(front) && back == old(back) && drag == old(drag)
      ensures canvas != null ==> canvas.width == old(canvas.width) && canvas.height == old(canvas.height)
      ensures canvas != null && !old(drag.isDragging) ==>
                && front == old(front) && back == old(back) && drag == old(drag)
                && canvas.cursor ==
                   (if Hit(ToCanvas(client, rect, canvas.width, canvas.height), Anchor(SettingsOf(side)), t)
                    then MoveCursor else DefaultCursor)
      ensures canvas != null && old(drag.isDragging) ==>
                var p := ToCanvas(client, rect, canvas.width, canvas.height);
                && canvas.cursor == old(canvas.cursor)
                && drag == old(drag).(startX := p.x, startY := p.y)
                && SettingsOf(side) == Shifted(old(SettingsOf(side)), p.x - old(drag.startX), p.y - old(drag.startY))
                && SettingsOf(Other(side)) == old(SettingsOf(Other(side)))
    {
      if canvas == null {
        return;
      }
      var p := ToCanvas(client, rect, canvas.width, canvas.height);
      if !drag.isDragging {
        var settings := SettingsOf(side);
        canvas.cursor := if Hit(p, Anchor(settings), t) then MoveCursor else DefaultCursor;
        return;
      }
      if drag.kind == Some(MoveDrag) {
        var dx := p.x - drag.startX;
        var dy := p.y - drag.startY;
        if side == Front {
          front := Shifted(front, dx, dy);
        } else {
          back := Shifted(back, dx, dy);
        }
        drag := drag.(startX := p.x, startY := p.y);
        sameSide := sameSide && side == pressSide;
      }
    }

    /** Release or leave: the drag ends; nothing else changes, not even the start point. */
    method MouseUp()
      requires Valid()
      modifies this
      ensures Valid()
      ensures drag == old(drag).(isDragging := false)
      ensures front == old(front) && back == old(back)
      ensures frontImage == old(frontImage) && backImage == old(backImage)
    {
      drag := drag.(isDragging := false);
    }
  }

  /**
   * A press at the default anchor of the front mark followed by a move of (+50, -20)
   * leaves the front anchor at (450, 280), whatever the rotation, and the back mark where it was;
   * once the pointer has left the front canvas, a move over the back canvas moves no mark.
   */
  method DragScenario(t: Turn)
  {
    var editor := new Editor();
    var canvas := new Canvas(true);
    canvas.width, canvas.height := 1500, 1000;
    var rect := Rect(0.0, 0.0, 1500.0, 1000.0);
    editor.MouseDown(Front, canvas, Point(400.0, 300.0), rect, t);
    assert editor.drag.isDragging;
    editor.MouseMove(Front, canvas, Point(450.0, 280.0), rect, t);
    assert Anchor(editor.front) == Point(450.0, 280.0);
    assert editor.back == DefaultSettings();
    editor.MouseUp();
    assert !editor.drag.isDragging;
    // Leaving the front canvas ended the drag, so a move over the back canvas only hovers.
    var backCanvas := new Canvas(true);
    backCanvas.width, backCanvas.height := 1500, 1000;
    editor.MouseMove(Back, backCanvas, Point(500.0, 200.0), rect, t);
    assert editor.back == DefaultSettings() && Anchor(editor.front) == Point(450.0, 280.0);
  }
}
