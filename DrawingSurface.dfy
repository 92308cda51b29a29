/** The design canvas: its page size in the current unit, and the mouse protocol
    that selects, moves and draws shapes.  The mouse capture, the cursor, the press
    point and the dashed preview rectangle are fields; the canvas's children are
    the shapes on it plus a count of preview rectangles still attached.  The
    framework's hit test is the visual tree passed to each handler. */
module Surface {
  import opened Wrappers
  import opened Geometry
  import opened Units
  import opened Shapes
  import opened HitTest

  /** The cursors the surface tells apart; `Default` is the unset (null) cursor. */
  datatype Cursor = Default | Cross | Arrow | SizeAll

  /** Smallest width and height, in pixels, of a shape drawn by dragging. */
  const MinDrawing: real := 10.0

  /** The preview rectangle: canvas Left and Top, Width and Height, each NaN until
      assigned. */
  datatype Preview = Preview(left: Dim, top: Dim, width: Dim, height: Dim) {
    predicate Placed() { left.Px? && top.Px? && width.Px? && height.Px? }
    predicate Blank() { left.Unset? && top.Unset? && width.Unset? && height.Unset? }
  }

  /** A freshly created rectangle. */
  const BlankPreview: Preview := Preview(Unset, Unset, Unset, Unset)

  /** Where a rectangle starts and how long it is along one axis. */
  datatype Extent = Extent(start: real, length: real)

  /** The extent a drag from `from` to `to` spans along one axis, cut at the
      canvas edge at 0. */
  function Stretch(from: real, to: real): (e: Extent)
    requires from != to
    ensures e.start + e.length == Max(from, to)
    ensures from < to ==> e.start == from
    ensures to < from ==> e.start == Max(to, 0.0)
    ensures from >= 0.0 ==> e.start >= 0.0 && e.length >= 0.0
  {
    if from < to then Extent(from, to - from)
    else if to < 0.0 then Extent(0.0, from)
    else Extent(to, from - to)
  }

  /** The preview after the cursor moved to `point` with the button pressed at
      `down`: the rectangle between the two points, cut at the left and top edges
      of the canvas.  A drag with no horizontal or no vertical extent leaves the
      preview as it was. */
  function DragPreview(down: Point, point: Point, current: Preview): (r: Preview)
    ensures point.x == down.x || point.y == down.y ==> r == current
    ensures point.x != down.x && point.y != down.y ==>
      && r.Placed()
      && r.left.v + r.width.v == Max(down.x, point.x)
      && r.top.v + r.height.v == Max(down.y, point.y)
      && r.left.v == (if down.x < point.x then down.x else Max(point.x, 0.0))
      && r.top.v == (if down.y < point.y then down.y else Max(point.y, 0.0))
  {
    if point.x == down.x || point.y == down.y then current
    else
      var ex := Stretch(down.x, point.x);
      var ey := Stretch(down.y, point.y);
      Preview(Px(ex.start), Px(ey.start), Px(ex.length), Px(ey.length))
  }

  /** A press on the canvas lies inside it, so the preview never reaches past
      its left or top edge. */
  lemma DragPreviewInside(down: Point, point: Point, current: Preview)
    requires down.x >= 0.0 && down.y >= 0.0
    requires point.x != down.x && point.y != down.y
    ensures var r := DragPreview(down, point, current);
      r.left.v >= 0.0 && r.top.v >= 0.0 && r.width.v >= 0.0 && r.height.v >= 0.0
  {
  }

  /** IsValidDrawing: there is a preview, both its sizes are set, and neither is
      below the minimum. */
  function IsValidDrawing(helper: Option<Preview>): (ok: bool)
    ensures ok <==>
      && helper.Some? && helper.value.width.Px? && helper.value.height.Px?
      && helper.value.width.v >= MinDrawing && helper.value.height.v >= MinDrawing
    ensures ok ==> helper.value.width.v > 0.0 && helper.value.height.v > 0.0
  {
    && helper.Some?
    && helper.value.width.Px? && helper.value.height.Px?
    && !(helper.value.width.v < MinDrawing) && !(helper.value.height.v < MinDrawing)
  }

  /** A drag from a point on the canvas draws a shape exactly when the rectangle
      between press and release point, cut at the canvas edges, is at least 10 by
      10 pixels. */
  lemma DragCommitsIff(down: Point, point: Point, current: Preview)
    requires down.x >= 0.0 && down.y >= 0.0
    requires point.x != down.x && point.y != down.y
    ensures IsValidDrawing(Some(DragPreview(down, point, current))) <==>
      && Max(down.x, point.x) - Max(Min(down.x, point.x), 0.0) >= MinDrawing
      && Max(down.y, point.y) - Max(Min(down.y, point.y), 0.0) >= MinDrawing
  {
  }

  /** The selection the shared selection block leaves: the shape hit, alone, or
      nothing. */
  function Picked(hit: Option<Shape>): (sel: seq<Shape>)
    ensures |sel| <= 1
    ensures hit.None? <==> sel == []
    ensures hit.Some? ==> hit.value in sel
  {
    match hit
    case None => []
    case Some(s) => [s]
  }

  /** The cursor the surface shows while the mouse hovers over `hit` without a
      drag in progress. */
  function HoverCursor(hit: Option<Shape>, hitSelected: bool, current: Cursor): (c: Cursor)
    ensures c == SizeAll <==> hit.Some? && hitSelected
    ensures current == Cross && !(hit.Some? && hitSelected) ==> c == Cross
    ensures current != Cross && !(hit.Some? && hitSelected) ==> c == Arrow
  {
    if hit.Some? && hitSelected then SizeAll
    else if current != Cross then Arrow
    else current
  }

  /** The shapes of `ss` keep their width, height and size cap. */
  twostate predicate SizesKept(ss: seq<Shape>)
    reads ss
  {
    forall s :: s in ss ==> s.width == old(s.width) && s.height == old(s.height) && s.maxSize == old(s.maxSize)
  }

  class DrawingSurface {
    var measurement: Measurement
    /** The canvas's Width and Height in pixels, NaN until assigned. */
    var width: Dim
    var height: Dim
    /** The shapes among the canvas's children. */
    var shapes: seq<Shape>
    /** SelectedShapes. */
    var selected: seq<Shape>
    var cursor: Cursor
    var captured: bool
    var downPoint: Point
    /** The preview rectangle of a drag in progress (`_drawingHelper`). */
    var helper: Option<Preview>
    /** Preview rectangles among the canvas's children. */
    var previews: nat

    /** Every shape is consistent with its decoration; a shape is selected exactly
        when it is in SelectedShapes, which holds at most one shape of the canvas;
        a preview is either untouched or fully placed, and is shown on the canvas. */
    ghost predicate Valid()
      reads this, shapes
    {
      && (forall s :: s in shapes ==> s.Valid() && (s.isSelected <==> s in selected))
      && (forall s :: s in selected ==> s in shapes)
      && |selected| <= 1
      && (helper.Some? ==> (helper.value.Blank() || helper.value.Placed()) && previews >= 1)
    }

    /** The visual tree shows only this canvas's shapes. */
    ghost predicate Shows(t: VisualTree)
      reads this
    {
      forall v :: v in t.depth && v.ShapeVisual? ==> v.shape in shapes
    }

    /** The unit and the page size are as they were. */
    twostate predicate PageKept()
      reads this
    {
      measurement == old(measurement) && width == old(width) && height == old(height)
    }

    constructor ()
      ensures Valid()
      ensures measurement == Inch && width == Unset && height == Unset
      ensures shapes == [] && selected == [] && cursor == Default
      ensures !captured && helper == None && previews == 0
    {
      measurement := Inch;
      width := Unset;
      height := Unset;
      shapes := [];
      selected := [];
      cursor := Default;
      captured := false;
      downPoint := Point(0.0, 0.0);
      helper := None;
      previews := 0;
    }

    /** PageWidth, read: the canvas width in the current unit. */
    function PageWidth(): (w: Dim)
      reads this
      ensures w.Unset? <==> width.Unset?
      ensures w.Px? ==> ToPx(measurement, w.v) == width.v
    {
      match width
      case Unset => Unset
      case Px(v) => Px(FromPx(measurement, v))
    }

    /** PageHeight, read: the canvas height in the current unit. */
    function PageHeight(): (h: Dim)
      reads this
      ensures h.Unset? <==> height.Unset?
      ensures h.Px? ==> ToPx(measurement, h.v) == height.v
    {
      match height
      case Unset => Unset
      case Px(v) => Px(FromPx(measurement, v))
    }

    /** PageWidth, written: the value is in the current unit; reading it back
        gives it back. The framework refuses a negative width and keeps the old
        one; the refusal, an exception in the framework, is `accepted == false`. */
    method SetPageWidth(value: real) returns (accepted: bool)
      modifies this`width
      ensures accepted <==> value >= 0.0
      ensures accepted ==> width == Px(ToPx(measurement, value)) && PageWidth() == Px(value)
      ensures !accepted ==> width == old(width)
    {
      var px: real;
      match measurement {
        case Centimeter =>
          px := CmToPx(value);
        case Inch =>
          px := InchToPx(value);
      }
      accepted := px >= 0.0;
      if accepted {
        width := Px(px);
      }
    }

    /** PageHeight, written, refused the same way as the width. */
    method SetPageHeight(value: real) returns (accepted: bool)
      modifies this`height
      ensures accepted <==> value >= 0.0
      ensures accepted ==> height == Px(ToPx(measurement, value)) && PageHeight() == Px(value)
      ensures !accepted ==> height == old(height)
    {
      var px: real;
      match measurement {
        case Centimeter =>
          px := CmToPx(value);
        case Inch =>
          px := InchToPx(value);
      }
      accepted := px >= 0.0;
      if accepted {
        height := Px(px);
      }
    }

    /** Changing the unit keeps the page's pixel size: the page reads as the same
        physical size in the new unit. */
    method SetMeasurement(value: Measurement)
      modifies this`measurement
      ensures measurement == value
      ensures width.Px? ==> PageWidth() == Px(FromPx(value, width.v))
      ensures height.Px? ==> PageHeight() == Px(FromPx(value, height.v))
    {
      measurement := value;
    }

    /** InitDrawing: the next drag draws a shape. */
    method InitDrawing()
      modifies this`cursor
      ensures cursor == Cross
    {
      cursor := Cross;
    }

    /** Deselect every selected shape and empty SelectedShapes. */
    method ClearSelection()
      requires Valid()
      modifies this`selected, shapes
      ensures Valid() && selected == []
      ensures forall s :: s in shapes ==> !s.isSelected
      ensures forall s :: s in shapes && s !in old(selected) ==> s.adorners == old(s.adorners)
      ensures forall s :: s in shapes ==>
        && s.location == old(s.location) && s.left == old(s.left) && s.top == old(s.top)
      ensures SizesKept(shapes)
    {
      var k := 0;
      while k < |selected|
        invariant 0 <= k <= |selected| && selected == old(selected)
        invariant shapes == old(shapes) && forall s :: s in selected ==> s in shapes
        invariant forall s :: s in shapes ==> s.Valid() && (s.isSelected <==> s in selected[k..])
        invariant forall s :: s in shapes && s !in old(selected) ==> s.adorners == old(s.adorners)
        invariant forall s :: s in shapes ==>
          && s.location == old(s.location) && s.left == old(s.left) && s.top == old(s.top)
        invariant SizesKept(shapes)
      {
        assert selected[k] in shapes;
        selected[k].SetSelected(false);
        k := k + 1;
      }
      selected := [];
    }

    /** The selection block of the press and release handlers: select the shape
        under `p` alone, or clear the selection when there is none. */
    method SelectAt(p: Point, t: VisualTree) returns (hit: Option<Shape>)
      requires Valid() && WellFormed(t) && Shows(t)
      modifies this`selected, shapes
      ensures Valid()
      ensures hit == ShapeAt(t, p) && selected == Picked(hit)
      ensures forall s :: s in shapes ==>
        && s.location == old(s.location) && s.left == old(s.left) && s.top == old(s.top)
      ensures SizesKept(shapes)
    {
      hit := GetShapeAtLocation(t, p);
      ShapeAtInTree(t, p);
      if hit.Some? {
        var shape := hit.value;
        if !shape.isSelected {
          ClearSelection();
          selected := [shape];
          shape.SetSelected(true);
        }
      } else {
        ClearSelection();
      }
    }

    /** Left button down: unless a drag is already under way, remember the press
        point; with the arrow cursor, select the shape under it (and get ready to
        move it) or clear the selection; then capture the mouse. */
    method Press(point: Point, leftPressed: bool, t: VisualTree)
      requires Valid() && WellFormed(t) && Shows(t)
      modifies this, shapes
      ensures Valid()
      ensures shapes == old(shapes) && helper == old(helper) && previews == old(previews)
      ensures old(captured) ==> unchanged(this) && selected == old(selected)
      ensures !old(captured) ==> captured && downPoint == point
      ensures !old(captured) && leftPressed && old(cursor) == Arrow ==>
        && selected == Picked(ShapeAt(t, point))
        && cursor == (if ShapeAt(t, point).Some? then SizeAll else Arrow)
      ensures !(!old(captured) && leftPressed && old(cursor) == Arrow) ==>
        selected == old(selected) && cursor == old(cursor)
      ensures forall s :: s in shapes ==>
        && s.location == old(s.location) && s.left == old(s.left) && s.top == old(s.top)
      ensures PageKept() && SizesKept(shapes)
    {
      if !captured {
        downPoint := point;
        if leftPressed {
          if cursor == Cross {
          } else if cursor == Arrow {
            var shape := SelectAt(downPoint, t);
            if shape.Some? {
              cursor := SizeAll;
            }
          }
        }
        captured := true;
      }
    }

    /** The cross branch of the move handler: create the preview on first use and
        stretch it between the press point and the cursor, following the four
        quadrants of the drag. */
    method StretchPreview(point: Point)
      requires Valid()
      modifies this`helper, this`previews
      ensures Valid()
      ensures helper == Some(DragPreview(downPoint, point, if old(helper).Some? then old(helper).value else BlankPreview))
      ensures previews == if old(helper).None? then old(previews) + 1 else old(previews)
    {
      if helper.None? {
        helper := Some(BlankPreview);
        previews := previews + 1;
      }
      var r := helper.value;
      var w := point.x - downPoint.x;
      var h := point.y - downPoint.y;
      if w > 0.0 && h > 0.0 {
        r := r.(left := Px(downPoint.x), top := Px(downPoint.y));
        r := r.(width := Px(w), height := Px(h));
      } else if w > 0.0 && h < 0.0 {
        r := r.(left := Px(downPoint.x), width := Px(w));
        var top := downPoint.y + h;
        if top < 0.0 {
          top := 0.0;
          h := -downPoint.y;
        }
        r := r.(top := Px(top), height := Px(-h));
      } else if w < 0.0 && h > 0.0 {
        var left := downPoint.x + w;
        if left < 0.0 {
          left := 0.0;
          w := -downPoint.x;
        }
        r := r.(left := Px(left), width := Px(-w));
        r := r.(top := Px(downPoint.y), height := Px(h));
      } else if w < 0.0 && h < 0.0 {
        var left := downPoint.x + w;
        if left < 0.0 {
          left := 0.0;
          w := -downPoint.x;
        }
        r := r.(left := Px(left), width := Px(-w));
        var top := downPoint.y + h;
        if top < 0.0 {
          top := 0.0;
          h := -downPoint.y;
        }
        r := r.(top := Px(top), height := Px(-h));
      }
      helper := Some(r);
    }

    /** The move-cursor branch of the move handler: show every selected shape
        displaced by the drag from its committed location, kept inside the canvas. */
    method DragSelection(point: Point)
      requires Valid()
      modifies shapes
      ensures Valid()
      ensures forall s :: s in shapes && s in selected ==>
        && s.left == ClampAtZero(s.location.x + point.x - downPoint.x)
        && s.top == ClampAtZero(s.location.y + point.y - downPoint.y)
      ensures forall s :: s in shapes && s !in selected ==> s.left == old(s.left) && s.top == old(s.top)
      ensures forall s :: s in shapes ==>
        && s.location == old(s.location) && s.isSelected == old(s.isSelected) && s.adorners == old(s.adorners)
      ensures SizesKept(shapes)
    {
      var k := 0;
      while k < |selected|
        invariant 0 <= k <= |selected|
        invariant forall s :: s in shapes && s in selected[..k] ==>
          && s.left == ClampAtZero(s.location.x + point.x - downPoint.x)
          && s.top == ClampAtZero(s.location.y + point.y - downPoint.y)
        invariant forall s :: s in shapes && s !in selected[..k] ==> s.left == old(s.left) && s.top == old(s.top)
        invariant forall s :: s in shapes ==>
          && s.location == old(s.location) && s.isSelected == old(s.isSelected) && s.adorners == old(s.adorners)
        invariant SizesKept(shapes)
      {
        var shape := selected[k];
        var newLeft := shape.location.x + point.x - downPoint.x;
        var newTop := shape.location.y + point.y - downPoint.y;
        if newLeft < 0.0 {
          newLeft := 0.0;
        }
        if newTop < 0.0 {
          newTop := 0.0;
        }
        shape.left := newLeft;
        shape.top := newTop;
        k := k + 1;
      }
      assert selected[..k] == selected;
    }

    /** Mouse move: during a drag with the left button down, stretch the preview
        (cross cursor) or move the selection (move cursor); otherwise set the
        cursor from what is under the mouse. */
    method Move(point: Point, leftPressed: bool, t: VisualTree)
      requires Valid() && WellFormed(t) && Shows(t)
      modifies this, shapes
      ensures Valid()
      ensures shapes == old(shapes) && selected == old(selected)
      ensures captured == old(captured) && downPoint == old(downPoint)
      ensures captured && leftPressed && cursor == Cross ==>
        helper == Some(DragPreview(downPoint, point, if old(helper).Some? then old(helper).value else BlankPreview))
      ensures captured && leftPressed && cursor == SizeAll ==> forall s :: s in selected ==>
        && s.left == ClampAtZero(s.location.x + point.x - downPoint.x)
        && s.top == ClampAtZero(s.location.y + point.y - downPoint.y)
      ensures captured && leftPressed ==> cursor == old(cursor)
      ensures !(captured && leftPressed) ==>
        && helper == old(helper)
        && cursor == HoverCursor(ShapeAt(t, point),
                                 ShapeAt(t, point).Some? && ShapeAt(t, point).value in selected,
                                 old(cursor))
      ensures !(captured && leftPressed && cursor == SizeAll) ==>
        forall s :: s in shapes ==> s.left == old(s.left) && s.top == old(s.top)
      ensures forall s :: s in shapes && s !in selected ==> s.left == old(s.left) && s.top == old(s.top)
      ensures !(captured && leftPressed && cursor == Cross) ==> helper == old(helper)
      ensures previews == if captured && leftPressed && cursor == Cross && old(helper).None?
                          then old(previews) + 1 else old(previews)
      ensures forall s :: s in shapes ==> s.location == old(s.location)
      ensures PageKept() && SizesKept(shapes)
    {
      if captured && leftPressed {
        if cursor == Cross {
          StretchPreview(point);
        } else if cursor == SizeAll {
          DragSelection(point);
        }
      } else {
        var shape := GetShapeAtLocation(t, point);
        ShapeAtInTree(t, point);
        if shape.Some? {
          if shape.value.isSelected {
            cursor := SizeAll;
          } else {
            if cursor != Cross {
              cursor := Arrow;
            }
          }
        } else {
          if cursor != Cross {
            cursor := Arrow;
          }
        }
      }
    }

    /** The cross branch of a release away from the press point: take the preview
        off the canvas and, when it is big enough, put a new shape in its place
        as the only selection. */
    method CommitDrawing() returns (drawn: Option<Shape>)
      requires Valid()
      modifies this`shapes, this`selected, this`cursor, this`previews, this`helper, shapes
      ensures Valid() && helper == None
      ensures previews == if old(helper).Some? then old(previews) - 1 else old(previews)
      ensures !IsValidDrawing(old(helper)) ==>
        drawn.None? && shapes == old(shapes) && selected == old(selected) && cursor == old(cursor)
      ensures IsValidDrawing(old(helper)) ==>
        var r := old(helper).value;
        && drawn.Some? && fresh(drawn.value)
        && shapes == old(shapes) + [drawn.value] && selected == [drawn.value]
        && drawn.value.location == Point(r.left.v, r.top.v)
        && drawn.value.left == r.left.v && drawn.value.top == r.top.v
        && drawn.value.width == r.width && drawn.value.height == r.height && drawn.value.maxSize == None
        && drawn.value.width.v >= MinDrawing && drawn.value.height.v >= MinDrawing
        && cursor == Arrow
      ensures forall s :: s in old(shapes) ==>
        && s.location == old(s.location) && s.left == old(s.left) && s.top == old(s.top)
      ensures SizesKept(old(shapes))
    {
      drawn := None;
      var preview := helper;
      helper := None;
      if preview.Some? {
        previews := previews - 1;
      }
      if IsValidDrawing(preview) {
        var r := preview.value;
        var shape := new Shape(Point(r.left.v, r.top.v), Size(r.width.v, r.height.v));
        assert shape !in selected;
        shapes := shapes + [shape];
        assert forall s :: s in old(shapes) ==> s in shapes;
        ClearSelection();
        selected := [shape];
        shape.SetSelected(true);
        cursor := Arrow;
        drawn := Some(shape);
      }
    }

    /** The move-cursor branch of a release away from the press point: commit the
        shown position of every selected shape as its location. */
    method CommitMove()
      requires Valid()
      modifies shapes
      ensures Valid()
      ensures forall s :: s in shapes && s in selected ==>
        s.location == Point(old(s.left), old(s.top)) && s.left == old(s.left) && s.top == old(s.top)
      ensures forall s :: s in shapes && s !in selected ==>
        s.location == old(s.location) && s.left == old(s.left) && s.top == old(s.top)
      ensures forall s :: s in shapes ==> s.isSelected == old(s.isSelected) && s.adorners == old(s.adorners)
      ensures SizesKept(shapes)
    {
      var k := 0;
      while k < |selected|
        invariant 0 <= k <= |selected|
        invariant forall s :: s in shapes && s in selected[..k] ==>
          s.location == Point(old(s.left), old(s.top)) && s.left == old(s.left) && s.top == old(s.top)
        invariant forall s :: s in shapes && s !in selected[..k] ==>
          s.location == old(s.location) && s.left == old(s.left) && s.top == old(s.top)
        invariant forall s :: s in shapes ==> s.isSelected == old(s.isSelected) && s.adorners == old(s.adorners)
        invariant SizesKept(shapes)
      {
        var shape := selected[k];
        shape.SetLocation(Point(shape.left, shape.top));
        k := k + 1;
      }
      assert selected[..k] == selected;
    }

    /** Left button up: a release at the press point is a click (in drawing mode
        it selects like a press does) and returns to the arrow cursor; elsewhere it
        ends a drawing or a move.  Either way the preview is dropped and the mouse
        released.  A click in drawing mode does not take the preview off the
        canvas. */
    method Release(point: Point, t: VisualTree)
      requires Valid() && WellFormed(t) && Shows(t)
      modifies this, shapes
      ensures Valid()
      ensures !old(captured) ==> unchanged(this) && selected == old(selected)
      ensures old(captured) ==> !captured && helper == None
      ensures old(captured) && point == old(downPoint) ==>
        && cursor == Arrow && shapes == old(shapes) && previews == old(previews)
        && selected == (if old(cursor) == Cross then Picked(ShapeAt(t, point)) else old(selected))
      ensures old(captured) && point != old(downPoint) && old(cursor) == Cross ==>
        && previews == (if old(helper).Some? then old(previews) - 1 else old(previews))
        && (IsValidDrawing(old(helper)) ==>
              && |shapes| == |old(shapes)| + 1
              && var r, drawn := old(helper).value, shapes[|shapes| - 1];
              && shapes == old(shapes) + [drawn] && fresh(drawn)
              && drawn.location == Point(r.left.v, r.top.v)
              && drawn.left == r.left.v && drawn.top == r.top.v
              && drawn.width == r.width && drawn.height == r.height && drawn.maxSize == None
              && selected == [drawn] && cursor == Arrow)
        && (!IsValidDrawing(old(helper)) ==>
              shapes == old(shapes) && selected == old(selected) && cursor == Cross)
      ensures old(captured) && point != old(downPoint) && old(cursor) != Cross && old(cursor) != SizeAll ==>
        shapes == old(shapes) && selected == old(selected) && cursor == old(cursor) && previews == old(previews)
      ensures old(captured) && point != old(downPoint) && old(cursor) == SizeAll ==>
        && shapes == old(shapes) && selected == old(selected) && cursor == SizeAll && previews == old(previews)
        && (forall s :: s in selected ==> s.location == Point(old(s.left), old(s.top)))
        && (forall s :: s in shapes && s !in selected ==> s.location == old(s.location))
      ensures !(old(captured) && point != old(downPoint) && old(cursor) == SizeAll) ==>
        forall s :: s in old(shapes) ==> s.location == old(s.location)
      ensures forall s :: s in old(shapes) ==> s.left == old(s.left) && s.top == old(s.top)
      ensures PageKept() && SizesKept(old(shapes))
    {
      if captured {
        if point == downPoint {
          if cursor == Cross {
            var shape := SelectAt(downPoint, t);
          }
          cursor := Arrow;
        } else {
          if cursor == Cross {
            var drawn := CommitDrawing();
          } else if cursor == SizeAll {
            CommitMove();
          }
        }
        helper := None;
        captured := false;
      }
    }
  }

}
