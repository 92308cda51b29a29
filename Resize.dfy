/** Resizing a selected shape by dragging one of the four corner thumbs of its
    resize adorner.  Each drag event moves the two edges that meet at the dragged
    corner by the drag delta and keeps the two opposite edges where they were; a
    dimension never drops below the thumb's own desired size. */
module Resizing {
  import opened Wrappers
  import opened Geometry
  import opened Shapes

  /** The four handles of the adorner. */
  datatype Corner = TopLeft | TopRight | BottomLeft | BottomRight

  /** The part of a shape a resize reads and writes: canvas left/top, width, height. */
  datatype Box = Box(left: real, top: real, width: real, height: real) {
    function Right(): real { left + width }
    function Bottom(): real { top + height }
  }

  /** EnforceSize on one dimension: a NaN length is replaced by the desired size. */
  function Enforced(d: Dim, desired: real): (v: real)
  {
    match d
    case Unset => desired
    case Px(v) => v
  }

  /** The bottom-right thumb: left and top stay, the right and bottom edges follow
      the drag until the floor is hit. */
  function ResizeBottomRight(b: Box, dx: real, dy: real, floor: Size): (r: Box)
    ensures r.left == b.left && r.top == b.top
    ensures r.width >= floor.width && r.height >= floor.height
    ensures b.width + dx >= floor.width ==> r.Right() == b.Right() + dx
    ensures b.width + dx < floor.width ==> r.width == floor.width
    ensures b.height + dy >= floor.height ==> r.Bottom() == b.Bottom() + dy
    ensures b.height + dy < floor.height ==> r.height == floor.height
  {
    b.(width := Max(b.width + dx, floor.width), height := Max(dy + b.height, floor.height))
  }

  /** The top-right thumb: left and bottom stay, the right and top edges follow. */
  function ResizeTopRight(b: Box, dx: real, dy: real, floor: Size): (r: Box)
    ensures r.left == b.left && r.Bottom() == b.Bottom()
    ensures r.width >= floor.width && r.height >= floor.height
    ensures b.width + dx >= floor.width ==> r.Right() == b.Right() + dx
    ensures b.width + dx < floor.width ==> r.width == floor.width
    ensures b.height - dy >= floor.height ==> r.top == b.top + dy
    ensures b.height - dy < floor.height ==> r.height == floor.height
  {
    var heightNew := Max(b.height - dy, floor.height);
    b.(width := Max(b.width + dx, floor.width),
       height := heightNew,
       top := b.top - (heightNew - b.height))
  }

  /** The bottom-left thumb: top and right stay, the left and bottom edges follow. */
  function ResizeBottomLeft(b: Box, dx: real, dy: real, floor: Size): (r: Box)
    ensures r.top == b.top && r.Right() == b.Right()
    ensures r.width >= floor.width && r.height >= floor.height
    ensures b.width - dx >= floor.width ==> r.left == b.left + dx
    ensures b.width - dx < floor.width ==> r.width == floor.width
    ensures b.height + dy >= floor.height ==> r.Bottom() == b.Bottom() + dy
    ensures b.height + dy < floor.height ==> r.height == floor.height
  {
    var widthNew := Max(b.width - dx, floor.width);
    b.(height := Max(dy + b.height, floor.height),
       width := widthNew,
       left := b.left - (widthNew - b.width))
  }

  /** The top-left thumb: right and bottom stay, the left and top edges follow. */
  function ResizeTopLeft(b: Box, dx: real, dy: real, floor: Size): (r: Box)
    ensures r.Right() == b.Right() && r.Bottom() == b.Bottom()
    ensures r.width >= floor.width && r.height >= floor.height
    ensures b.width - dx >= floor.width ==> r.left == b.left + dx
    ensures b.width - dx < floor.width ==> r.width == floor.width
    ensures b.height - dy >= floor.height ==> r.top == b.top + dy
    ensures b.height - dy < floor.height ==> r.height == floor.height
  {
    var widthNew := Max(b.width - dx, floor.width);
    var heightNew := Max(b.height - dy, floor.height);
    b.(width := widthNew, left := b.left - (widthNew - b.width),
       height := heightNew, top := b.top - (heightNew - b.height))
  }

  /** The handler of each corner. */
  function Resize(c: Corner, b: Box, dx: real, dy: real, floor: Size): Box
  {
    match c
    case TopLeft => ResizeTopLeft(b, dx, dy, floor)
    case TopRight => ResizeTopRight(b, dx, dy, floor)
    case BottomLeft => ResizeBottomLeft(b, dx, dy, floor)
    case BottomRight => ResizeBottomRight(b, dx, dy, floor)
  }

  /** The drag is undone by the opposite drag, for every corner, as long as neither
      drag hits the floor. */
  lemma ResizeRoundTrip(c: Corner, b: Box, dx: real, dy: real, floor: Size)
    requires b.width >= floor.width && b.height >= floor.height
    requires (c == TopRight || c == BottomRight) ==> b.width + dx >= floor.width
    requires (c == TopLeft || c == BottomLeft) ==> b.width - dx >= floor.width
    requires (c == BottomLeft || c == BottomRight) ==> b.height + dy >= floor.height
    requires (c == TopLeft || c == TopRight) ==> b.height - dy >= floor.height
    ensures Resize(c, Resize(c, b, dx, dy, floor), -dx, -dy, floor) == b
  {
  }

  /** A corner never moves the two edges that do not meet at it, floor or not. */
  lemma ResizeKeepsOppositeEdges(c: Corner, b: Box, dx: real, dy: real, floor: Size)
    ensures var r := Resize(c, b, dx, dy, floor);
      && (c == TopLeft || c == BottomLeft ==> r.Right() == b.Right())
      && (c == TopRight || c == BottomRight ==> r.left == b.left)
      && (c == TopLeft || c == TopRight ==> r.Bottom() == b.Bottom())
      && (c == BottomLeft || c == BottomRight ==> r.top == b.top)
  {
  }

  /** The resize decoration attached to a selected shape.  Each handler is what the
      corresponding thumb does on one drag event: `thumb` is the thumb's desired size
      (the floor; the thumbs are 5 by 5), `desired` the shape's desired size from the
      last layout pass and `parent` the canvas's actual size, when it has one. */
  class ResizingAdorner {
    const adorned: Shape

    constructor (adorned: Shape)
      ensures this.adorned == adorned
    {
      this.adorned := adorned;
    }

    /** The geometry the handlers start from once EnforceSize has run. */
    ghost function Start(desired: Size): Box
      reads adorned
    {
      Box(adorned.left, adorned.top, Enforced(adorned.width, desired.width), Enforced(adorned.height, desired.height))
    }

    /** Give NaN dimensions the desired size and cap the size at the parent's. */
    method EnforceSize(desired: Size, parent: Option<Size>)
      modifies adorned`width, adorned`height, adorned`maxSize
      ensures adorned.width == Px(Enforced(old(adorned.width), desired.width))
      ensures adorned.height == Px(Enforced(old(adorned.height), desired.height))
      ensures adorned.maxSize == if parent.Some? then parent else old(adorned.maxSize)
    {
      if adorned.width.Unset? {
        adorned.width := Px(desired.width);
      }
      if adorned.height.Unset? {
        adorned.height := Px(desired.height);
      }
      if parent.Some? {
        adorned.maxSize := Some(Size(parent.value.width, parent.value.height));
      }
    }

    method HandleBottomRight(dx: real, dy: real, thumb: Size, desired: Size, parent: Option<Size>)
      modifies adorned`width, adorned`height, adorned`maxSize, adorned`left, adorned`top
      ensures adorned.width.Px? && adorned.height.Px?
      ensures Box(adorned.left, adorned.top, adorned.width.v, adorned.height.v)
              == ResizeBottomRight(old(Start(desired)), dx, dy, thumb)
      ensures adorned.maxSize == if parent.Some? then parent else old(adorned.maxSize)
    {
      EnforceSize(desired, parent);
      adorned.width := Px(Max(adorned.width.v + dx, thumb.width));
      adorned.height := Px(Max(dy + adorned.height.v, thumb.height));
    }

    method HandleTopRight(dx: real, dy: real, thumb: Size, desired: Size, parent: Option<Size>)
      modifies adorned`width, adorned`height, adorned`maxSize, adorned`left, adorned`top
      ensures adorned.width.Px? && adorned.height.Px?
      ensures Box(adorned.left, adorned.top, adorned.width.v, adorned.height.v)
              == ResizeTopRight(old(Start(desired)), dx, dy, thumb)
      ensures adorned.maxSize == if parent.Some? then parent else old(adorned.maxSize)
    {
      EnforceSize(desired, parent);
      adorned.width := Px(Max(adorned.width.v + dx, thumb.width));
      var heightOld := adorned.height.v;
      var heightNew := Max(adorned.height.v - dy, thumb.height);
      var topOld := adorned.top;
      adorned.height := Px(heightNew);
      adorned.top := topOld - (heightNew - heightOld);
    }

    method HandleTopLeft(dx: real, dy: real, thumb: Size, desired: Size, parent: Option<Size>)
      modifies adorned`width, adorned`height, adorned`maxSize, adorned`left, adorned`top
      ensures adorned.width.Px? && adorned.height.Px?
      ensures Box(adorned.left, adorned.top, adorned.width.v, adorned.height.v)
              == ResizeTopLeft(old(Start(desired)), dx, dy, thumb)
      ensures adorned.maxSize == if parent.Some? then parent else old(adorned.maxSize)
    {
      EnforceSize(desired, parent);
      var widthOld := adorned.width.v;
      var widthNew := Max(adorned.width.v - dx, thumb.width);
      var leftOld := adorned.left;
      adorned.width := Px(widthNew);
      adorned.left := leftOld - (widthNew - widthOld);

      var heightOld := adorned.height.v;
      var heightNew := Max(adorned.height.v - dy, thumb.height);
      var topOld := adorned.top;
      adorned.height := Px(heightNew);
      adorned.top := topOld - (heightNew - heightOld);
    }

    method HandleBottomLeft(dx: real, dy: real, thumb: Size, desired: Size, parent: Option<Size>)
      modifies adorned`width, adorned`height, adorned`maxSize, adorned`left, adorned`top
      ensures adorned.width.Px? && adorned.height.Px?
      ensures Box(adorned.left, adorned.top, adorned.width.v, adorned.height.v)
              == ResizeBottomLeft(old(Start(desired)), dx, dy, thumb)
      ensures adorned.maxSize == if parent.Some? then parent else old(adorned.maxSize)
    {
      EnforceSize(desired, parent);
      adorned.height := Px(Max(dy + adorned.height.v, thumb.height));

      var widthOld := adorned.width.v;
      var widthNew := Max(adorned.width.v - dx, thumb.width);
      var leftOld := adorned.left;
      adorned.width := Px(widthNew);
      adorned.left := leftOld - (widthNew - widthOld);
    }
  }
}
