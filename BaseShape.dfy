/** The shape entity: a visual element on the canvas that knows whether it is
    selected and where it was last committed.  The adorner layer is reduced to a
    count of resize decorations attached to the shape. */
module Shapes {
  import opened Wrappers
  import opened Geometry

  class Shape {
    /** The committed top-left corner (`_location`). */
    var location: Point
    /** The canvas attached properties Left and Top: where the shape is shown. */
    var left: real
    var top: real
    /** The element's Width and Height, NaN (`Unset`) until assigned. */
    var width: Dim
    var height: Dim
    /** MaxWidth / MaxHeight; `None` is the framework's default of +infinity. */
    var maxSize: Option<Size>
    var isSelected: bool
    /** Resize decorations this shape has in the adorner layer. */
    var adorners: nat

    /** The display name every shape kind inherits. */
    const shapeName: string

    /** A decoration is attached exactly while the shape is selected. */
    ghost predicate Valid()
      reads this
    {
      adorners == if isSelected then 1 else 0
    }

    /** The positional constructor: place the shape and give it a size. */
    constructor (location: Point, size: Size)
      ensures Valid() && !isSelected
      ensures this.location == location && left == location.x && top == location.y
      ensures width == Px(size.width) && height == Px(size.height)
      ensures maxSize == None
      ensures shapeName == "Shape"
    {
      shapeName := "Shape";
      maxSize := None;
      isSelected := false;
      adorners := 0;
      this.location := location;
      left := location.x;
      top := location.y;
      width := Px(size.width);
      height := Px(size.height);
    }

    /** The IsSelected setter: acts only when the value changes; selecting attaches a
        decoration, deselecting removes one if there is one. */
    method SetSelected(value: bool)
      requires Valid()
      modifies this`isSelected, this`adorners
      ensures Valid() && isSelected == value
      ensures value == old(isSelected) ==> adorners == old(adorners)
    {
      if isSelected != value {
        isSelected := value;
        if isSelected {
          adorners := adorners + 1;
        } else {
          if adorners > 0 {
            adorners := adorners - 1;
          }
        }
      }
    }

    /** The Location setter: store the point and show the shape there. */
    method SetLocation(p: Point)
      modifies this`location, this`left, this`top
      ensures location == p && left == p.x && top == p.y
    {
      location := p;
      left := location.x;
      top := location.y;
    }
  }
}
