/** The Rectangle of src/js/index.js: position and size set once at
    construction, edges and area derived on every read, and the four child
    squares the gallery places against a parent's sides. */
module Shapes {

  /** Side of each child square. */
  const ChildSize := 50

  /** A rectangle; omitted arguments take the constructor's defaults. */
  datatype Rectangle = Rectangle(
    x: int := 0, y: int := 0,
    width: int := 0, height: int := 0,
    fillColor: string := "", strokeColor: string := "", strokeWidth: real := 2.0)
  {
    /** The area is the product of the horizontal and vertical spans. */
    function Area(): (a: int)
      ensures a == (Right() - Left()) * (Bottom() - Top())
    {
      width * height
    }

    /** The origin is the top-left corner, so the left edge is x; it is left
        of x + width, where the right edge lies, exactly when the width is
        positive. */
    function Left(): (l: int)
      ensures l < x + width <==> width > 0
    {
      x
    }

    /** The right edge lies width to the right of the left edge. */
    function Right(): (r: int)
      ensures r - Left() == width
    {
      x + width
    }

    /** The origin is the top-left corner, so the top edge is y; it is above
        y + height, where the bottom edge lies, exactly when the height is
        positive. */
    function Top(): (t: int)
      ensures t < y + height <==> height > 0
    {
      y
    }

    /** The bottom edge lies height below the top edge. */
    function Bottom(): (b: int)
      ensures b - Top() == height
    {
      y + height
    }
  }

  /** The interiors of a and b intersect. */
  predicate Overlap(a: Rectangle, b: Rectangle) {
    a.Left() < b.Right() && b.Left() < a.Right() && a.Top() < b.Bottom() && b.Top() < a.Bottom()
  }

  /** Two rectangles share a stretch of a side, touching from outside. */
  predicate FlushVertically(above: Rectangle, below: Rectangle) {
    above.Bottom() == below.Top()
  }

  predicate FlushHorizontally(left: Rectangle, right: Rectangle) {
    left.Right() == right.Left()
  }

  /** The red, green, blue and magenta squares placed on the top, right,
      bottom and left sides of parent, each flush against that side and
      aligned with the parent's top-left corner along it. */
  function ChildSquares(parent: Rectangle): (cs: seq<Rectangle>)
    ensures |cs| == 4
    ensures forall i :: 0 <= i < 4 ==> cs[i].width == ChildSize && cs[i].height == ChildSize
    ensures FlushVertically(cs[0], parent) && cs[0].Left() == parent.Left()
    ensures FlushHorizontally(parent, cs[1]) && cs[1].Top() == parent.Top()
    ensures FlushVertically(parent, cs[2]) && cs[2].Left() == parent.Left()
    ensures FlushHorizontally(cs[3], parent) && cs[3].Top() == parent.Top()
    ensures cs[0].fillColor == "red" && cs[1].fillColor == "green"
    ensures cs[2].fillColor == "blue" && cs[3].fillColor == "magenta"
  {
    [ Rectangle(parent.Left(), parent.Top() - ChildSize, ChildSize, ChildSize, "red"),
      Rectangle(parent.Right(), parent.Top(), ChildSize, ChildSize, "green"),
      Rectangle(parent.Left(), parent.Bottom(), ChildSize, ChildSize, "blue"),
      Rectangle(parent.Left() - ChildSize, parent.Top(), ChildSize, ChildSize, "magenta") ]
  }

  /** For a parent of non-negative size, no child square covers any part of
      it: each only touches one of its sides. */
  lemma ChildrenOutsideParent(parent: Rectangle)
    requires parent.width >= 0 && parent.height >= 0
    ensures forall i :: 0 <= i < 4 ==> !Overlap(ChildSquares(parent)[i], parent)
  {
  }

  /** A rectangle built with no arguments sits at the origin with no size,
      no colours and a stroke width of 2. */
  lemma DefaultRectangle()
    ensures var r := Rectangle();
      r.x == 0 && r.y == 0 && r.width == 0 && r.height == 0
      && r.fillColor == "" && r.strokeColor == "" && r.strokeWidth == 2.0
      && r.Area() == 0 && r.Left() == r.Right() && r.Top() == r.Bottom()
  {
  }
}
