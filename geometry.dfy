/**
 * Points, displacements and the axis-aligned boxes they span (game.js:3-66).
 * Coordinates are mathematical reals: the engine's logic is exact geometry.
 */
module Geometry {

  /** An immutable point or displacement. */
  datatype Vector = Vector(x: real, y: real) {

    /** The component-wise sum of this vector and `v`. */
    function Plus(v: Vector): Vector {
      Vector(x + v.x, y + v.y)
    }

    /** This vector with both components scaled by `m`. */
    function Times(m: real): Vector {
      Vector(x * m, y * m)
    }
  }

  lemma PlusCommutative(a: Vector, b: Vector)
    ensures a.Plus(b) == b.Plus(a)
    ensures a.Plus(b).x == a.x + b.x && a.Plus(b).y == a.y + b.y
  {
  }

  lemma PlusAssociative(a: Vector, b: Vector, c: Vector)
    ensures a.Plus(b).Plus(c) == a.Plus(b.Plus(c))
  {
  }

  lemma TimesDistributes(v: Vector, s: real, t: real)
    ensures v.Times(s + t) == v.Times(s).Plus(v.Times(t))
  {
  }

  /**
   * The rectangle whose top-left corner is `pos` and whose extent is `size`:
   * the left, top, right and bottom edges of an actor.
   */
  datatype Box = Box(pos: Vector, size: Vector) {

    function Left(): real { pos.x }

    function Top(): real { pos.y }

    function Right(): real { pos.x + size.x }

    function Bottom(): real { pos.y + size.y }

    /** Strict overlap of the open rectangles: a shared edge is not an overlap. */
    predicate Overlaps(other: Box) {
      Left() < other.Right() && Right() > other.Left() &&
      Top() < other.Bottom() && Bottom() > other.Top()
    }
  }

  lemma OverlapsSymmetric(a: Box, b: Box)
    ensures a.Overlaps(b) <==> b.Overlaps(a)
  {
  }

  /** Boxes that only touch along a vertical or a horizontal edge do not overlap. */
  lemma EdgeContactIsNotOverlap(a: Box, b: Box)
    requires a.Right() == b.Left() || a.Bottom() == b.Top()
    ensures !a.Overlaps(b) && !b.Overlaps(a)
  {
  }

  /** Any box of positive size overlaps itself; only identity keeps an actor from hitting itself. */
  lemma OverlapsItself(a: Box)
    requires a.size.x > 0.0 && a.size.y > 0.0
    ensures a.Overlaps(a)
  {
  }
}
