/**
  Axis-aligned rectangles in the world X/Z plane and their collision test.
  `center` is (x, z); `size` is (width, depth), full extents. The test is a
  closed-interval separating-axis test: rectangles that only touch collide.
*/
module Rectangles {

  datatype Rectangle = Rectangle(center: (real, real), size: (real, real))

  function Abs(v: real): (r: real)
    ensures r >= 0.0 && (r == v || r == -v)
  {
    if v < 0.0 then -v else v
  }

  /** Sizes are non-negative; every rectangle the game builds satisfies this. */
  predicate WellFormed(r: Rectangle) {
    r.size.0 >= 0.0 && r.size.1 >= 0.0
  }

  /** Constructor: stores center and size as given. */
  function New(center: (real, real), size: (real, real)): (r: Rectangle)
    ensures r.center == center && r.size == size
    ensures size.0 >= 0.0 && size.1 >= 0.0 ==> WellFormed(r)
  {
    Rectangle(center, size)
  }

  // Edges of the closed rectangle, an independent description used to
  // state what the collision test means.
  function MinX(r: Rectangle): real { r.center.0 - r.size.0 / 2.0 }
  function MaxX(r: Rectangle): real { r.center.0 + r.size.0 / 2.0 }
  function MinZ(r: Rectangle): real { r.center.1 - r.size.1 / 2.0 }
  function MaxZ(r: Rectangle): real { r.center.1 + r.size.1 / 2.0 }

  /** Closed intervals [lo1, hi1] and [lo2, hi2] share a point (given lo <= hi). */
  predicate Overlap(lo1: real, hi1: real, lo2: real, hi2: real) {
    lo1 <= hi2 && lo2 <= hi1
  }

  /** Point p = (x, z) lies in the closed rectangle r. */
  predicate Contains(r: Rectangle, p: (real, real)) {
    MinX(r) <= p.0 <= MaxX(r) && MinZ(r) <= p.1 <= MaxZ(r)
  }

  /**
    The collision test: twice the center distance on each axis is at most
    the sum of the extents on that axis (non-strict on both axes).
  */
  function Collision(a: Rectangle, b: Rectangle): (r: bool)
    ensures r <==> (Overlap(MinX(a), MaxX(a), MinX(b), MaxX(b)) &&
                    Overlap(MinZ(a), MaxZ(a), MinZ(b), MaxZ(b)))
  {
    var dx := Abs(a.center.0 - b.center.0);
    var hh := a.size.0 + b.size.0;
    var dy := Abs(a.center.1 - b.center.1);
    var vv := a.size.1 + b.size.1;
    2.0 * dy <= vv && 2.0 * dx <= hh
  }

  /** Shift the center along X; the size is left alone. */
  function MoveX(r: Rectangle, dx: real): (r': Rectangle)
    ensures r'.center == (r.center.0 + dx, r.center.1) && r'.size == r.size
  {
    r.(center := (r.center.0 + dx, r.center.1))
  }

  /** Shift the center along Z (the source's `move_y`); the size is left alone. */
  function MoveZ(r: Rectangle, dz: real): (r': Rectangle)
    ensures r'.center == (r.center.0, r.center.1 + dz) && r'.size == r.size
  {
    r.(center := (r.center.0, r.center.1 + dz))
  }

  /** The moved rectangle covers exactly the moved points. */
  lemma MoveXContains(r: Rectangle, dx: real, p: (real, real))
    ensures Contains(MoveX(r, dx), p) <==> Contains(r, (p.0 - dx, p.1))
  {
  }

  lemma MoveZContains(r: Rectangle, dz: real, p: (real, real))
    ensures Contains(MoveZ(r, dz), p) <==> Contains(r, (p.0, p.1 - dz))
  {
  }

  /** The center of the rectangle, (x, z). */
  function GetCenter(r: Rectangle): (c: (real, real))
    ensures c.0 == (MinX(r) + MaxX(r)) / 2.0 && c.1 == (MinZ(r) + MaxZ(r)) / 2.0
    ensures WellFormed(r) ==> Contains(r, c)
  {
    r.center
  }

  /** Collision is exactly the two interval tests on the centers and sizes. */
  lemma CollisionAxes(a: Rectangle, b: Rectangle)
    ensures Collision(a, b) <==>
      (2.0 * Abs(a.center.0 - b.center.0) <= a.size.0 + b.size.0 &&
       2.0 * Abs(a.center.1 - b.center.1) <= a.size.1 + b.size.1)
  {
  }

  lemma CollisionSymmetric(a: Rectangle, b: Rectangle)
    ensures Collision(a, b) == Collision(b, a)
  {
  }

  /** Two well-formed rectangles with a common center always collide. */
  lemma SameCenterCollide(a: Rectangle, b: Rectangle)
    requires WellFormed(a) && WellFormed(b)
    requires a.center == b.center
    ensures Collision(a, b)
  {
  }

  /** Moving both rectangles by the same vector does not change the verdict. */
  lemma CollisionTranslationInvariant(a: Rectangle, b: Rectangle, dx: real, dz: real)
    ensures Collision(MoveZ(MoveX(a, dx), dz), MoveZ(MoveX(b, dx), dz)) == Collision(a, b)
  {
  }

  /**
    For well-formed rectangles the collision test holds exactly when the two
    closed rectangles have a point in common.
  */
  lemma CollisionIffCommonPoint(a: Rectangle, b: Rectangle)
    requires WellFormed(a) && WellFormed(b)
    ensures Collision(a, b) <==> exists p :: Contains(a, p) && Contains(b, p)
  {
    if Collision(a, b) {
      var px := if MinX(a) < MinX(b) then MinX(b) else MinX(a);
      var pz := if MinZ(a) < MinZ(b) then MinZ(b) else MinZ(a);
      assert Contains(a, (px, pz)) && Contains(b, (px, pz));
    }
    if exists p :: Contains(a, p) && Contains(b, p) {
      var p :| Contains(a, p) && Contains(b, p);
      assert Overlap(MinX(a), MaxX(a), MinX(b), MaxX(b));
    }
  }

  /** Moves compose additively and a move followed by its opposite is the identity. */
  lemma MoveXCompose(r: Rectangle, d1: real, d2: real)
    ensures MoveX(MoveX(r, d1), d2) == MoveX(r, d1 + d2)
    ensures MoveX(MoveX(r, d1), -d1) == r
  {
  }

  lemma MoveZCompose(r: Rectangle, d1: real, d2: real)
    ensures MoveZ(MoveZ(r, d1), d2) == MoveZ(r, d1 + d2)
    ensures MoveZ(MoveZ(r, d1), -d1) == r
  {
  }

  /** A square at the origin moved +10 then -20 on one axis ends at -10 on it. */
  lemma MoveExamples()
    ensures GetCenter(MoveX(MoveX(New((0.0, 0.0), (1.0, 1.0)), 10.0), -20.0)) == (-10.0, 0.0)
    ensures GetCenter(MoveZ(MoveZ(New((0.0, 0.0), (1.0, 1.0)), 10.0), -20.0)) == (0.0, -10.0)
  {
  }

  /** Unit squares with touching edges collide; three units apart they do not (X axis). */
  lemma UnitSquaresX()
    ensures Collision(New((0.0, 0.0), (1.0, 1.0)), New((1.0, 0.0), (1.0, 1.0)))
    ensures !Collision(New((0.0, 0.0), (1.0, 1.0)), New((3.0, 0.0), (1.0, 1.0)))
  {
  }

  /** The same boundary behaviour on the second (Z) axis. */
  lemma UnitSquaresZ()
    ensures Collision(New((0.0, 0.0), (1.0, 1.0)), New((0.0, 1.0), (1.0, 1.0)))
    ensures !Collision(New((0.0, 0.0), (1.0, 1.0)), New((0.0, 3.0), (1.0, 1.0)))
  {
  }
}
