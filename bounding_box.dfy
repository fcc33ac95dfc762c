/**
 * Axis-aligned boxes given by a min and a max corner
 * (src/BoundingBox3D.cpp, src/Point3D.cpp). Coordinates are reals.
 */
module BoundingBoxes {

  datatype Point3D = Point3D(x: real, y: real, z: real)

  /** Point3D::move and operator+: per-axis sum. */
  function Translate(p: Point3D, d: Point3D): (q: Point3D)
    ensures q.x - p.x == d.x && q.y - p.y == d.y && q.z - p.z == d.z
  {
    Point3D(p.x + d.x, p.y + d.y, p.z + d.z)
  }

  /** The per-axis extent max - min. */
  function Size(min: Point3D, max: Point3D): Point3D
  {
    Point3D(max.x - min.x, max.y - min.y, max.z - min.z)
  }

  /** min is below max on every axis. */
  predicate Ordered(min: Point3D, max: Point3D)
  {
    min.x <= max.x && min.y <= max.y && min.z <= max.z
  }

  /** p lies in the closed box [min, max]. */
  predicate Contains(min: Point3D, max: Point3D, p: Point3D)
  {
    min.x <= p.x <= max.x && min.y <= p.y <= max.y && min.z <= p.z <= max.z
  }

  /** The intervals [lo1, hi1] and [lo2, hi2] are apart: one ends strictly before the other begins. */
  predicate Apart(lo1: real, hi1: real, lo2: real, hi2: real)
  {
    hi1 < lo2 || hi2 < lo1
  }

  /** The boxes are separated on at least one axis. */
  predicate Separated(aMin: Point3D, aMax: Point3D, bMin: Point3D, bMax: Point3D)
  {
    Apart(aMin.x, aMax.x, bMin.x, bMax.x) ||
    Apart(aMin.y, aMax.y, bMin.y, bMax.y) ||
    Apart(aMin.z, aMax.z, bMin.z, bMax.z)
  }

  /**
   * BoundingBox3D::intersects, axis by axis in the source's order: any axis
   * without overlap answers false; touching faces overlap.
   */
  function IntersectsBoxes(aMin: Point3D, aMax: Point3D, bMin: Point3D, bMax: Point3D): (r: bool)
    ensures r <==> !Separated(aMin, aMax, bMin, bMax)
  {
    if aMax.x < bMin.x || aMin.x > bMax.x then false
    else if aMax.y < bMin.y || aMin.y > bMax.y then false
    else if aMax.z < bMin.z || aMin.z > bMax.z then false
    else true
  }

  /** For boxes with min <= max, intersecting means sharing a point. */
  lemma IntersectsIffCommonPoint(aMin: Point3D, aMax: Point3D, bMin: Point3D, bMax: Point3D)
    requires Ordered(aMin, aMax) && Ordered(bMin, bMax)
    ensures IntersectsBoxes(aMin, aMax, bMin, bMax) <==>
      exists p :: Contains(aMin, aMax, p) && Contains(bMin, bMax, p)
  {
    if IntersectsBoxes(aMin, aMax, bMin, bMax) {
      var p := Point3D(Max(aMin.x, bMin.x), Max(aMin.y, bMin.y), Max(aMin.z, bMin.z));
      assert Contains(aMin, aMax, p) && Contains(bMin, bMax, p);
    } else {
      forall p | Contains(aMin, aMax, p)
        ensures !Contains(bMin, bMax, p)
      {
        assert Separated(aMin, aMax, bMin, bMax);
      }
    }
  }

  function Max(a: real, b: real): real
  {
    if a < b then b else a
  }

  lemma IntersectsSymmetric(aMin: Point3D, aMax: Point3D, bMin: Point3D, bMax: Point3D)
    ensures IntersectsBoxes(aMin, aMax, bMin, bMax) == IntersectsBoxes(bMin, bMax, aMin, aMax)
  {
  }

  /** A box with min <= max intersects itself. */
  lemma IntersectsSelf(min: Point3D, max: Point3D)
    requires Ordered(min, max)
    ensures IntersectsBoxes(min, max, min, max)
  {
  }

  /** Boxes whose faces touch (b starts where a ends on x and they overlap elsewhere) intersect. */
  lemma TouchingFacesIntersect(aMin: Point3D, aMax: Point3D, bMin: Point3D, bMax: Point3D)
    requires Ordered(aMin, aMax) && Ordered(bMin, bMax)
    requires bMin.x == aMax.x
    requires !Apart(aMin.y, aMax.y, bMin.y, bMax.y) && !Apart(aMin.z, aMax.z, bMin.z, bMax.z)
    ensures IntersectsBoxes(aMin, aMax, bMin, bMax)
  {
  }

  /** Moving both boxes by the same delta keeps the answer. */
  lemma IntersectsTranslationInvariant(aMin: Point3D, aMax: Point3D, bMin: Point3D, bMax: Point3D, d: Point3D)
    ensures IntersectsBoxes(Translate(aMin, d), Translate(aMax, d), Translate(bMin, d), Translate(bMax, d)) ==
            IntersectsBoxes(aMin, aMax, bMin, bMax)
  {
  }

  class BoundingBox3D {
    var min: Point3D
    var max: Point3D

    constructor (min: Point3D, max: Point3D)
      ensures this.min == min && this.max == max
    {
      this.min := min;
      this.max := max;
    }

    /** move(dx, dy, dz): shifts both corners, so the size is kept. */
    method Move(dx: real, dy: real, dz: real)
      modifies this
      ensures min == Translate(old(min), Point3D(dx, dy, dz))
      ensures max == Translate(old(max), Point3D(dx, dy, dz))
      ensures Size(min, max) == Size(old(min), old(max))
    {
      min := Translate(min, Point3D(dx, dy, dz));
      max := Translate(max, Point3D(dx, dy, dz));
    }

    /** move(dPoint): the same shift given as a point. */
    method MovePoint(d: Point3D)
      modifies this
      ensures min == Translate(old(min), d) && max == Translate(old(max), d)
      ensures Size(min, max) == Size(old(min), old(max))
    {
      min := Translate(min, d);
      max := Translate(max, d);
    }

    /**
     * Whether the two boxes touch or overlap: the test is symmetric, and for
     * boxes whose corners are ordered it holds exactly when they share a point.
     */
    function Intersects(other: BoundingBox3D): (b: bool)
      reads this, other
      ensures b <==> !Separated(min, max, other.min, other.max)
      ensures b == IntersectsBoxes(other.min, other.max, min, max)
      ensures Ordered(min, max) && Ordered(other.min, other.max) ==>
        (b <==> exists p :: Contains(min, max, p) && Contains(other.min, other.max, p))
    {
      IntersectsSymmetric(min, max, other.min, other.max);
      if Ordered(min, max) && Ordered(other.min, other.max) then
        IntersectsIffCommonPoint(min, max, other.min, other.max);
        IntersectsBoxes(min, max, other.min, other.max)
      else
        IntersectsBoxes(min, max, other.min, other.max)
    }

    /**
     * The box placed at bottomLeftOrigin: its min is the origin and its max
     * the origin plus this box's max; this box's min is not consulted.
     */
    method GetAbsoluteBoundingBox(bottomLeftOrigin: Point3D) returns (bb: BoundingBox3D)
      ensures fresh(bb)
      ensures bb.min == bottomLeftOrigin
      ensures Size(bb.min, bb.max) == max
    {
      bb := new BoundingBox3D(bottomLeftOrigin, Translate(bottomLeftOrigin, max));
    }
  }
}
