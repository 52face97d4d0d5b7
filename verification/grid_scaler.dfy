/** Monitor grid units to Application pixel space. */
module GridScaler {

  /** Pixels per Monitor grid unit, horizontally and vertically. */
  const UNIT_W := 33
  const UNIT_H := 14

  /** A rectangle in Monitor grid units. */
  datatype GridBox = GridBox(x: int, y: int, width: int, height: int)

  /** A rectangle in Application pixel space, with its stacking order. */
  datatype Geometry = Geometry(x: int, y: int, z: int, width: int, height: int)

  /** Scales a Monitor box into Application space, at the bottom of the stacking order. */
  function ToAppGeometry(b: GridBox): Geometry
  {
    Geometry(b.x * UNIT_W, b.y * UNIT_H, 0, b.width * UNIT_W, b.height * UNIT_H)
  }

  /**
   * The scaled box lies on the Application grid and the scaling is exact: the
   * Monitor box can be read back from it, and nothing is clamped or rounded.
   */
  lemma ScalingIsExact(b: GridBox)
    ensures var g := ToAppGeometry(b);
      g.z == 0 &&
      g.x % UNIT_W == 0 && g.width % UNIT_W == 0 &&
      g.y % UNIT_H == 0 && g.height % UNIT_H == 0 &&
      g.x / UNIT_W == b.x && g.width / UNIT_W == b.width &&
      g.y / UNIT_H == b.y && g.height / UNIT_H == b.height
  {
  }

  /** Two half-open intervals [lo1, lo1 + len1) and [lo2, lo2 + len2) intersect. */
  predicate IntervalsOverlap(lo1: int, len1: int, lo2: int, len2: int)
  {
    lo1 < lo2 + len2 && lo2 < lo1 + len1
  }

  /** Two Monitor boxes share some grid cell. */
  predicate BoxesOverlap(a: GridBox, b: GridBox)
  {
    IntervalsOverlap(a.x, a.width, b.x, b.width) && IntervalsOverlap(a.y, a.height, b.y, b.height)
  }

  /** Two Application rectangles share some pixel (stacking order ignored). */
  predicate GeometriesOverlap(a: Geometry, b: Geometry)
  {
    IntervalsOverlap(a.x, a.width, b.x, b.width) && IntervalsOverlap(a.y, a.height, b.y, b.height)
  }

  /** Scaling keeps the layout: widgets overlap after conversion exactly when they did before. */
  lemma ScalingPreservesOverlap(a: GridBox, b: GridBox)
    ensures BoxesOverlap(a, b) <==> GeometriesOverlap(ToAppGeometry(a), ToAppGeometry(b))
  {
  }

  /** A widget placed right of another stays right of it, and likewise below. */
  lemma ScalingPreservesOrder(a: GridBox, b: GridBox)
    ensures a.x < b.x <==> ToAppGeometry(a).x < ToAppGeometry(b).x
    ensures a.y < b.y <==> ToAppGeometry(a).y < ToAppGeometry(b).y
  {
  }
}
