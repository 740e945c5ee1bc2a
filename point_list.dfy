/**
 * `point_list` of revolver.py: copy a list of points into a kernel point array
 * (TColgp_Array1OfPnt) whose indices run from 1 to the length of the list.
 */
module PointLists {
  import opened Geometry

  /** TColgp_Array1OfPnt: a fixed-size point array indexed `lower..upper`. */
  class PointArray1 {
    const lower: int
    const upper: int
    const data: array<Point>

    ghost predicate Valid()
      reads this
    {
      data.Length == upper - lower + 1
    }

    /** The stored points, from index `lower` up to index `upper`. */
    function Elements(): (s: seq<Point>)
      reads this, data
    {
      data[..]
    }

    /** The point at index `i`. */
    function Value(i: int): Point
      reads this, data
      requires Valid() && lower <= i <= upper
    {
      data[i - lower]
    }

    /** TColgp_Array1OfPnt(lower, upper): an array of `upper - lower + 1` points, all at the origin. */
    constructor (lower: int, upper: int)
      requires lower <= upper + 1
      ensures Valid() && fresh(data)
      ensures this.lower == lower && this.upper == upper
      ensures Elements() == seq(upper - lower + 1, _ => Point(0.0, 0.0, 0.0))
    {
      this.lower := lower;
      this.upper := upper;
      data := new Point[upper - lower + 1](_ => Point(0.0, 0.0, 0.0));
    }

    /** SetValue(i, p): index `i` now holds `p`; every other index keeps its point. */
    method SetValue(i: int, p: Point)
      requires Valid() && lower <= i <= upper
      modifies data
      ensures Valid()
      ensures Elements() == old(Elements())[i - lower := p]
    {
      data[i - lower] := p;
    }
  }

  /**
   * point_list(li): a fresh array indexed `1..|li|` in which index `n + 1`
   * holds `li[n]`; the array has no index outside that range.
   */
  method PointList(li: seq<Point>) returns (pts: PointArray1)
    ensures fresh(pts) && fresh(pts.data) && pts.Valid()
    ensures pts.lower == 1 && pts.upper == |li|
    ensures forall n :: 0 <= n < |li| ==> pts.Value(n + 1) == li[n]
    ensures pts.Elements() == li
  {
    pts := new PointArray1(1, |li|);
    for n := 0 to |li|
      invariant pts.Valid() && pts.lower == 1 && pts.upper == |li|
      invariant forall k :: 0 <= k < n ==> pts.data[k] == li[k]
    {
      pts.SetValue(n + 1, li[n]);
    }
  }
}
