/**
 * Plain-data stand-ins for the geometry-kernel objects the revolver builds.
 * Each constructor records what the kernel was asked to build; the kernel's own
 * semantics (interpolation, topology checks, sweeping) are not modelled.
 */
module Geometry {

  /** The internal length unit: one millimetre, as in the kernel. */
  const MM: real := 1.0

  /** gp_Pnt: a point in model units (millimetres). */
  datatype Point = Point(x: real, y: real, z: real)

  /** gp_Dir: a direction vector. */
  datatype Direction = Direction(dx: real, dy: real, dz: real)

  /** Result of GeomAPI_PointsToBSpline(points).Curve(): a B-spline requested from `points`, in order. */
  datatype Curve = BSplineThrough(points: seq<Point>)

  /** BRepBuilderAPI_MakeEdge from two points, or from a curve. */
  datatype Edge =
    | Segment(start: Point, end: Point)
    | CurveEdge(curve: Curve)

  /** A wire, as the ordered list of edges added to its builder. */
  datatype Wire = Wire(edges: seq<Edge>)

  /** BRepBuilderAPI_MakeFace(wire).Face(). */
  datatype Face = PlanarFace(boundary: Wire)

  /** gp_Ax1: an axis through `origin` along `direction`. */
  datatype Axis = Axis(origin: Point, direction: Direction)

  /** gp_OZ(): the Z axis through the origin. */
  const OZ: Axis := Axis(Point(0.0, 0.0, 0.0), Direction(0.0, 0.0, 1.0))

  /** The sweep angle handed to np.deg2rad, in degrees. */
  const FullTurnDegrees: real := 360.0

  /** BRepPrimAPI_MakeRevol(face, axis, angle).Shape(), with the angle kept in degrees. */
  datatype Shape = Revolution(face: Face, axis: Axis, angleDegrees: real)
}
