/**
 * `revolve` of revolver.py: the generatrix wire through the profile points,
 * either as a polyline (one straight edge per consecutive pair of points) or
 * as a single B-spline edge, its face, and the request to revolve that face
 * about the Z axis through a full turn.
 */
module Generatrix {
  import opened Geometry
  import opened Profile
  import opened PointLists

  /** BRepBuilderAPI_MakeWire: a builder that collects edges in the order they are added. */
  class WireBuilder {
    var edges: seq<Edge>

    /** BRepBuilderAPI_MakeWire(): an empty builder. */
    constructor ()
      ensures edges == []
    {
      edges := [];
    }

    /** BRepBuilderAPI_MakeWire(edge): a builder holding one edge. */
    constructor FromEdge(e: Edge)
      ensures edges == [e]
    {
      edges := [e];
    }

    /** wire.Add(edge): the edge goes after those already added. */
    method Add(e: Edge)
      modifies this
      ensures edges == old(edges) + [e]
    {
      edges := edges + [e];
    }

    /** builder.Wire(): the wire built from the collected edges. */
    function Wire(): Wire
      reads this
    {
      Geometry.Wire(edges)
    }
  }

  /** Reference definition of the polyline: one straight edge per consecutive pair of points. */
  function PolylineEdges(pts: seq<Point>): seq<Edge>
  {
    if |pts| < 2 then [] else [Segment(pts[0], pts[1])] + PolylineEdges(pts[1..])
  }

  /** `max(n - 1, 0)` for `n` points. */
  function EdgeCount(n: nat): nat
  {
    if n == 0 then 0 else n - 1
  }

  /** A polyline through `n` points has `max(n - 1, 0)` edges, and edge `i` runs from point `i` to point `i + 1`. */
  lemma {:induction false} PolylineEdgesAt(pts: seq<Point>)
    ensures |PolylineEdges(pts)| == EdgeCount(|pts|)
    ensures forall i :: 0 <= i < |PolylineEdges(pts)| ==>
              PolylineEdges(pts)[i] == Segment(pts[i], pts[i + 1])
  {
    if |pts| >= 2 {
      PolylineEdgesAt(pts[1..]);
    }
  }

  /** Every edge is straight and each one starts where the previous one ends. */
  ghost predicate IsChain(es: seq<Edge>)
  {
    (forall i :: 0 <= i < |es| ==> es[i].Segment?) &&
    (forall i :: 0 <= i < |es| - 1 ==> es[i].end == es[i + 1].start)
  }

  /** The end points of a sequence of straight edges, in order. */
  function Ends(es: seq<Edge>): seq<Point>
    requires forall i :: 0 <= i < |es| ==> es[i].Segment?
  {
    if es == [] then [] else [es[0].end] + Ends(es[1..])
  }

  /** The vertices a chain passes through: the start of its first edge, then the end of every edge. */
  function ChainVertices(es: seq<Edge>): seq<Point>
    requires forall i :: 0 <= i < |es| ==> es[i].Segment?
  {
    if es == [] then [] else [es[0].start] + Ends(es)
  }

  /**
   * The polyline is a chain from the first point to the last, and reading its
   * vertices back gives the points it was built from.
   */
  lemma {:induction false} PolylineIsChain(pts: seq<Point>)
    requires |pts| >= 2
    ensures IsChain(PolylineEdges(pts))
    ensures PolylineEdges(pts)[0].start == pts[0]
    ensures PolylineEdges(pts)[|PolylineEdges(pts)| - 1].end == pts[|pts| - 1]
    ensures ChainVertices(PolylineEdges(pts)) == pts
  {
    PolylineEdgesAt(pts);
    PolylineEnds(pts);
    var es := PolylineEdges(pts);
    forall i | 0 <= i < |es| - 1
      ensures es[i].end == es[i + 1].start
    {
      assert es[i] == Segment(pts[i], pts[i + 1]) && es[i + 1] == Segment(pts[i + 1], pts[i + 2]);
    }
  }

  /** The ends of the polyline's edges are the points after the first. */
  lemma {:induction false} PolylineEnds(pts: seq<Point>)
    requires |pts| >= 1
    ensures forall i :: 0 <= i < |PolylineEdges(pts)| ==> PolylineEdges(pts)[i].Segment?
    ensures Ends(PolylineEdges(pts)) == pts[1..]
  {
    PolylineEdgesAt(pts);
    if |pts| >= 2 {
      PolylineEnds(pts[1..]);
      assert pts[1..] == [pts[1]] + pts[1..][1..];
    }
  }

  /**
   * The linear branch of `revolve`: a fresh wire builder receives one edge per
   * consecutive pair of points, in order.
   */
  method PolylineWire(pts: seq<Point>) returns (w: Wire)
    ensures w == Wire(PolylineEdges(pts))
  {
    var builder := new WireBuilder();
    var i := 0;
    while i < |pts| - 1
      invariant 0 <= i <= EdgeCount(|pts|)
      invariant |builder.edges| == i
      invariant forall k :: 0 <= k < i ==> builder.edges[k] == Segment(pts[k], pts[k + 1])
    {
      var edge := Segment(pts[i], pts[i + 1]);
      builder.Add(edge);
      i := i + 1;
    }
    w := builder.Wire();
    PolylineEdgesAt(pts);
    assert w.edges == PolylineEdges(pts) by {
      forall k | 0 <= k < i
        ensures w.edges[k] == PolylineEdges(pts)[k]
      {
        assert builder.edges[k] == Segment(pts[k], pts[k + 1]);
        assert PolylineEdges(pts)[k] == Segment(pts[k], pts[k + 1]);
      }
    }
  }

  /** The generatrix wire of either mode. */
  function GeneratrixWire(pts: seq<Point>, useBSpline: bool): Wire
  {
    if useBSpline then Wire([CurveEdge(BSplineThrough(pts))])
    else Wire(PolylineEdges(pts))
  }

  /**
   * The B-spline wire has exactly one edge, a curve through every point in
   * order; the polyline wire has `max(n - 1, 0)` straight edges.
   */
  lemma GeneratrixEdgeCount(pts: seq<Point>, useBSpline: bool)
    ensures |GeneratrixWire(pts, useBSpline).edges| ==
            if useBSpline then 1 else EdgeCount(|pts|)
    ensures useBSpline ==> GeneratrixWire(pts, useBSpline).edges[0].CurveEdge? &&
                           GeneratrixWire(pts, useBSpline).edges[0].curve.points == pts
  {
    PolylineEdgesAt(pts);
  }

  /** The shape `revolve` requests: one face bounded by the generatrix, swept about OZ through 360 degrees. */
  function RevolvedShape(pts: seq<Point>, useBSpline: bool): Shape
  {
    Revolution(PlanarFace(GeneratrixWire(pts, useBSpline)), OZ, FullTurnDegrees)
  }

  /**
   * revolve(z_vals, r_vals, use_bspline): build the edge points, the wire of the
   * chosen mode, one face, and revolve it about the Z axis through a full turn.
   */
  method Revolve(zVals: seq<real>, rVals: seq<real>, useBSpline: bool) returns (shape: Shape)
    ensures shape == RevolvedShape(EdgePoints(zVals, rVals), useBSpline)
    ensures shape.axis == OZ && shape.angleDegrees == 360.0
  {
    var edgePoints := EdgePoints(zVals, rVals);
    var pathWire: Wire;
    if useBSpline {
      var arr := PointList(edgePoints);
      var bspline := BSplineThrough(arr.Elements());
      var pathEdge := CurveEdge(bspline);
      var builder := new WireBuilder.FromEdge(pathEdge);
      pathWire := builder.Wire();
    } else {
      pathWire := PolylineWire(edgePoints);
    }
    var face := PlanarFace(pathWire);
    shape := Revolution(face, OZ, FullTurnDegrees);
  }
}
