/**
 * `main` of revolver.py: read the model parameters, transform the profile,
 * revolve it, then run the output loop. Reading the configuration file is not
 * modelled: the parsed configuration is the input.
 */
module Pipeline {
  import opened Wrappers
  import opened Geometry
  import opened Profile
  import opened Generatrix
  import opened Export

  /** The parsed configuration: its `Model` table and its `Output` list. */
  datatype Conf = Conf(model: ModelConf, outputs: seq<OutputConf>)

  /** What one run produces: the revolved surface and the actions performed on it. */
  datatype Run = Run(surface: Shape, actions: seq<Action>)

  /**
   * One run of `main`. An empty profile fails while unpacking the columns,
   * before anything is revolved or written; otherwise the surface revolves the
   * configured profile points and the outputs are processed in order.
   */
  method RunJob(conf: Conf, dirname: string -> string) returns (r: Result<Run, ProfileError>)
    ensures r.Err? <==> conf.model.rz == []
    ensures r.Ok? ==> ProfilePoints(conf.model).Ok?
    ensures r.Ok? ==> r.value.surface == RevolvedShape(ProfilePoints(conf.model).value, conf.model.useBSpline)
    ensures r.Ok? ==> r.value.actions == ExportLog(conf.outputs, dirname)
  {
    var args := RevolveArguments(conf.model);
    if args.Err? {
      return Err(args.error);
    }
    var surface := Revolve(args.value.z, args.value.r, conf.model.useBSpline);
    var actions := ExportAll(conf.outputs, dirname);
    r := Ok(Run(surface, actions));
  }

  /**
   * End to end, in linear mode: the surface's generatrix has one straight edge
   * per pair of consecutive rows, joining the points those rows are placed at.
   */
  lemma LinearGeneratrixFromRows(m: ModelConf)
    requires !m.useBSpline && m.rz != []
    ensures ProfilePoints(m).Ok?
    ensures var es := RevolvedShape(ProfilePoints(m).value, false).face.boundary.edges;
      && |es| == |m.rz| - 1
      && forall i :: 0 <= i < |es| ==>
           es[i] == Segment(PlacedPoint(m.rz[i], m.scale, m.z0), PlacedPoint(m.rz[i + 1], m.scale, m.z0))
  {
    PolylineEdgesAt(ProfilePoints(m).value);
  }

  /**
   * A one-row profile is not rejected: it yields one point, and in linear mode
   * a wire with no edge, left for the kernel to refuse.
   */
  lemma SingleRowAccepted(m: ModelConf)
    requires |m.rz| == 1
    ensures ProfilePoints(m).Ok? && |ProfilePoints(m).value| == 1
    ensures RevolvedShape(ProfilePoints(m).value, false).face.boundary.edges == []
  {
  }

  /**
   * The rows (0, 5), (10, 5), (10, 0) at scale 1 and z0 = 0, in linear mode:
   * two straight edges, down the side at radius 5 and across to the axis.
   */
  lemma CappedCylinderProfile()
    ensures var m := ModelConf(1.0, 0.0, false, [Row(0.0, 5.0), Row(10.0, 5.0), Row(10.0, 0.0)]);
      && ProfilePoints(m).Ok?
      && RevolvedShape(ProfilePoints(m).value, false) ==
         Revolution(PlanarFace(Wire([Segment(Point(5.0, 0.0, 0.0), Point(5.0, 0.0, 10.0)),
                                     Segment(Point(5.0, 0.0, 10.0), Point(0.0, 0.0, 10.0))])),
                    OZ, 360.0)
  {
    var m := ModelConf(1.0, 0.0, false, [Row(0.0, 5.0), Row(10.0, 5.0), Row(10.0, 0.0)]);
    var pts := ProfilePoints(m).value;
    assert pts == [Point(5.0, 0.0, 0.0), Point(5.0, 0.0, 10.0), Point(0.0, 0.0, 10.0)] by {
      assert pts[0] == PlacedPoint(m.rz[0], 1.0, 0.0);
      assert pts[1] == PlacedPoint(m.rz[1], 1.0, 0.0);
      assert pts[2] == PlacedPoint(m.rz[2], 1.0, 0.0);
    }
    PolylineEdgesAt(pts);
    var es := PolylineEdges(pts);
    assert es == [Segment(pts[0], pts[1]), Segment(pts[1], pts[2])];
  }
}
