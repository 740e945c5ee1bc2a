/**
 * The profile transform of `main` in revolver.py (unit conversion of the
 * configured `r_z` rows and of `z0`, the height offset and the negation on the
 * way into `revolve`) and the point list `revolve` builds from its two columns.
 * Floats are modelled as reals.
 */
module Profile {
  import opened Wrappers
  import opened Geometry

  /** One configured `r_z` row `[a, b]`; the code takes `a` as the height and `b` as the radius. */
  datatype Row = Row(first: real, second: real)

  /** Unpacking the transposed columns of an empty `r_z` array fails. */
  datatype ProfileError = EmptyProfile

  /** The `Model` table of the configuration. */
  datatype ModelConf = ModelConf(scale: real, z0: real, useBSpline: bool, rz: seq<Row>)

  /** The two columns handed to `revolve` as `z_vals` and `r_vals`. */
  datatype Columns = Columns(z: seq<real>, r: seq<real>)

  /** `(np.array(rows) * unit).T`, unpacked into its two columns. */
  function ScaledColumns(rows: seq<Row>, unit: real): Result<Columns, ProfileError>
  {
    if |rows| == 0 then Err(EmptyProfile)
    else Ok(Columns(seq(|rows|, i requires 0 <= i < |rows| => rows[i].first * unit),
                    seq(|rows|, i requires 0 <= i < |rows| => rows[i].second * unit)))
  }

  /** `z0 - z`, element by element. */
  function Offset(z0: real, zs: seq<real>): seq<real>
  {
    seq(|zs|, i requires 0 <= i < |zs| => z0 - zs[i])
  }

  /** `-z`, element by element. */
  function Negated(zs: seq<real>): seq<real>
  {
    seq(|zs|, i requires 0 <= i < |zs| => -zs[i])
  }

  /**
   * The arguments `main` passes to `revolve`: the negated offset heights and
   * the scaled radii. Every row gives one value in each column, in row order,
   * and the height of row `[a, b]` comes out as `a*scale - z0*scale`.
   */
  function RevolveArguments(m: ModelConf): (r: Result<Columns, ProfileError>)
    ensures r.Err? <==> m.rz == []
    ensures r.Ok? ==> |r.value.z| == |m.rz| && |r.value.r| == |m.rz|
    ensures r.Ok? ==> forall i :: 0 <= i < |m.rz| ==>
              r.value.z[i] == m.rz[i].first * m.scale - m.z0 * m.scale &&
              r.value.r[i] == m.rz[i].second * m.scale
  {
    var unit := MM * m.scale;
    var z0 := m.z0 * unit;
    var cols := ScaledColumns(m.rz, unit);
    if cols.Err? then Err(cols.error)
    else
      var z := Offset(z0, cols.value.z);
      Ok(Columns(Negated(z), cols.value.r))
  }

  /** One point `(r, 0, z)` per pair of the two columns taken together; pairing stops at the shorter column. */
  function ZipPoints(rs: seq<real>, zs: seq<real>): seq<Point>
  {
    if rs == [] || zs == [] then []
    else [Point(rs[0], 0.0, zs[0])] + ZipPoints(rs[1..], zs[1..])
  }

  /** The zipped list is as long as the shorter column and pairs the columns index by index. */
  lemma {:induction false} ZipPointsAt(rs: seq<real>, zs: seq<real>)
    ensures |ZipPoints(rs, zs)| == if |rs| <= |zs| then |rs| else |zs|
    ensures forall i :: 0 <= i < |ZipPoints(rs, zs)| ==>
              ZipPoints(rs, zs)[i] == Point(rs[i], 0.0, zs[i])
  {
    if rs != [] && zs != [] {
      ZipPointsAt(rs[1..], zs[1..]);
    }
  }

  /** The edge points of `revolve(z_vals, r_vals, ...)`. */
  function EdgePoints(zVals: seq<real>, rVals: seq<real>): seq<Point>
  {
    ZipPoints(rVals, zVals)
  }

  /** Where row `[a, b]` lands: `(b*scale, 0, a*scale - z0*scale)`, in the X-Z plane. */
  function PlacedPoint(row: Row, scale: real, z0: real): Point
  {
    Point(row.second * scale, 0.0, row.first * scale - z0 * scale)
  }

  /**
   * The points `revolve` builds from the configuration: one per row, in row
   * order, with row `[a, b]` placed at `(b*scale, 0, a*scale - z0*scale)`.
   */
  function ProfilePoints(m: ModelConf): (r: Result<seq<Point>, ProfileError>)
    ensures r.Err? <==> m.rz == []
    ensures r.Ok? ==> |r.value| == |m.rz|
    ensures r.Ok? ==> forall i :: 0 <= i < |m.rz| ==> r.value[i] == PlacedPoint(m.rz[i], m.scale, m.z0)
  {
    match RevolveArguments(m)
    case Err(e) => Err(e)
    case Ok(cols) =>
      ZipPointsAt(cols.r, cols.z);
      Ok(EdgePoints(cols.z, cols.r))
  }

  /** Height of a profile point mapped back to the configured first column. */
  function RowOf(p: Point, scale: real, z0: real): Row
    requires scale != 0.0
  {
    Row((p.z + z0 * scale) / scale, p.x / scale)
  }

  /** Placing a row and mapping the point back gives the row. */
  lemma PlacedPointInverse(row: Row, scale: real, z0: real)
    requires scale != 0.0
    ensures RowOf(PlacedPoint(row, scale, z0), scale, z0) == row
  {
    var a, b := row.first, row.second;
    assert (a * scale - z0 * scale + z0 * scale) / scale == a by {
      assert a * scale - z0 * scale + z0 * scale == a * scale;
    }
    assert (b * scale) / scale == b;
  }

  /**
   * With a non-zero scale the transform loses nothing: mapping every point back
   * recovers the configured rows exactly.
   */
  lemma ProfileRoundTrip(m: ModelConf)
    requires m.scale != 0.0 && m.rz != []
    ensures ProfilePoints(m).Ok?
    ensures forall i :: 0 <= i < |m.rz| ==> RowOf(ProfilePoints(m).value[i], m.scale, m.z0) == m.rz[i]
  {
    var pts := ProfilePoints(m).value;
    forall i | 0 <= i < |m.rz|
      ensures RowOf(pts[i], m.scale, m.z0) == m.rz[i]
    {
      PlacedPointInverse(m.rz[i], m.scale, m.z0);
    }
  }

  /**
   * Splitting the configured rows splits the points the same way: the transform
   * acts row by row, whatever the number of rows.
   */
  lemma ProfilePointsConcat(m1: ModelConf, m2: ModelConf)
    requires m1.rz != [] && m2.rz != []
    requires m1.scale == m2.scale && m1.z0 == m2.z0
    ensures ProfilePoints(m1.(rz := m1.rz + m2.rz)) ==
            Ok(ProfilePoints(m1).value + ProfilePoints(m2).value)
  {
    var m := m1.(rz := m1.rz + m2.rz);
    var r, r1, r2 := ProfilePoints(m), ProfilePoints(m1), ProfilePoints(m2);
    var all, p1, p2 := r.value, r1.value, r2.value;
    assert |all| == |p1| + |p2|;
    forall i | 0 <= i < |all|
      ensures all[i] == (p1 + p2)[i]
    {
      if i < |m1.rz| {
        assert m.rz[i] == m1.rz[i];
      } else {
        assert m.rz[i] == m2.rz[i - |m1.rz|];
      }
    }
    assert all == p1 + p2;
  }
}
