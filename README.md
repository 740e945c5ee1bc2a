# Surface-of-revolution generator: a Dafny model of `revolver.py`

`revolver.py` turns a configured profile of `[height, radius]` rows into a
generatrix curve in the X-Z plane, revolves that curve's face about the Z
axis through a full turn, and writes the result as a binary STL mesh and/or a
STEP file for each configured output. This project models the logic the file
itself contains, with real numbers for floats and plain data for the
OpenCascade kernel objects:

- **Profile** (`profile.dfy`): the unit conversion in `main` (`unit = mm*scale`,
  `mm = 1.0`), the scaling of the `r_z` rows and of `z0`, the offset `z0 - z`,
  the negation on the way into `revolve`, and the `zip` that builds the edge
  points `gp_Pnt(r, 0, z)`.
- **PointLists** (`point_list.dfy`): `point_list`, which copies a list into a
  1-based kernel point array, as a class over an `array` with an imperative
  loop.
- **Generatrix** (`generatrix.dfy`): the wire builder as a class, the linear
  branch of `revolve` as a loop that adds one straight edge per consecutive
  pair of points, the B-spline branch (one curve edge through all points), the
  face, and the revolution request about `gp_OZ` through 360 degrees.
- **Export** (`export.dfy`): the output loop of `main`, as a loop that appends
  the actions it performs (directory creation, clean, mesh, STL write, STEP
  transfer and write) to a log, proved equal to a reference definition.
- **Pipeline** (`pipeline.dfy`): `main` end to end, from the parsed
  configuration to the revolved surface and the action log.
- `geometry.dfy` holds the kernel stand-ins (points, edges, wires, faces,
  axis, shape) and the unit `mm`; `wrappers.dfy` the `Result` type;
  `seqs.dfy` small facts about sequence concatenation.

Points of the code worth noting:

- The code scales `z0` by the unit too (revolver.py:64), and after
  `z = z0 - z` it passes `-z` to `revolve` (revolver.py:69-70). The Z
  coordinate of row `[a, b]` is therefore `a*scale - z0*scale`.
- The first column of `r_z` is the height and the second the radius, despite
  the key's name (revolver.py:66).
- Only an empty profile fails in the file's own code: unpacking the two columns of an empty array
  raises. A one-row profile is not rejected by the code
  (`Pipeline.SingleRowAccepted`).
- Outputs are processed one after another in configuration order, on one
  shared surface that each STL output first cleans.

## Model

| member | source | states |
|---|---|---|
| `Profile.RevolveArguments` | revolver.py:62-70 | fails exactly when `r_z` is empty; otherwise both columns have one value per row, in row order, the height of row `[a, b]` being `a*scale - z0*scale` and the radius `b*scale` |
| `Profile.ZipPointsAt` | revolver.py:42 | the zipped point list is as long as the shorter column and point `i` is `(r[i], 0, z[i])` |
| `Profile.ProfilePoints` | revolver.py:42 | the edge points built from the configuration: an error exactly for an empty profile, else one point per row, in order, row `[a, b]` at `(b*scale, 0, a*scale - z0*scale)` |
| `Profile.ProfileRoundTrip` | revolver.py:62-70 | with a non-zero scale, mapping every point back recovers the configured rows exactly |
| `Profile.PlacedPointInverse` | revolver.py:62-70 | with a non-zero scale, the placement of a single row can be undone |
| `Profile.ProfilePointsConcat` | revolver.py:66-70 | the transform acts row by row: the points of concatenated rows are the concatenated points |
| `PointLists.PointArray1.constructor` | revolver.py:36 | an array with bounds `lower..upper`, `upper - lower + 1` entries, all at the origin |
| `PointLists.PointArray1.SetValue` | revolver.py:38 | index `i` holds the new point and every other index is unchanged |
| `PointLists.PointList` | revolver.py:35-39 | a fresh array indexed `1..len(li)` in which index `n+1` holds `li[n]`; the array has no other index |
| `Generatrix.WireBuilder.constructor` | revolver.py:48 | an empty wire builder |
| `Generatrix.WireBuilder.FromEdge` | revolver.py:46 | a wire builder holding exactly the given edge |
| `Generatrix.WireBuilder.Add` | revolver.py:52 | the edge is appended after those already added |
| `Generatrix.PolylineEdgesAt` | revolver.py:49-52 | `n` points give `max(n-1, 0)` edges and edge `i` runs from point `i` to point `i+1` |
| `Generatrix.PolylineIsChain` | revolver.py:49-53 | with at least two points the edges form a chain (each ends where the next starts), from point 0 to point `n-1`, and its vertices read back are exactly the points |
| `Generatrix.PolylineWire` | revolver.py:47-53 | the loop over `range(len(edge_points)-1)` builds exactly the reference polyline |
| `Generatrix.GeneratrixEdgeCount` | revolver.py:43-53 | the B-spline wire has exactly one edge, a curve over all points in order; the linear wire has `max(n-1, 0)` edges |
| `Generatrix.Revolve` | revolver.py:41-58 | the shape is one face bounded by the wire of the chosen mode over the zipped points, revolved about the Z axis through 360 degrees |
| `Export.OutputDirectoryRequest` | revolver.py:73-76 | a directory is requested if and only if the file name's directory part is non-empty, and then as the output's first action |
| `Export.OutputWrites` | revolver.py:77-89 | an STL or STEP output writes its own file exactly once; any other type writes nothing |
| `Export.OutputFormats` | revolver.py:77-89 | after the optional directory request, STL has exactly clean, mesh with the output's linear deflection times `mm`, its relative flag and angular deflection, then a binary STL write; STEP exactly transfer, then write; any other type nothing |
| `Export.OutputActionKinds` | revolver.py:77-89 | meshing happens only for STL and always straight after a clean; STEP actions only for STEP |
| `Export.ExportLogConcat` | revolver.py:72 | the log of concatenated output lists is the concatenation of their logs |
| `Export.ExportLogBlock` | revolver.py:72-89 | output `i`'s actions sit after those of all earlier outputs and before those of all later ones |
| `Export.ExportWritesTargets` | revolver.py:72-89 | the files written are exactly the STL and STEP outputs' files, each once, in configuration order |
| `Export.CleanBeforeEveryMesh` | revolver.py:77-82 | across the whole run, every mesh request comes straight after a clean of the shared surface |
| `Export.ExportAll` | revolver.py:72-89 | the output loop's log equals the reference definition of in-order dispatch |
| `Pipeline.RunJob` | revolver.py:60-89 | fails exactly for an empty profile, before any action; otherwise revolves the configured profile points and runs every output in order |
| `Pipeline.LinearGeneratrixFromRows` | revolver.py:42-70 | in linear mode the surface's generatrix has `len(r_z) - 1` edges, edge `i` joining the points of rows `i` and `i+1` |
| `Pipeline.SingleRowAccepted` | revolver.py:49-53 | a one-row profile is accepted and gives, in linear mode, a wire with no edge |
| `Pipeline.CappedCylinderProfile` | revolver.py:62-70 | the rows (0, 5), (10, 5), (10, 0) at scale 1 and `z0 = 0` give the two edges (5,0,0)-(5,0,10) and (5,0,10)-(0,0,10) revolved about OZ |

## Left out

- Configuration parsing (`get_parser`, `get_conf`, argparse and TOML loading): the parsed configuration is the model's input; missing keys, rows that are not pairs and non-numeric values are not modelled.
- `os.path.dirname` is library code outside the repository: it is a function parameter `dirname`, and its result decides whether a directory is requested and is the path recorded in `MakeDirs`. `os.makedirs` is recorded as that action.
- All OpenCascade calls are opaque constructors or recorded actions: the B-spline construction (only the requested point list is recorded), edge, wire and face validity (for instance a wire with no edge, or a B-spline through one point), the revolution itself, meshing, `breptools_Clean` and the STL and STEP writers. Their failures are not modelled.
- Floating point: floats are reals, so rounding in `a*unit` and `z0 - z` is not modelled.
- `Generatrix.Revolve`: the sweep angle is recorded as 360 degrees. The `np.deg2rad` conversion is not modelled, and neither is the mesh's conversion of the angular deflection by `deg`, so `IncrementalMesh` carries the configured degrees.
- The status returned by the STEP writer is ignored by the code and is not modelled.
- The commented-out epsilon adjustment of zero radii (revolver.py:67-68).
- No validation is modelled because the code performs none: minimum sample count, non-negative radius and self-intersection are not checked.
- `PointLists.PointArray1.constructor`: requires `lower <= upper + 1`, an assumption of the model about the kernel array (what the kernel itself requires is not visible); `point_list` always meets it. The initial points are modelled as the origin, whatever the kernel fills in.
- The process exit status of `sys.exit(main())`.
