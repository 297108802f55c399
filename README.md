# skeleplex graph core in Dafny

skeleplex turns a skeletonised 3D image into a graph of branches, wraps
splinebox's B3 splines fitted to point lists, and samples an image on
planes across a spline. No code of the repository fits a spline to a
branch of the built graph: graphs whose edges carry splines are built by
hand in the test fixtures (tests/conftest.py:41-66). This project models the parts of the repository that carry logic
of their own and proves what they promise:

- **Sampling grids and the volume sampler** (`sample.dfy`, with the NumPy
  array layout in `layout.dfy`): `generate_3d_grid`, `generate_2d_grid`,
  and the flatten / interpolate / reshape / move-axis pipeline of
  `sample_volume_at_coordinates`. SciPy's `map_coordinates` is an abstract
  interpolator. The sampler's value at `(b, g)` is the one interpolated at
  flat position `g * batch + b` of the coordinates. That is a row-major
  permutation, not coordinate `(b, g)`: `Sample.SamplerPermutesBatches`
  shows it on two batches of two points.
- **The B3Spline wrapper** (`spline.dfy`): evaluation by normalised arc
  length, `__eq__`, the JSON tagging of `to_json_dict` and untagging of
  `from_json_dict`, `from_points`, `flip_spline`, and `sample_volume_2d`.
  The splinebox library is a record of abstract functions (`Splinebox`),
  and SciPy's `Rotation.from_matrix(m).apply(p)` is an abstract `Rotator`.
  `from_json_dict` is a method on a `JsonDict` object because its `pop`
  changes the caller's dictionary. `sample_volume_2d` is a method, and its
  loop over the frames is the method `RotateGrids`. The main lemma,
  `Spline.StackReshapeCancels`, proves that the stack along axis 1, the reshape to `(n, w, h, 3)` and the
  sampler's own reshape cancel out. So image `b`, pixel `(i, j)`, is the
  volume at plane-grid point `(i, j)`, rotated by frame `b` and moved to
  the spline point at position `b`.
- **The skeleton-to-graph builder** (`image_to_graph.dfy`):
  `image_to_graph_skan` from skan's summary rows on. The networkx
  `MultiGraph` is a class whose `AddEdge` method grows it in place. The
  builder is a method with a loop over the rows.

The shared value types are in `vectors.dfy` (points, 3x3 matrices) and
`results.dfy` (Python exceptions as `Result` values).

Where the repository's own material and the code disagree, the model
follows the code:

- src/skeleplex/graph/constants.py:6-7 defines the node attribute
  "node_coordinate" and the edge attribute "spline", and
  tests/graph/test_image_to_graph.py:15-19 expects every node to carry a
  coordinate. `image_to_graph_skan` uses neither key: it sets only each
  edge's "path", and no node attribute at all.
- The sampler's docstring gives the output shape twice, differently:
  `(*grid_shape, batch)` at src/skeleplex/graph/sample.py:78-80 and
  `(*grid_shape)` at src/skeleplex/graph/sample.py:96-97. The code moves
  the batch axis to the front, giving `(batch, *grid_shape)`.

## Model

| member | source | states |
|---|---|---|
| Sample.Generate3dGrid | src/skeleplex/graph/sample.py:8-38 | the grid has shape (w, h, d), and point (i, j, k) is ((i - w//2)·sx, (j - h//2)·sy, (k - d//2)·sz) |
| Sample.GridIsCentred | src/skeleplex/graph/sample.py:33-35 | for a non-empty shape, the point at index (w//2, h//2, d//2) is exactly the origin |
| Sample.LatticeNeighbours | src/skeleplex/graph/sample.py:33-37 | one index step along an axis adds that axis' spacing to that component and nothing to the others |
| Sample.NeighboursAreSpacingApart | src/skeleplex/graph/sample.py:36-37 | neighbouring points of the generated grid differ by the spacing of their axis, in that component only |
| Sample.Generate2dGrid | src/skeleplex/graph/sample.py:41-66 | the grid has shape (w, h), and point (i, j) is (0, (i - w//2)·sx, (j - h//2)·sy) |
| Sample.PlaneGridIsNormalToXAxis | src/skeleplex/graph/sample.py:44-66 | every point of the 2D grid lies on the plane through the origin with normal [1, 0, 0] |
| Sample.MapCoordinates | src/skeleplex/graph/sample.py:101-106 | one interpolated value per point, in order, each taken at that point unchanged |
| Sample.SampleVolumeAtCoordinates | src/skeleplex/graph/sample.py:69-110 | the result has shape (batch, grid), and value (b, g) is interpolated at flat coordinate g·batch + b, i.e. coordinate ((g·batch + b) // G, (g·batch + b) % G) |
| Sample.EachCoordinateSampledOnce | src/skeleplex/graph/sample.py:99-110 | batch·G values are interpolated, and flat coordinate p is sampled unchanged and lands at (p % batch, p // batch) |
| Sample.SingleBatchKeepsGridOrder | src/skeleplex/graph/sample.py:99-110 | with a batch of one, value g is interpolated at coordinate g |
| Sample.SamplerPermutesBatches | src/skeleplex/graph/sample.py:107-110 | on two batches of two points sampled by x, the result is [[0, 2], [1, 3]], not the coordinates' own layout |
| Layout.FlattenAt | src/skeleplex/graph/sample.py:103 | reshape(-1, ...) of a rows × cols array puts entry (p // cols, p % cols) at flat position p |
| Layout.Reshape | src/skeleplex/graph/sample.py:108 | reshape(rows, cols) gives a rows × cols array whose flattening is the input |
| Layout.ReshapeAt | src/skeleplex/graph/sample.py:108 | entry (r, c) of reshape(rows, cols) is flat entry r·cols + c |
| Layout.Transpose | src/skeleplex/graph/sample.py:110 | "... batch -> batch ..." swaps the two axes: entry (c, r) is entry (r, c) |
| Spline.ArcLengthParameters | src/skeleplex/graph/spline.py:55-58 | position p becomes the parameter of arc length p·arc_length, one per position |
| Spline.Eval | src/skeleplex/graph/spline.py:37-59 | one point per position: the backend's point at the parameter of that position |
| Spline.EvalIsPointwise | src/skeleplex/graph/spline.py:55-59 | evaluating a concatenation of position lists is concatenating the evaluations |
| Spline.MovingFrame | src/skeleplex/graph/spline.py:61-83 | the backend's moving frame, with the given method (default "bishop"), at the parameters of the normalised positions: position p at arc length p·arc_length, converted with tolerance atol |
| Spline.FramesAndPointsShareParameters | src/skeleplex/graph/spline.py:55-59 | frame k and spline point k are taken at the same parameter, that of position k, so each plane is paired with its own centroid |
| Spline.Equals | src/skeleplex/graph/spline.py:154-158 | true exactly for a B3Spline whose model equals this one's; false for any other object |
| Spline.EqualsIsModelEquality | src/skeleplex/graph/spline.py:154-158 | `__eq__` between B3Splines is model equality, so it is reflexive, symmetric and transitive |
| Spline.ToJsonDict | src/skeleplex/graph/spline.py:160-172 | ValueError exactly when the backend dictionary already has "__class__"; otherwise exactly the keys "__class__" = "skeleplex.B3Spline", "model" and "backend" = "splinebox", where the model is the backend dictionary with every key kept and "__class__" = "splinebox.Spline" added |
| Spline.DecodeSpline | src/skeleplex/graph/spline.py:179-201 | every outcome: a missing "backend" or "model" is a KeyError, a wrong backend a ValueError; with backend "splinebox", an already decoded model is wrapped unchanged, a model dictionary decodes exactly when it has "__class__" (KeyError '__class__' otherwise) and is rebuilt by the backend from its other entries, and any other model value fails |
| Spline.AfterDecode | src/skeleplex/graph/spline.py:196 | when decoding reaches the `pop`, the caller's "model" entry loses exactly its "__class__" key; every other entry, and the whole dictionary on every other path, is unchanged |
| Spline.FromJsonDict | src/skeleplex/graph/spline.py:179-201 | returns what DecodeSpline says, and leaves the caller's dictionary with the model's "__class__" popped |
| Spline.JsonRoundTrip | src/skeleplex/graph/spline.py:160-201 | when the backend dictionary has no "__class__" and the backend constructor inverts `_to_dict`, decoding the encoding gives the same spline |
| Spline.TagValueIsNotChecked | src/skeleplex/graph/spline.py:196-198 | only the presence of the model's "__class__" key matters, not its value |
| Spline.SecondDecodeFails | src/skeleplex/graph/spline.py:188-198 | after a model dictionary has been decoded, decoding the same dictionary again is KeyError '__class__' |
| Spline.FromPoints | src/skeleplex/graph/spline.py:210-228 | an open spline with the B3 basis, M = n_knots (default 4), and control points fitted to the points |
| Spline.Reversed | src/skeleplex/graph/spline.py:245 | path[::-1]: same length, and entry i is entry len - 1 - i |
| Spline.ReversedTwice | src/skeleplex/graph/spline.py:245 | reversing twice gives the path back |
| Spline.FlipSpline | src/skeleplex/graph/spline.py:230-245 | returns the reversed path and a spline fitted to it with the default knots |
| Spline.FlipTwiceRefitsPath | src/skeleplex/graph/spline.py:230-245 | the flipped path runs end to start, a second flip refits the original path, and the flipped spline has 4 knots whatever the input spline had |
| Spline.RotateAll | src/skeleplex/graph/spline.py:137-138 | every grid point rotated by the frame's rotation, in order |
| Spline.StackShifted | src/skeleplex/graph/spline.py:145 | np.stack(rotated, axis=1) + centroids: entry (g, b) is rotated point g of position b plus centroid b |
| Spline.PlacedGrids | src/skeleplex/graph/spline.py:146 | the reshape to (n, w·h) keeps the stack's row-major order |
| Spline.StackReshapeCancels | src/skeleplex/graph/spline.py:145-152 | the stack, the reshape and the sampler cancel: value (b, g) is interpolated at rotated point g of position b plus centroid b |
| Spline.PlacedPixel | src/skeleplex/graph/spline.py:145-152 | pixel (i, j) of image b is interpolated at point (i, j) of rotated grid b plus centroid b |
| Spline.RotateGrids | src/skeleplex/graph/spline.py:133-138 | one rotated grid per frame, in frame order: grid b is every grid point rotated by the matrix whose columns are frame b's vectors |
| Spline.PlacedImagesSampled | src/skeleplex/graph/spline.py:145-152 | after stacking, shifting, reshaping and sampling, pixel (i, j) of image b is the volume at point (i, j) of rotated grid b plus centroid b, for every b, i and j |
| Spline.PlanePixelsSampled | src/skeleplex/graph/spline.py:126-152 | when grid b is the plane grid rotated by frame b, pixel (i, j) of image b is the volume at plane point (i, j) rotated by frame b and moved to centroid b |
| Spline.PlaceAndSample | src/skeleplex/graph/spline.py:140-152 | one (w, h) image per rotated grid, each pixel sampled at its own rotated and shifted grid point; no grids or an empty grid is a ValueError |
| Spline.RotatedGridAt | src/skeleplex/graph/spline.py:130-138 | point (i, j) of a rotated, flattened grid, reshaped to (w, h), is grid point (i, j) rotated |
| Spline.SampleVolume2d | src/skeleplex/graph/spline.py:85-152 | one (w, h) image per position, in input order; pixel (i, j) of image b is the volume at plane point (i, j), rotated by frame b and moved to the spline point at b; no positions or an empty grid is a ValueError |
| Spline.PlaneIsNormalToFrame | src/skeleplex/graph/spline.py:133-138 | with an exact rotation, each sample point is the centroid plus grid offsets along the frame's second and third vectors; for an orthonormal frame this is the plane normal to the first vector |
| Spline.SamplingSpacingAsWritten | src/skeleplex/graph/spline.py:126-128 | as written, a pair spacing is refused and only a single number s gives spacing (s, s) |
| Spline.SampleVolume2dAsWritten | src/skeleplex/graph/spline.py:85-152 | as written: the default spacing (1, 1) and every other pair fail with ValueError whatever the positions; a single number s samples exactly as the corrected method does with spacing (s, s) |
| Spline.PairSpacingIsRejected | src/skeleplex/graph/spline.py:126-128 | as written, the default (1, 1) and every other pair spacing fail |
| ImageToGraph.MultiGraph.constructor | src/skeleplex/graph/image_to_graph.py:21-23 | an empty multigraph carrying the skeleton's shape and dtype |
| ImageToGraph.MultiGraph.AddEdge | src/skeleplex/graph/image_to_graph.py:30-37 | missing end nodes are added, u before v, with empty attributes; the new edge is appended with key = number of edges already joining u and v; the graph stays consistent |
| ImageToGraph.ImageToGraphSkan | src/skeleplex/graph/image_to_graph.py:9-38 | the graph holds the skeleton's shape and dtype, the edges and nodes of adding the rows in order, and no node attributes, so in particular no "node_coordinate" |
| ImageToGraph.OneEdgePerRow | src/skeleplex/graph/image_to_graph.py:24-37 | one edge per summary row, from the row's source to its destination, whose only attribute is "path" = the row's path coordinates (no "spline") |
| ImageToGraph.NodesAreRowEnds | src/skeleplex/graph/image_to_graph.py:30-31 | the nodes are exactly the rows' sources and destinations, each listed once |
| ImageToGraph.KeysCountEarlierEdges | src/skeleplex/graph/image_to_graph.py:31-37 | each edge's key is the number of earlier edges between the same two nodes |
| ImageToGraph.ParallelEdgesAreKept | src/skeleplex/graph/image_to_graph.py:21-37 | rows joining the same two nodes, in either direction or as self-loops, give separate edges with increasing keys |
| ImageToGraph.SimpleTHasThreeEdges | tests/graph/test_image_to_graph.py:10-22 | three branches meeting at one node give three edges and four nodes |

## Left out

- Floating point: coordinates, spacings and sampled values are Dafny `real`s. So NaN (the default fill value of both samplers) cannot be written, and the fill value has no default.
- Foreign numerics are abstract and unmodelled: splinebox fitting, arc length, arc-length inversion, evaluation, moving frames, `_to_dict` and the constructor; SciPy's `map_coordinates` and `Rotation`. The fit tolerance checked in tests/graph/test_spline.py:26 cannot be stated without them.
- Spline.PlaneIsNormalToFrame: proved only for exact matrix application. `Rotation.from_matrix` re-orthonormalises the matrix, and that step is not modelled.
- Spline.SampleVolume2d: requires the backend to return one frame per position. NumPy broadcasting of a mismatched frame count is not modelled. The failure paths of the backend and of `Rotation.from_matrix` (for example a matrix with negative determinant) are not modelled.
- Spline.FromJsonDict: the nested model dictionary is modelled as an entry of the caller's dictionary. Other references to that same nested dictionary, which also see the `pop`, are not modelled. Errors raised by splinebox while rebuilding the model are not modelled. The model assumes that splinebox's `_prepared_dict_for_constructor` (src/skeleplex/graph/spline.py:197) leaves the dictionary it is given unchanged; it is folded into `construct`, so the popped dictionary of `Spline.AfterDecode` is the caller's final state only under that assumption.
- Spline.SamplingSpacingAsWritten: the ValueError is what NumPy 1.24 and later raise for the ragged spacing; older NumPy builds an object array and the multiplication at src/skeleplex/graph/sample.py:37 then fails with a TypeError (UFuncTypeError) instead. Either way the call fails.
- Spline.SplineModel: keeps only the basis, knot count, closedness and control points, so splinebox's equality is equality of those fields.
- Spline.Eval: `arc_length_to_parameter` is applied to each position separately.
- Sample.SampleVolumeAtCoordinates: the grid axes are flattened row-major into one axis of length prod(grid_shape). `Spline.SampleVolume2d` restores the (w, h) axes. Coordinate arrays whose last axis is not 3 are not modelled.
- Error messages: only the exception kind is meaningful. The message texts approximate NumPy's and Python's.
- Shapes are natural numbers; negative grid shapes are not modelled.
- `to_json_file` and `from_json_file` (src/skeleplex/graph/spline.py:174-177, 203-208) are file I/O around the modelled dictionaries.
- `B3Spline.model` is the stored spline model (the `model` field of `Spline.B3Spline`), and `B3Spline.arc_length` is a single call into splinebox; the frames `Spline.MovingFrame` returns are whatever splinebox's `moving_frame` gives at the converted parameters.
- skan's `Skeleton` and `summarize` (src/skeleplex/graph/image_to_graph.py:12-13): the summary rows and `path_coordinates` are inputs.
- ImageToGraph.MultiGraph.AddEdge: the key is networkx's `new_edge_key` for a graph with no removed edges, which the builder never removes. networkx's adjacency views and edge iteration order are not modelled; the model lists edges in insertion order.
- tests/graph/test_image_to_graph.py:15-19 expects a "node_coordinate" attribute on every node. `ImageToGraph.ImageToGraphSkan` proves that no node gets any attribute.
- tests/conftest.py:8 imports `EDGE_COORDINATES_KEY`, which src/skeleplex/graph/constants.py does not define. That fixture is not part of this model.
- src/skeleplex/graph/skeleton_graph.py is a stub whose members do nothing, so it is not part of this model. Neither are the app, scripts, examples and test-image generator, which are GUI and data code.

## Findings

| source | as written | input that shows it | evidently intended | confidence | as-written member | corrected member |
|---|---|---|---|---|---|---|
| src/skeleplex/graph/spline.py:126-128 | `sample_volume_2d` passes `grid_spacing=(grid_spacing, grid_spacing)`, so `generate_3d_grid` multiplies by the ragged `(1, (sx, sy), (sx, sy))`, which NumPy refuses (a ValueError from NumPy 1.24 on, a TypeError before) | the default `grid_spacing=(1, 1)`, or any pair | `generate_2d_grid(grid_shape=grid_shape, grid_spacing=grid_spacing)`, as annotated at src/skeleplex/graph/sample.py:41-42 | not executed; high (the error kind depends on the NumPy version) | Spline.SamplingSpacingAsWritten, Spline.PairSpacingIsRejected, Spline.SampleVolume2dAsWritten | Spline.SampleVolume2d |
