/**
 * Sampling lattices and volume sampling (src/skeleplex/graph/sample.py).
 *
 * A grid is a nested sequence with one `Vec3` per lattice index; the
 * trailing axis of length 3 of the NumPy arrays is the `Vec3` itself.
 * SciPy's `map_coordinates` is the abstract `Interpolator`.
 */
module Sample {
  import opened Vectors
  import opened Layout

  datatype Shape3 = Shape3(w: nat, h: nat, d: nat)
  datatype Spacing3 = Spacing3(sx: real, sy: real, sz: real)
  datatype Shape2 = Shape2(w: nat, h: nat)
  datatype Spacing2 = Spacing2(sx: real, sy: real)

  /** An array of shape (w, h, d, 3). */
  type Grid3 = seq<seq<seq<Vec3>>>
  /** An array of shape (w, h, 3). */
  type Grid2 = seq<seq<Vec3>>

  ghost predicate HasShape3(g: Grid3, shape: Shape3) {
    && |g| == shape.w
    && (forall i :: 0 <= i < shape.w ==> |g[i]| == shape.h)
    && (forall i, j :: 0 <= i < shape.w && 0 <= j < shape.h ==> |g[i][j]| == shape.d)
  }

  ghost predicate HasShape2(g: Grid2, shape: Shape2) {
    |g| == shape.w && Rectangular(g, shape.h)
  }

  /**
   * Where the lattice point with index (i, j, k) lies: each index is shifted
   * by half the axis length, rounded down, and scaled by that axis' spacing.
   */
  function LatticePoint(shape: Shape3, spacing: Spacing3, i: int, j: int, k: int): Vec3 {
    Vec3(((i - shape.w / 2) as real) * spacing.sx,
         ((j - shape.h / 2) as real) * spacing.sy,
         ((k - shape.d / 2) as real) * spacing.sz)
  }

  /** The point of the 2D lattice with index (i, j): on the plane x = 0, centred like LatticePoint. */
  function PlanePoint(shape: Shape2, spacing: Spacing2, i: int, j: int): Vec3 {
    Vec3(0.0, ((i - shape.w / 2) as real) * spacing.sx, ((j - shape.h / 2) as real) * spacing.sy)
  }

  /** `np.indices(shape)` rearranged "xyz w h d -> w h d xyz": each point is its own index. */
  function Indices(shape: Shape3): (g: Grid3)
    ensures HasShape3(g, shape)
    ensures forall i, j, k :: 0 <= i < shape.w && 0 <= j < shape.h && 0 <= k < shape.d ==>
      g[i][j][k] == Vec3(i as real, j as real, k as real)
  {
    seq(shape.w, i => seq(shape.h, j => seq(shape.d, k => Vec3(i as real, j as real, k as real))))
  }

  /** An element-wise NumPy operation on the trailing axis: `f` applied to every point. */
  function MapPoints(g: Grid3, shape: Shape3, f: Vec3 -> Vec3): (r: Grid3)
    requires HasShape3(g, shape)
    ensures HasShape3(r, shape)
    ensures forall i, j, k :: 0 <= i < shape.w && 0 <= j < shape.h && 0 <= k < shape.d ==>
      r[i][j][k] == f(g[i][j][k])
  {
    seq(shape.w, i requires 0 <= i < shape.w =>
      seq(shape.h, j requires 0 <= j < shape.h =>
        seq(shape.d, k requires 0 <= k < shape.d => f(g[i][j][k]))))
  }

  /** The index (i, j, k), minus half the shape, times the spacing, is LatticePoint. */
  lemma ShiftedScaledIndex(shape: Shape3, spacing: Spacing3, i: int, j: int, k: int)
    ensures Mul(Sub(Vec3(i as real, j as real, k as real),
                    Vec3((shape.w / 2) as real, (shape.h / 2) as real, (shape.d / 2) as real)),
                Vec3(spacing.sx, spacing.sy, spacing.sz))
         == LatticePoint(shape, spacing, i, j, k)
  {
  }

  /**
   * generate_3d_grid: the lattice of indices, minus `grid_shape // 2`, times
   * `grid_spacing`. Its shape is (w, h, d, 3) and its points are LatticePoint.
   */
  function Generate3dGrid(gridShape: Shape3 := Shape3(10, 10, 10),
                          gridSpacing: Spacing3 := Spacing3(1.0, 1.0, 1.0)): (g: Grid3)
    ensures HasShape3(g, gridShape)
    ensures forall i, j, k :: 0 <= i < gridShape.w && 0 <= j < gridShape.h && 0 <= k < gridShape.d ==>
      g[i][j][k] == LatticePoint(gridShape, gridSpacing, i, j, k)
  {
    var offset := Vec3((gridShape.w / 2) as real, (gridShape.h / 2) as real, (gridShape.d / 2) as real);
    var factors := Vec3(gridSpacing.sx, gridSpacing.sy, gridSpacing.sz);
    var indices := Indices(gridShape);
    var shifted := MapPoints(indices, gridShape, p => Sub(p, offset));
    var scaled := MapPoints(shifted, gridShape, p => Mul(p, factors));
    assert forall i, j, k :: 0 <= i < gridShape.w && 0 <= j < gridShape.h && 0 <= k < gridShape.d ==>
      scaled[i][j][k] == LatticePoint(gridShape, gridSpacing, i, j, k)
    by {
      forall i, j, k | 0 <= i < gridShape.w && 0 <= j < gridShape.h && 0 <= k < gridShape.d
        ensures scaled[i][j][k] == LatticePoint(gridShape, gridSpacing, i, j, k)
      {
        assert indices[i][j][k] == Vec3(i as real, j as real, k as real);
        assert shifted[i][j][k] == Sub(indices[i][j][k], offset);
        assert scaled[i][j][k] == Mul(shifted[i][j][k], factors);
        ShiftedScaledIndex(gridShape, gridSpacing, i, j, k);
      }
    }
    scaled
  }

  /** The point at index (w // 2, h // 2, d // 2) is the origin: the grid is centred. */
  lemma GridIsCentred(gridShape: Shape3, gridSpacing: Spacing3)
    requires gridShape.w > 0 && gridShape.h > 0 && gridShape.d > 0
    ensures Generate3dGrid(gridShape, gridSpacing)[gridShape.w / 2][gridShape.h / 2][gridShape.d / 2]
         == Vec3(0.0, 0.0, 0.0)
  {
  }

  /** Moving one step along an axis moves one spacing along that axis. */
  lemma StepScales(n: int, half: int, s: real)
    ensures ((n + 1 - half) as real) * s == ((n - half) as real) * s + s
  {
    assert ((n + 1 - half) as real) == ((n - half) as real) + 1.0;
  }

  /** In the closed form, neighbours along each axis are that axis' spacing apart in that component only. */
  lemma LatticeNeighbours(gridShape: Shape3, gridSpacing: Spacing3, i: int, j: int, k: int)
    ensures LatticePoint(gridShape, gridSpacing, i + 1, j, k)
         == Add(LatticePoint(gridShape, gridSpacing, i, j, k), Vec3(gridSpacing.sx, 0.0, 0.0))
    ensures LatticePoint(gridShape, gridSpacing, i, j + 1, k)
         == Add(LatticePoint(gridShape, gridSpacing, i, j, k), Vec3(0.0, gridSpacing.sy, 0.0))
    ensures LatticePoint(gridShape, gridSpacing, i, j, k + 1)
         == Add(LatticePoint(gridShape, gridSpacing, i, j, k), Vec3(0.0, 0.0, gridSpacing.sz))
  {
    var p := LatticePoint(gridShape, gridSpacing, i, j, k);
    assert LatticePoint(gridShape, gridSpacing, i + 1, j, k) == Add(p, Vec3(gridSpacing.sx, 0.0, 0.0)) by {
      StepScales(i, gridShape.w / 2, gridSpacing.sx);
    }
    assert LatticePoint(gridShape, gridSpacing, i, j + 1, k) == Add(p, Vec3(0.0, gridSpacing.sy, 0.0)) by {
      StepScales(j, gridShape.h / 2, gridSpacing.sy);
    }
    assert LatticePoint(gridShape, gridSpacing, i, j, k + 1) == Add(p, Vec3(0.0, 0.0, gridSpacing.sz)) by {
      StepScales(k, gridShape.d / 2, gridSpacing.sz);
    }
  }

  /** Neighbours along each axis of the generated grid differ by that axis' spacing in that component only. */
  lemma {:induction false} NeighboursAreSpacingApart(gridShape: Shape3, gridSpacing: Spacing3, i: nat, j: nat, k: nat)
    requires i < gridShape.w && j < gridShape.h && k < gridShape.d
    ensures var g := Generate3dGrid(gridShape, gridSpacing);
      && (i + 1 < gridShape.w ==> g[i + 1][j][k] == Add(g[i][j][k], Vec3(gridSpacing.sx, 0.0, 0.0)))
      && (j + 1 < gridShape.h ==> g[i][j + 1][k] == Add(g[i][j][k], Vec3(0.0, gridSpacing.sy, 0.0)))
      && (k + 1 < gridShape.d ==> g[i][j][k + 1] == Add(g[i][j][k], Vec3(0.0, 0.0, gridSpacing.sz)))
  {
    LatticeNeighbours(gridShape, gridSpacing, i, j, k);
  }

  /** Layer 0 of the (1, w, h) lattice with spacing (1, sx, sy) is the plane lattice: 1 // 2 == 0 puts it at x = 0. */
  lemma LayerZeroIsPlane(gridShape: Shape2, gridSpacing: Spacing2, i: int, j: int)
    ensures LatticePoint(Shape3(1, gridShape.w, gridShape.h), Spacing3(1.0, gridSpacing.sx, gridSpacing.sy), 0, i, j)
         == PlanePoint(gridShape, gridSpacing, i, j)
  {
  }

  /**
   * generate_2d_grid: the 3D grid of shape (1, w, h) with spacing (1, sx, sy),
   * its single layer taken ("1 w h xyz -> w h xyz"). Since 1 // 2 == 0, every
   * point has x = 0.
   */
  function Generate2dGrid(gridShape: Shape2 := Shape2(10, 10),
                          gridSpacing: Spacing2 := Spacing2(1.0, 1.0)): (g: Grid2)
    ensures HasShape2(g, gridShape)
    ensures forall i, j :: 0 <= i < gridShape.w && 0 <= j < gridShape.h ==>
      g[i][j] == PlanePoint(gridShape, gridSpacing, i, j)
  {
    var shape3 := Shape3(1, gridShape.w, gridShape.h);
    var grid := Generate3dGrid(shape3, Spacing3(1.0, gridSpacing.sx, gridSpacing.sy));
    assert forall i, j :: 0 <= i < gridShape.w && 0 <= j < gridShape.h ==>
      grid[0][i][j] == PlanePoint(gridShape, gridSpacing, i, j)
    by {
      forall i, j | 0 <= i < gridShape.w && 0 <= j < gridShape.h
        ensures grid[0][i][j] == PlanePoint(gridShape, gridSpacing, i, j)
      {
        assert grid[0][i][j] == LatticePoint(shape3, Spacing3(1.0, gridSpacing.sx, gridSpacing.sy), 0, i, j);
        LayerZeroIsPlane(gridShape, gridSpacing, i, j);
      }
    }
    grid[0]
  }

  /** Every point of the 2D grid lies on the plane through the origin with normal [1, 0, 0]. */
  lemma {:induction false} PlaneGridIsNormalToXAxis(gridShape: Shape2, gridSpacing: Spacing2, i: nat, j: nat)
    requires i < gridShape.w && j < gridShape.h
    ensures Dot(Generate2dGrid(gridShape, gridSpacing)[i][j], Vec3(1.0, 0.0, 0.0)) == 0.0
  {
  }

  /**
   * `scipy.ndimage.map_coordinates(volume, point, order, cval)` at one point;
   * the fill value `cval` is returned outside the volume. Abstract.
   */
  type Interpolator<!V> = (V, Vec3, int, real) -> real

  /** map_coordinates over a list of points: one call of the interpolator per point, in order. */
  function MapCoordinates<V>(volume: V, points: seq<Vec3>, order: int, fill: real,
                             interp: Interpolator<V>): (values: seq<real>)
    ensures |values| == |points|
    ensures forall p :: 0 <= p < |points| ==> values[p] == interp(volume, points[p], order, fill)
  {
    seq(|points|, p requires 0 <= p < |points| => interp(volume, points[p], order, fill))
  }

  /**
   * The coordinate whose interpolated value the sampler puts at (b, g): flat
   * position g * batch + b of the flattened coordinates, i.e. coordinate
   * (g * batch + b) // gridSize, (g * batch + b) % gridSize.
   */
  ghost function SourceCoordinate(coordinates: seq<seq<Vec3>>, gridSize: nat, b: int, g: int): Vec3
    requires Rectangular(coordinates, gridSize)
    requires 0 <= b < |coordinates| && 0 <= g < gridSize
  {
    var q := g * |coordinates| + b;
    RowMajorBound(g, b, gridSize, |coordinates|);
    FlattenAt(coordinates, gridSize, q);
    coordinates[q / gridSize][q % gridSize]
  }

  /**
   * sample_volume_at_coordinates on coordinates of shape (batch, *grid_shape, 3),
   * with the grid axes flattened row-major into `gridSize` = prod(grid_shape)
   * positions: the coordinates are flattened, interpolated, reshaped to
   * (*grid_shape, batch) and the batch axis is moved to the front. The value
   * at (b, g) is therefore the one interpolated at SourceCoordinate(b, g),
   * which is not coordinate (b, g) in general.
   */
  function SampleVolumeAtCoordinates<V>(volume: V, coordinates: seq<seq<Vec3>>, gridSize: nat,
                                        interpolationOrder: int, fillValue: real,
                                        interp: Interpolator<V>): (sampled: seq<seq<real>>)
    requires Rectangular(coordinates, gridSize)
    ensures |sampled| == |coordinates| && Rectangular(sampled, gridSize)
    ensures forall b, g :: 0 <= b < |coordinates| && 0 <= g < gridSize ==>
      sampled[b][g] == interp(volume, SourceCoordinate(coordinates, gridSize, b, g), interpolationOrder, fillValue)
  {
    var batch := |coordinates|;
    FlattenLength(coordinates, gridSize);
    var flat := Flatten(coordinates);
    var values := MapCoordinates(volume, flat, interpolationOrder, fillValue, interp);
    var byGridPoint := Reshape(values, gridSize, batch);
    var result := Transpose(byGridPoint, batch);
    assert forall b, g :: 0 <= b < batch && 0 <= g < gridSize ==>
      result[b][g] == interp(volume, SourceCoordinate(coordinates, gridSize, b, g), interpolationOrder, fillValue)
    by {
      forall b, g | 0 <= b < batch && 0 <= g < gridSize
        ensures result[b][g] == interp(volume, SourceCoordinate(coordinates, gridSize, b, g), interpolationOrder, fillValue)
      {
        SampledAt(volume, coordinates, gridSize, interpolationOrder, fillValue, interp, b, g);
      }
    }
    result
  }

  /** One entry of the sampler's pipeline, traced through the flatten, the reshape and the transpose. */
  lemma SampledAt<V>(volume: V, coordinates: seq<seq<Vec3>>, gridSize: nat, order: int, fill: real,
                     interp: Interpolator<V>, b: int, g: int)
    requires Rectangular(coordinates, gridSize)
    requires 0 <= b < |coordinates| && 0 <= g < gridSize
    ensures |Flatten(coordinates)| == |coordinates| * gridSize
    ensures var values := MapCoordinates(volume, Flatten(coordinates), order, fill, interp);
      Transpose(Reshape(values, gridSize, |coordinates|), |coordinates|)[b][g]
      == interp(volume, SourceCoordinate(coordinates, gridSize, b, g), order, fill)
  {
    var batch := |coordinates|;
    var q := g * batch + b;
    assert 0 <= q < batch * gridSize by {
      RowMajorBound(g, b, gridSize, batch);
    }
    FlattenAt(coordinates, gridSize, q);
    var values := MapCoordinates(volume, Flatten(coordinates), order, fill, interp);
    var byGridPoint := Reshape(values, gridSize, batch);
    ReshapeAt(values, gridSize, batch, g, b);
    assert Transpose(byGridPoint, batch)[b][g] == byGridPoint[g][b];
  }

  /**
   * The interpolator is called on batch * gridSize points, the flattened
   * coordinates unchanged, and the value for flat position p lands at
   * (p % batch, p // batch) of the result: each one exactly once.
   */
  lemma {:induction false} EachCoordinateSampledOnce<V>(volume: V, coordinates: seq<seq<Vec3>>, gridSize: nat,
                                                        order: int, fill: real, interp: Interpolator<V>, p: int)
    requires Rectangular(coordinates, gridSize)
    requires 0 <= p < |coordinates| * gridSize
    ensures |MapCoordinates(volume, Flatten(coordinates), order, fill, interp)| == |coordinates| * gridSize
    ensures |coordinates| > 0 && 0 <= p / |coordinates| < gridSize
    ensures SampleVolumeAtCoordinates(volume, coordinates, gridSize, order, fill, interp)[p % |coordinates|][p / |coordinates|]
         == interp(volume, Flatten(coordinates)[p], order, fill)
  {
    var batch := |coordinates|;
    FlattenLength(coordinates, gridSize);
    assert batch > 0;
    DivBelow(p, batch, gridSize);
    var b, g := p % batch, p / batch;
    DivModIdentity(p, batch);
    assert g * batch + b == p;
    FlattenAt(coordinates, gridSize, p);
    assert SourceCoordinate(coordinates, gridSize, b, g) == Flatten(coordinates)[p];
  }

  /** With a batch of one, the sampled values keep the coordinates' grid order. */
  lemma {:induction false} SingleBatchKeepsGridOrder<V>(volume: V, coordinates: seq<seq<Vec3>>, gridSize: nat,
                                                        order: int, fill: real, interp: Interpolator<V>, g: int)
    requires Rectangular(coordinates, gridSize) && |coordinates| == 1
    requires 0 <= g < gridSize
    ensures SampleVolumeAtCoordinates(volume, coordinates, gridSize, order, fill, interp)[0][g]
         == interp(volume, coordinates[0][g], order, fill)
  {
    RowMajorDivMod(0, g, gridSize);
    assert SourceCoordinate(coordinates, gridSize, 0, g) == coordinates[0][g];
  }

  /**
   * Two batches of two points, sampled by their x coordinate: the sampler
   * returns [[0, 2], [1, 3]], not the [[0, 1], [2, 3]] of sampling each
   * coordinate in place.
   */
  lemma SamplerPermutesBatches()
    ensures var coordinates := [[Vec3(0.0, 0.0, 0.0), Vec3(1.0, 0.0, 0.0)],
                                [Vec3(2.0, 0.0, 0.0), Vec3(3.0, 0.0, 0.0)]];
      SampleVolumeAtCoordinates(0, coordinates, 2, 3, 0.0, (v: int, p: Vec3, o: int, f: real) => p.x)
      == [[0.0, 2.0], [1.0, 3.0]]
  {
    var coordinates := [[Vec3(0.0, 0.0, 0.0), Vec3(1.0, 0.0, 0.0)],
                        [Vec3(2.0, 0.0, 0.0), Vec3(3.0, 0.0, 0.0)]];
    assert SourceCoordinate(coordinates, 2, 0, 1) == coordinates[1][0];
    assert SourceCoordinate(coordinates, 2, 1, 0) == coordinates[0][1];
    assert SourceCoordinate(coordinates, 2, 0, 0) == coordinates[0][0];
    assert SourceCoordinate(coordinates, 2, 1, 1) == coordinates[1][1];
    var sampled := SampleVolumeAtCoordinates(0, coordinates, 2, 3, 0.0, (v: int, p: Vec3, o: int, f: real) => p.x);
    assert sampled[0] == [0.0, 2.0];
    assert sampled[1] == [1.0, 3.0];
  }
}
