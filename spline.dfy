/**
 * The B3Spline wrapper (src/skeleplex/graph/spline.py): JSON tagging and
 * untagging, equality, construction from points, flipping, evaluation by
 * normalised arc length, and sampling a volume on planes along the spline.
 *
 * The splinebox library is the `Splinebox` record of functions: fitting,
 * arc length and its inversion, evaluation, moving frames, and the
 * conversion of a spline model to and from its dictionary.
 */
module Spline {
  import opened Results
  import opened Vectors
  import opened Layout
  import opened Sample

  /** `B3Spline._backend`. */
  const Backend: string := "splinebox"
  /** The tag to_json_dict puts on the outer dictionary. */
  const SplineTag: string := "skeleplex.B3Spline"
  /** The tag to_json_dict puts on the model dictionary. */
  const ModelTag: string := "splinebox.Spline"
  const ClassKey: string := "__class__"
  /** The default `n_knots` of from_points. */
  const DefaultKnots: int := 4
  /** The default `atol` of eval and moving_frame. */
  const DefaultAtol: real := 0.000001

  datatype Basis = B3 | OtherBasis(name: string)

  /**
   * A splinebox.Spline, reduced to what the wrapper sets and compares: its
   * basis function, its number of knots M, whether it is closed, and its
   * control points (None until it is fitted).
   */
  datatype SplineModel = SplineModel(basis: Basis, knots: int, closed: bool, controlPoints: Option<seq<Vec3>>)

  /** A B3Spline holds one spline model and never changes it. */
  datatype B3Spline = B3Spline(model: SplineModel)

  /** One frame of a moving frame: three vectors, the first along the spline. */
  datatype Frame = Frame(e0: Vec3, e1: Vec3, e2: Vec3)

  /**
   * The Python values a JSON dictionary may hold here, plus the two objects
   * the code tests for with isinstance: an already decoded splinebox.Spline
   * and a B3Spline.
   */
  datatype Value =
    | Null
    | Bool(b: bool)
    | Num(x: real)
    | Str(s: string)
    | List(items: seq<Value>)
    | Dict(fields: map<string, Value>)
    | SplineObject(model: SplineModel)
    | B3SplineObject(spline: B3Spline)

  /** The splinebox numerics the wrapper calls; none of them is modelled. */
  datatype Splinebox = Splinebox(
    /** `spline.fit(points)`: the control points fitted to the points. */
    fit: (SplineModel, seq<Vec3>) -> seq<Vec3>,
    /** `spline.arc_length()`. */
    arcLength: SplineModel -> real,
    /** `spline.arc_length_to_parameter(length, atol)` for one length. */
    arcLengthToParameter: (SplineModel, real, real) -> real,
    /** `spline.eval(t, derivative)` at one parameter. */
    evaluate: (SplineModel, real, int) -> Vec3,
    /** `spline.moving_frame(ts, method)`. */
    movingFrame: (SplineModel, seq<real>, string) -> seq<Frame>,
    /** `spline._to_dict(version=2)`: a fresh dictionary. */
    toDict: SplineModel -> map<string, Value>,
    /** `splinebox.Spline(**_prepared_dict_for_constructor(d))`. */
    construct: map<string, Value> -> SplineModel)

  // ---------------------------------------------------------------------------
  // Evaluation by normalised arc length

  /** `positions * self.arc_length` for one position: the arc length it stands for. */
  function ArcLengthAt(box: Splinebox, spline: B3Spline, position: real): real {
    position * box.arcLength(spline.model)
  }

  /**
   * The spline parameters of normalised positions: position p is the point
   * at arc length p * arc_length, converted to a parameter with tolerance atol.
   */
  function ArcLengthParameters(box: Splinebox, spline: B3Spline, positions: seq<real>, atol: real): (ts: seq<real>)
    ensures |ts| == |positions|
    ensures forall k :: 0 <= k < |positions| ==>
      ts[k] == box.arcLengthToParameter(spline.model, ArcLengthAt(box, spline, positions[k]), atol)
  {
    seq(|positions|, k requires 0 <= k < |positions| =>
      box.arcLengthToParameter(spline.model, ArcLengthAt(box, spline, positions[k]), atol))
  }

  /** `B3Spline.eval`: the backend evaluated at the parameters of the normalised positions. */
  function Eval(box: Splinebox, spline: B3Spline, positions: seq<real>,
                derivative: int := 0, atol: real := DefaultAtol): (points: seq<Vec3>)
    ensures |points| == |positions|
    ensures forall k :: 0 <= k < |positions| ==>
      points[k] == box.evaluate(spline.model, ArcLengthParameters(box, spline, positions, atol)[k], derivative)
  {
    var ts := ArcLengthParameters(box, spline, positions, atol);
    seq(|ts|, k requires 0 <= k < |ts| => box.evaluate(spline.model, ts[k], derivative))
  }

  /**
   * Evaluating a list of positions is evaluating each position on its own:
   * the result for a concatenation is the concatenation of the results.
   */
  lemma {:induction false} EvalIsPointwise(box: Splinebox, spline: B3Spline, positions: seq<real>, more: seq<real>,
                                           derivative: int, atol: real)
    ensures Eval(box, spline, positions + more, derivative, atol)
         == Eval(box, spline, positions, derivative, atol) + Eval(box, spline, more, derivative, atol)
  {
    var all := positions + more;
    var lhs := Eval(box, spline, all, derivative, atol);
    var rhs := Eval(box, spline, positions, derivative, atol) + Eval(box, spline, more, derivative, atol);
    var m := spline.model;
    forall k | 0 <= k < |all|
      ensures lhs[k] == rhs[k]
    {
      assert lhs[k] == box.evaluate(m, box.arcLengthToParameter(m, ArcLengthAt(box, spline, all[k]), atol), derivative);
      if k < |positions| {
        assert all[k] == positions[k];
      } else {
        assert all[k] == more[k - |positions|];
      }
    }
  }

  /** `B3Spline.moving_frame`: the backend's frames at the parameters of the normalised positions. */
  function MovingFrame(box: Splinebox, spline: B3Spline, positions: seq<real>,
                       frameMethod: string := "bishop", atol: real := DefaultAtol): (frames: seq<Frame>)
    ensures frames == box.movingFrame(spline.model, ArcLengthParameters(box, spline, positions, atol), frameMethod)
  {
    box.movingFrame(spline.model, ArcLengthParameters(box, spline, positions, atol), frameMethod)
  }

  /**
   * The frames and the points along the spline are taken at the same
   * parameters: frame k and point k both belong to the parameter of
   * position k, so sample_volume_2d pairs each plane with its own centroid.
   */
  lemma FramesAndPointsShareParameters(box: Splinebox, spline: B3Spline, positions: seq<real>,
                                       frameMethod: string, atol: real)
    ensures var ts := ArcLengthParameters(box, spline, positions, atol);
      && MovingFrame(box, spline, positions, frameMethod, atol) == box.movingFrame(spline.model, ts, frameMethod)
      && |Eval(box, spline, positions, 0, atol)| == |ts|
      && forall k :: 0 <= k < |ts| ==> Eval(box, spline, positions, 0, atol)[k] == box.evaluate(spline.model, ts[k], 0)
  {
  }

  // ---------------------------------------------------------------------------
  // Equality

  /** `B3Spline.__eq__`: only another B3Spline can be equal, and then exactly when the models are. */
  function Equals(self: B3Spline, other: Value): (r: bool)
    ensures r <==> other.B3SplineObject? && other.spline.model == self.model
  {
    match other
    case B3SplineObject(o) => self.model == o.model
    case _ => false
  }

  /** `__eq__` is an equivalence on B3Splines and agrees with equality of their models. */
  lemma EqualsIsModelEquality(a: B3Spline, b: B3Spline, c: B3Spline)
    ensures Equals(a, B3SplineObject(b)) <==> a.model == b.model
    ensures Equals(a, B3SplineObject(a))
    ensures Equals(a, B3SplineObject(b)) <==> Equals(b, B3SplineObject(a))
    ensures Equals(a, B3SplineObject(b)) && Equals(b, B3SplineObject(c)) ==> Equals(a, B3SplineObject(c))
  {
  }

  // ---------------------------------------------------------------------------
  // JSON tagging

  /**
   * `to_json_dict`: the backend dictionary of the model, tagged with
   * "__class__": "splinebox.Spline", inside an outer dictionary tagged
   * "skeleplex.B3Spline" that also names the backend. A backend dictionary
   * that already has a "__class__" key is refused.
   */
  function ToJsonDict(box: Splinebox, self: B3Spline): (r: Result<map<string, Value>>)
    ensures r.Failure? <==> ClassKey in box.toDict(self.model)
    ensures r.Failure? ==> r.error.ValueError?
    ensures r.Success? ==>
      && r.value.Keys == {ClassKey, "model", "backend"}
      && r.value[ClassKey] == Str(SplineTag)
      && r.value["backend"] == Str(Backend)
      && r.value["model"].Dict?
      && r.value["model"].fields.Keys == box.toDict(self.model).Keys + {ClassKey}
      && r.value["model"].fields[ClassKey] == Str(ModelTag)
      && (forall k :: k in box.toDict(self.model) ==> r.value["model"].fields[k] == box.toDict(self.model)[k])
  {
    var modelDict := box.toDict(self.model);
    if ClassKey in modelDict then
      Failure(ValueError("The Spline object to encode already has a '__class__' key."))
    else
      var tagged := modelDict[ClassKey := Str(ModelTag)];
      Success(map[ClassKey := Str(SplineTag), "model" := Dict(tagged), "backend" := Str(Backend)])
  }

  /** Whether `from_json_dict` gets past the backend check and finds a "model" entry. */
  predicate ReachesModel(doc: map<string, Value>) {
    "backend" in doc && doc["backend"] == Str(Backend) && "model" in doc
  }

  /**
   * What `from_json_dict` returns for a dictionary: a missing "backend" or
   * "model" key is a KeyError, a backend other than "splinebox" a
   * ValueError; an already decoded spline model is wrapped as it is; a model
   * dictionary loses its "__class__" key (a KeyError if it has none) and the
   * rest is handed to the backend's constructor. Anything else fails at `pop`.
   */
  function DecodeSpline(box: Splinebox, doc: map<string, Value>): (r: Result<B3Spline>)
    ensures "backend" !in doc ==> r == Failure(KeyError("backend"))
    ensures "backend" in doc && doc["backend"] != Str(Backend) ==> r.Failure? && r.error.ValueError?
    ensures "backend" in doc && doc["backend"] == Str(Backend) && "model" !in doc ==> r == Failure(KeyError("model"))
    ensures r.Success? ==> ReachesModel(doc)
    ensures ReachesModel(doc) && doc["model"].SplineObject? ==> r == Success(B3Spline(doc["model"].model))
    ensures ReachesModel(doc) && doc["model"].Dict? ==> (r.Success? <==> ClassKey in doc["model"].fields)
    ensures ReachesModel(doc) && doc["model"].Dict? && ClassKey !in doc["model"].fields ==>
      r == Failure(KeyError(ClassKey))
    ensures ReachesModel(doc) && doc["model"].Dict? && ClassKey in doc["model"].fields ==>
      r == Success(B3Spline(box.construct(doc["model"].fields - {ClassKey})))
    ensures ReachesModel(doc) && !doc["model"].SplineObject? && !doc["model"].Dict? ==> r.Failure?
  {
    if "backend" !in doc then Failure(KeyError("backend"))
    else if doc["backend"] != Str(Backend) then Failure(ValueError("Expected backend splinebox."))
    else if "model" !in doc then Failure(KeyError("model"))
    else
      match doc["model"]
      case SplineObject(m) => Success(B3Spline(m))
      case Dict(fields) =>
        if ClassKey !in fields then Failure(KeyError(ClassKey))
        else Success(B3Spline(box.construct(fields - {ClassKey})))
      case List(_) => Failure(TypeError("'str' object cannot be interpreted as an integer"))
      case _ => Failure(AttributeError("object has no attribute 'pop'"))
  }

  /**
   * The caller's dictionary after `from_json_dict`: when decoding reaches the
   * `pop`, the model dictionary no longer has its "__class__" key.
   */
  function AfterDecode(doc: map<string, Value>): (after: map<string, Value>)
    ensures after.Keys == doc.Keys
    ensures forall k :: k in doc && k != "model" ==> after[k] == doc[k]
    ensures ReachesModel(doc) && doc["model"].Dict? && ClassKey in doc["model"].fields ==>
      after["model"] == Dict(doc["model"].fields - {ClassKey}) && ClassKey !in after["model"].fields
    ensures !(ReachesModel(doc) && doc["model"].Dict? && ClassKey in doc["model"].fields) ==> after == doc
  {
    if ReachesModel(doc) && doc["model"].Dict? && ClassKey in doc["model"].fields
    then doc["model" := Dict(doc["model"].fields - {ClassKey})]
    else doc
  }

  /** A Python dict the caller owns and `from_json_dict` changes in place. */
  class JsonDict {
    var fields: map<string, Value>

    constructor (fields: map<string, Value>)
      ensures this.fields == fields
    {
      this.fields := fields;
    }
  }

  /**
   * `B3Spline.from_json_dict`: decodes `json` as DecodeSpline says and pops
   * the model's "__class__" tag out of the caller's dictionary on the way.
   */
  method FromJsonDict(box: Splinebox, json: JsonDict) returns (r: Result<B3Spline>)
    modifies json
    ensures r == DecodeSpline(box, old(json.fields))
    ensures json.fields == AfterDecode(old(json.fields))
  {
    if "backend" !in json.fields {
      return Failure(KeyError("backend"));
    }
    if json.fields["backend"] != Str(Backend) {
      return Failure(ValueError("Expected backend splinebox."));
    }
    if "model" !in json.fields {
      return Failure(KeyError("model"));
    }
    var splineModelDict := json.fields["model"];
    if splineModelDict.SplineObject? {
      return Success(B3Spline(splineModelDict.model));
    }
    match splineModelDict {
      case Dict(fields) =>
        if ClassKey !in fields {
          return Failure(KeyError(ClassKey));
        }
        var popped := fields - {ClassKey};
        json.fields := json.fields["model" := Dict(popped)];
        r := Success(B3Spline(box.construct(popped)));
      case List(_) =>
        r := Failure(TypeError("'str' object cannot be interpreted as an integer"));
      case _ =>
        r := Failure(AttributeError("object has no attribute 'pop'"));
    }
  }

  /**
   * When the backend dictionary has no "__class__" key and the backend's
   * constructor inverts `_to_dict`, decoding what to_json_dict produced gives
   * the same spline back: from_json_dict removes exactly the tag that
   * to_json_dict added.
   */
  lemma JsonRoundTrip(box: Splinebox, s: B3Spline)
    requires ClassKey !in box.toDict(s.model)
    requires box.construct(box.toDict(s.model)) == s.model
    ensures ToJsonDict(box, s).Success?
    ensures DecodeSpline(box, ToJsonDict(box, s).value) == Success(s)
  {
    var modelDict := box.toDict(s.model);
    var doc := ToJsonDict(box, s).value;
    var tagged := modelDict[ClassKey := Str(ModelTag)];
    assert doc["model"] == Dict(tagged);
    assert tagged - {ClassKey} == modelDict;
  }

  /** The value of the model's "__class__" tag is never looked at, only its presence. */
  lemma TagValueIsNotChecked(box: Splinebox, doc: map<string, Value>, fields: map<string, Value>, tag: Value)
    requires "backend" in doc && doc["backend"] == Str(Backend)
    requires ClassKey in fields
    ensures DecodeSpline(box, doc["model" := Dict(fields)])
         == DecodeSpline(box, doc["model" := Dict(fields[ClassKey := tag])])
    ensures DecodeSpline(box, doc["model" := Dict(fields)]) == Success(B3Spline(box.construct(fields - {ClassKey})))
  {
    assert fields[ClassKey := tag] - {ClassKey} == fields - {ClassKey};
  }

  /**
   * Decoding a dictionary changes it: once a model dictionary has been
   * decoded, decoding the same dictionary again fails with KeyError
   * '__class__'.
   */
  lemma SecondDecodeFails(box: Splinebox, doc: map<string, Value>)
    requires DecodeSpline(box, doc).Success?
    requires doc["model"].Dict?
    ensures DecodeSpline(box, AfterDecode(doc)) == Failure(KeyError(ClassKey))
  {
    var after := AfterDecode(doc);
    assert after["model"] == Dict(doc["model"].fields - {ClassKey});
  }

  // ---------------------------------------------------------------------------
  // Construction from points and flipping

  /**
   * `B3Spline.from_points`: an open spline with the B3 basis and M = n_knots,
   * whose control points the backend fits to the points.
   */
  function FromPoints(box: Splinebox, points: seq<Vec3>, nKnots: int := DefaultKnots): (s: B3Spline)
    ensures s.model.basis == B3 && s.model.knots == nKnots && !s.model.closed
    ensures s.model.controlPoints == Some(box.fit(SplineModel(B3, nKnots, false, None), points))
  {
    var unfitted := SplineModel(B3, nKnots, false, None);
    B3Spline(unfitted.(controlPoints := Some(box.fit(unfitted, points))))
  }

  /** `path[::-1]`: the points of the path in the opposite order. */
  function Reversed<T>(path: seq<T>): (r: seq<T>)
    ensures |r| == |path|
    ensures forall i :: 0 <= i < |path| ==> r[i] == path[|path| - 1 - i]
    decreases |path|
  {
    if path == [] then [] else Reversed(path[1..]) + [path[0]]
  }

  /** Reversing a path twice gives it back. */
  lemma ReversedTwice<T>(path: seq<T>)
    ensures Reversed(Reversed(path)) == path
  {
  }

  /**
   * `B3Spline.flip_spline`: the reversed path and a spline fitted to it with
   * the default number of knots, whatever the knots of the flipped spline.
   */
  function FlipSpline(box: Splinebox, self: B3Spline, path: seq<Vec3>): (r: (B3Spline, seq<Vec3>))
    ensures r.1 == Reversed(path)
    ensures r.0 == FromPoints(box, r.1)
  {
    var flipped := Reversed(path);
    (FromPoints(box, flipped), flipped)
  }

  /**
   * The flipped path runs from the old end to the old start, and flipping the
   * result again refits the original path.
   */
  lemma FlipTwiceRefitsPath(box: Splinebox, self: B3Spline, path: seq<Vec3>)
    ensures var (s1, p1) := FlipSpline(box, self, path);
      && (|path| > 0 ==> p1[0] == path[|path| - 1] && p1[|path| - 1] == path[0])
      && FlipSpline(box, s1, p1) == (FromPoints(box, path), path)
      && s1.model.knots == DefaultKnots
  {
    ReversedTwice(path);
  }

  // ---------------------------------------------------------------------------
  // Sampling a volume on planes along the spline

  /** `Rotation.from_matrix(m).apply(p)`: the rotation closest to `m` applied to `p`. Abstract. */
  type Rotator = (Mat3, Vec3) -> Vec3

  /** `np.column_stack([frame[0], frame[1], frame[2]])`. */
  function FrameMatrix(frame: Frame): Mat3 {
    ColumnStack(frame.e0, frame.e1, frame.e2)
  }

  /** `orientation.apply(points)`: every point rotated, in order. */
  function RotateAll(rotate: Rotator, m: Mat3, points: seq<Vec3>): (r: seq<Vec3>)
    ensures |r| == |points|
    ensures forall k :: 0 <= k < |points| ==> r[k] == rotate(m, points[k])
  {
    seq(|points|, k requires 0 <= k < |points| => rotate(m, points[k]))
  }

  /**
   * `np.stack(rotated, axis=1) + centroids`: grid point g of position b moves
   * to index (g, b) and is shifted by that position's centroid.
   */
  function StackShifted(rotated: seq<seq<Vec3>>, centroids: seq<Vec3>, gridSize: nat): (stacked: seq<seq<Vec3>>)
    requires Rectangular(rotated, gridSize) && |centroids| == |rotated|
    ensures |stacked| == gridSize && Rectangular(stacked, |rotated|)
    ensures forall g, b :: 0 <= g < gridSize && 0 <= b < |rotated| ==>
      stacked[g][b] == Add(rotated[b][g], centroids[b])
  {
    seq(gridSize, g requires 0 <= g < gridSize =>
      seq(|rotated|, b requires 0 <= b < |rotated| => Add(rotated[b][g], centroids[b])))
  }

  /**
   * `rotated_shifted.reshape(-1, w, h, 3)` with the grid axes kept flat:
   * the (gridSize, n) stack read row-major into n rows of gridSize points.
   */
  function PlacedGrids(stacked: seq<seq<Vec3>>, n: nat, gridSize: nat): (placed: seq<seq<Vec3>>)
    requires |stacked| == gridSize && Rectangular(stacked, n)
    ensures |placed| == n && Rectangular(placed, gridSize)
    ensures Flatten(placed) == Flatten(stacked)
  {
    FlattenLength(stacked, n);
    assert gridSize * n == n * gridSize;
    Reshape(Flatten(stacked), n, gridSize)
  }

  /**
   * The stack along axis 1, the reshape to (n, *grid) and the sampler's
   * reshape to (*grid, n) with the batch axis moved to the front cancel: the
   * value at (b, g) is sampled at grid point g of position b, shifted by
   * position b's centroid.
   */
  lemma {:induction false} StackReshapeCancels<V>(volume: V, rotated: seq<seq<Vec3>>, centroids: seq<Vec3>,
                                                  gridSize: nat, order: int, fill: real, interp: Interpolator<V>,
                                                  b: int, g: int)
    requires Rectangular(rotated, gridSize) && |centroids| == |rotated|
    requires 0 <= b < |rotated| && 0 <= g < gridSize
    ensures var placed := PlacedGrids(StackShifted(rotated, centroids, gridSize), |rotated|, gridSize);
      SampleVolumeAtCoordinates(volume, placed, gridSize, order, fill, interp)[b][g]
      == interp(volume, Add(rotated[b][g], centroids[b]), order, fill)
  {
    var n := |rotated|;
    var stacked := StackShifted(rotated, centroids, gridSize);
    var placed := PlacedGrids(stacked, n, gridSize);
    var q := g * n + b;
    assert 0 <= q < gridSize * n by {
      RowMajorBound(g, b, gridSize, n);
    }
    FlattenAt(stacked, n, q);
    RowMajorDivMod(g, b, n);
    assert Flatten(stacked)[q] == stacked[g][b];
    assert q < n * gridSize;
    FlattenAt(placed, gridSize, q);
    assert SourceCoordinate(placed, gridSize, b, g) == Flatten(placed)[q];
  }

  /**
   * Where image b samples pixel (i, j): the plane grid's point (i, j)
   * rotated by frame b and moved to the spline point of position b.
   */
  ghost function PlanePointPlaced(rotate: Rotator, frame: Frame, centroid: Vec3,
                                  gridShape: Shape2, gridSpacing: Spacing2, i: int, j: int): Vec3
  {
    Add(rotate(FrameMatrix(frame), PlanePoint(gridShape, gridSpacing, i, j)), centroid)
  }

  /** Pixel (i, j) of image b, traced through the cancelling reshapes and the sampler's own reshape to (w, h). */
  lemma {:induction false} PlacedPixel<V>(volume: V, rotated: seq<seq<Vec3>>, centroids: seq<Vec3>, gridShape: Shape2,
                                          order: int, fill: real, interp: Interpolator<V>, b: int, i: int, j: int)
    requires Rectangular(rotated, gridShape.w * gridShape.h) && |centroids| == |rotated|
    requires 0 <= b < |rotated| && 0 <= i < gridShape.w && 0 <= j < gridShape.h
    ensures var gridSize := gridShape.w * gridShape.h;
      var sampled := SampleVolumeAtCoordinates(volume, PlacedGrids(StackShifted(rotated, centroids, gridSize),
                                                                   |rotated|, gridSize),
                                               gridSize, order, fill, interp);
      Reshape(sampled[b], gridShape.w, gridShape.h)[i][j]
      == interp(volume, Add(Reshape(rotated[b], gridShape.w, gridShape.h)[i][j], centroids[b]), order, fill)
  {
    var gridSize := gridShape.w * gridShape.h;
    var sampled := SampleVolumeAtCoordinates(volume, PlacedGrids(StackShifted(rotated, centroids, gridSize),
                                                                 |rotated|, gridSize),
                                             gridSize, order, fill, interp);
    ReshapeAt(sampled[b], gridShape.w, gridShape.h, i, j);
    ReshapeAt(rotated[b], gridShape.w, gridShape.h, i, j);
    StackReshapeCancels(volume, rotated, centroids, gridSize, order, fill, interp, b, i * gridShape.h + j);
  }

  /** The sampler's grid axis of every image, restored to the grid's (w, h) shape. */
  function ReshapeEach(flat: seq<seq<real>>, w: nat, h: nat): (images: seq<seq<seq<real>>>)
    requires Rectangular(flat, w * h)
    ensures |images| == |flat|
    ensures forall b :: 0 <= b < |flat| ==> images[b] == Reshape(flat[b], w, h)
  {
    seq(|flat|, b requires 0 <= b < |flat| => Reshape(flat[b], w, h))
  }

  /**
   * Image b, pixel (i, j) is the volume sampled at point (i, j) of rotated
   * grid b, shifted by centroid b; there is one (w, h) image per grid.
   */
  ghost predicate PixelsSampled<V>(images: seq<seq<seq<real>>>, volume: V, rotated: seq<seq<Vec3>>,
                                   centroids: seq<Vec3>, gridShape: Shape2, order: int, fill: real,
                                   interp: Interpolator<V>)
    requires Rectangular(rotated, gridShape.w * gridShape.h) && |centroids| == |rotated|
  {
    && |images| == |rotated|
    && (forall b :: 0 <= b < |rotated| ==> |images[b]| == gridShape.w)
    && (forall b, i :: 0 <= b < |rotated| && 0 <= i < gridShape.w ==> |images[b][i]| == gridShape.h)
    && forall b, i, j :: 0 <= b < |rotated| && 0 <= i < gridShape.w && 0 <= j < gridShape.h ==>
      images[b][i][j]
         == interp(volume, Add(Reshape(rotated[b], gridShape.w, gridShape.h)[i][j], centroids[b]), order, fill)
  }

  /** Stacking, shifting, reshaping, sampling and restoring the grid axes samples every pixel where it belongs. */
  lemma PlacedImagesSampled<V>(volume: V, rotated: seq<seq<Vec3>>, centroids: seq<Vec3>, gridShape: Shape2,
                               order: int, fill: real, interp: Interpolator<V>)
    requires Rectangular(rotated, gridShape.w * gridShape.h) && |centroids| == |rotated|
    ensures var gridSize := gridShape.w * gridShape.h;
      var placed := PlacedGrids(StackShifted(rotated, centroids, gridSize), |rotated|, gridSize);
      var sampled := SampleVolumeAtCoordinates(volume, placed, gridSize, order, fill, interp);
      PixelsSampled(ReshapeEach(sampled, gridShape.w, gridShape.h), volume, rotated, centroids, gridShape,
                    order, fill, interp)
  {
    var gridSize := gridShape.w * gridShape.h;
    var placed := PlacedGrids(StackShifted(rotated, centroids, gridSize), |rotated|, gridSize);
    var sampled := SampleVolumeAtCoordinates(volume, placed, gridSize, order, fill, interp);
    var images := ReshapeEach(sampled, gridShape.w, gridShape.h);
    forall b | 0 <= b < |rotated|
      ensures |images[b]| == gridShape.w && Rectangular(images[b], gridShape.h)
    {
    }
    forall b, i, j | 0 <= b < |rotated| && 0 <= i < gridShape.w && 0 <= j < gridShape.h
      ensures images[b][i][j]
                 == interp(volume, Add(Reshape(rotated[b], gridShape.w, gridShape.h)[i][j], centroids[b]), order, fill)
    {
      PlacedPixel(volume, rotated, centroids, gridShape, order, fill, interp, b, i, j);
    }
  }

  /**
   * Lines 142-152 of spline.py: the rotated grids stacked along axis 1,
   * shifted by the centroids, reshaped to (n, w, h, 3) and sampled. Image b,
   * pixel (i, j) is the volume at point (i, j) of rotated grid b, shifted by
   * centroid b. An empty list of grids cannot be stacked and an empty grid
   * cannot be reshaped with -1: both are ValueErrors.
   */
  function PlaceAndSample<V>(volume: V, rotated: seq<seq<Vec3>>, centroids: seq<Vec3>, gridShape: Shape2,
                             order: int, fill: real, interp: Interpolator<V>): (r: Result<seq<seq<seq<real>>>>)
    requires Rectangular(rotated, gridShape.w * gridShape.h) && |centroids| == |rotated|
    ensures r.Success? <==> |rotated| > 0 && gridShape.w * gridShape.h > 0
    ensures r.Failure? ==> r.error.ValueError?
    ensures r.Success? ==> PixelsSampled(r.value, volume, rotated, centroids, gridShape, order, fill, interp)
  {
    var gridSize := gridShape.w * gridShape.h;
    if |rotated| == 0 then
      Failure(ValueError("need at least one array to stack"))
    else if gridSize == 0 then
      Failure(ValueError("cannot reshape array of size 0 into shape (-1, w, h, 3)"))
    else
      var placed := PlacedGrids(StackShifted(rotated, centroids, gridSize), |rotated|, gridSize);
      var sampled := SampleVolumeAtCoordinates(volume, placed, gridSize, order, fill, interp);
      PlacedImagesSampled(volume, rotated, centroids, gridShape, order, fill, interp);
      Success(ReshapeEach(sampled, gridShape.w, gridShape.h))
  }

  /** Point (i, j) of a rotated flattened grid, reshaped back to (w, h), is the rotated grid point (i, j). */
  lemma {:induction false} RotatedGridAt(rotate: Rotator, m: Mat3, grid: Grid2, gridShape: Shape2, i: int, j: int)
    requires HasShape2(grid, gridShape)
    requires 0 <= i < gridShape.w && 0 <= j < gridShape.h
    ensures |RotateAll(rotate, m, Flatten(grid))| == gridShape.w * gridShape.h
    ensures Reshape(RotateAll(rotate, m, Flatten(grid)), gridShape.w, gridShape.h)[i][j] == rotate(m, grid[i][j])
  {
    FlattenLength(grid, gridShape.h);
    var p := i * gridShape.h + j;
    ReshapeAt(RotateAll(rotate, m, Flatten(grid)), gridShape.w, gridShape.h, i, j);
    FlattenAt(grid, gridShape.h, p);
    RowMajorDivMod(i, j, gridShape.h);
  }

  /**
   * The loop over the moving frame: grid b is every grid point rotated by
   * the rotation whose matrix has frame b's vectors as its columns.
   */
  method RotateGrids(rotate: Rotator, frames: seq<Frame>, gridCoords: seq<Vec3>) returns (rotated: seq<seq<Vec3>>)
    ensures |rotated| == |frames|
    ensures forall c :: 0 <= c < |frames| ==> rotated[c] == RotateAll(rotate, FrameMatrix(frames[c]), gridCoords)
    ensures Rectangular(rotated, |gridCoords|)
  {
    rotated := [];
    var k := 0;
    while k < |frames|
      invariant 0 <= k <= |frames|
      invariant |rotated| == k
      invariant forall c :: 0 <= c < k ==> rotated[c] == RotateAll(rotate, FrameMatrix(frames[c]), gridCoords)
    {
      var frame := frames[k];
      var rotationMatrix := ColumnStack(frame.e0, frame.e1, frame.e2);
      rotated := rotated + [RotateAll(rotate, rotationMatrix, gridCoords)];
      k := k + 1;
    }
  }

  /**
   * `B3Spline.sample_volume_2d`: one image of shape (w, h) per position, in
   * the order of the positions, whose pixel (i, j) is the volume interpolated
   * at the plane grid's point (i, j) rotated by that position's frame and
   * centred on the spline point there. No positions and an empty grid are
   * ValueErrors. The grid spacing is handed to the plane grid as it is.
   */
  method SampleVolume2d<V>(box: Splinebox, self: B3Spline, volume: V, positions: seq<real>,
                           rotate: Rotator, interp: Interpolator<V>, sampleFillValue: real,
                           gridShape: Shape2 := Shape2(10, 10), gridSpacing: Spacing2 := Spacing2(1.0, 1.0),
                           movingFrameMethod: string := "bishop", sampleInterpolationOrder: int := 3)
    returns (r: Result<seq<seq<seq<real>>>>)
    requires |MovingFrame(box, self, positions, movingFrameMethod)| == |positions|
    ensures r.Success? <==> |positions| > 0 && gridShape.w * gridShape.h > 0
    ensures r.Failure? ==> r.error.ValueError?
    ensures r.Success? ==> |r.value| == |positions|
    ensures r.Success? ==> forall b :: 0 <= b < |positions| ==> |r.value[b]| == gridShape.w
    ensures r.Success? ==> forall b, i :: 0 <= b < |positions| && 0 <= i < gridShape.w ==> |r.value[b][i]| == gridShape.h
    ensures r.Success? ==> forall b, i, j :: 0 <= b < |positions| && 0 <= i < gridShape.w && 0 <= j < gridShape.h ==>
      r.value[b][i][j]
         == interp(volume,
                   PlanePointPlaced(rotate, MovingFrame(box, self, positions, movingFrameMethod)[b],
                                    Eval(box, self, positions)[b], gridShape, gridSpacing, i, j),
                   sampleInterpolationOrder, sampleFillValue)
  {
    var movingFrame := MovingFrame(box, self, positions, movingFrameMethod);
    var samplingGrid := Generate2dGrid(gridShape, gridSpacing);
    var gridCoords := Flatten(samplingGrid);
    FlattenLength(samplingGrid, gridShape.h);
    var rotated := RotateGrids(rotate, movingFrame, gridCoords);
    var centroids := Eval(box, self, positions);
    r := PlaceAndSample(volume, rotated, centroids, gridShape, sampleInterpolationOrder, sampleFillValue, interp);
    if r.Success? {
      PlanePixelsSampled(r.value, volume, rotate, movingFrame, rotated, centroids, gridShape, gridSpacing,
                         sampleInterpolationOrder, sampleFillValue, interp);
    }
  }

  /**
   * When grid b is the plane grid rotated by frame b, the pixels PlaceAndSample
   * samples are the plane grid's points rotated by their frame and moved to
   * their centroid.
   */
  lemma PlanePixelsSampled<V>(images: seq<seq<seq<real>>>, volume: V, rotate: Rotator, frames: seq<Frame>,
                              rotated: seq<seq<Vec3>>, centroids: seq<Vec3>, gridShape: Shape2,
                              gridSpacing: Spacing2, order: int, fill: real, interp: Interpolator<V>)
    requires |frames| == |rotated| && |centroids| == |rotated|
    requires forall c :: 0 <= c < |rotated| ==>
      rotated[c] == RotateAll(rotate, FrameMatrix(frames[c]), Flatten(Generate2dGrid(gridShape, gridSpacing)))
    requires Rectangular(rotated, gridShape.w * gridShape.h)
    requires PixelsSampled(images, volume, rotated, centroids, gridShape, order, fill, interp)
    ensures forall b, i :: 0 <= b < |frames| && 0 <= i < gridShape.w ==>
      |images[b]| == gridShape.w && |images[b][i]| == gridShape.h
    ensures forall b, i, j :: 0 <= b < |frames| && 0 <= i < gridShape.w && 0 <= j < gridShape.h ==>
      images[b][i][j]
      == interp(volume, PlanePointPlaced(rotate, frames[b], centroids[b], gridShape, gridSpacing, i, j), order, fill)
  {
    var samplingGrid := Generate2dGrid(gridShape, gridSpacing);
    forall b, i, j | 0 <= b < |frames| && 0 <= i < gridShape.w && 0 <= j < gridShape.h
      ensures images[b][i][j]
              == interp(volume, PlanePointPlaced(rotate, frames[b], centroids[b], gridShape, gridSpacing, i, j),
                        order, fill)
    {
      var m := FrameMatrix(frames[b]);
      assert rotated[b] == RotateAll(rotate, m, Flatten(samplingGrid));
      RotatedGridAt(rotate, m, samplingGrid, gridShape, i, j);
      assert samplingGrid[i][j] == PlanePoint(gridShape, gridSpacing, i, j);
    }
  }

  /**
   * With an exact rotation (the frame's matrix applied as it is), pixel
   * (i, j) of image b lies at the centroid plus its grid coordinates along
   * the frame's second and third vectors; for an orthonormal frame it lies
   * in the plane through the centroid normal to the first vector, the
   * spline's direction there.
   */
  lemma PlaneIsNormalToFrame(frame: Frame, centroid: Vec3, gridShape: Shape2, gridSpacing: Spacing2, i: int, j: int)
    ensures var point := PlanePointPlaced((m: Mat3, v: Vec3) => MatVec(m, v), frame, centroid, gridShape, gridSpacing, i, j);
      var grid := PlanePoint(gridShape, gridSpacing, i, j);
      && Sub(point, centroid) == Add(Scale(grid.y, frame.e1), Scale(grid.z, frame.e2))
      && (Dot(frame.e0, frame.e1) == 0.0 && Dot(frame.e0, frame.e2) == 0.0 ==> Dot(Sub(point, centroid), frame.e0) == 0.0)
  {
    var grid := PlanePoint(gridShape, gridSpacing, i, j);
    var point := PlanePointPlaced((m: Mat3, v: Vec3) => MatVec(m, v), frame, centroid, gridShape, gridSpacing, i, j);
    assert grid.x == 0.0;
    ColumnStackCombinesColumns(frame.e0, frame.e1, frame.e2, grid);
    var offset := Add(Scale(grid.y, frame.e1), Scale(grid.z, frame.e2));
    assert Sub(point, centroid) == offset;
    assert Dot(offset, frame.e0) == grid.y * Dot(frame.e0, frame.e1) + grid.z * Dot(frame.e0, frame.e2);
  }

  // ---------------------------------------------------------------------------
  // The grid spacing as line 127 of spline.py passes it

  /** A `grid_spacing` argument: a pair, as annotated, or a single number. */
  datatype SpacingArgument = PairSpacing(first: real, second: real) | ScalarSpacing(s: real)

  /**
   * The spacing generate_2d_grid receives as written, `(grid_spacing,
   * grid_spacing)`, becomes generate_3d_grid's `(1, *spacing)`. That array is
   * ragged, so NumPy refuses it, unless `grid_spacing` is a single number s,
   * which gives spacing (s, s).
   */
  function SamplingSpacingAsWritten(gridSpacing: SpacingArgument): (r: Result<Spacing2>)
    ensures r.Success? <==> gridSpacing.ScalarSpacing?
    ensures r.Failure? ==> r.error.ValueError?
    ensures r.Success? ==> r.value == Spacing2(gridSpacing.s, gridSpacing.s)
  {
    match gridSpacing
    case ScalarSpacing(s) => Success(Spacing2(s, s))
    case PairSpacing(_, _) =>
      Failure(ValueError("setting an array element with a sequence: inhomogeneous shape"))
  }

  /**
   * `B3Spline.sample_volume_2d` as written: the frames are computed first,
   * then the plane grid is built from `(grid_spacing, grid_spacing)`. A pair
   * spacing, the default (1, 1) included, fails there; a single number s
   * samples as SampleVolume2d does with spacing (s, s).
   */
  method SampleVolume2dAsWritten<V>(box: Splinebox, self: B3Spline, volume: V, positions: seq<real>,
                                    rotate: Rotator, interp: Interpolator<V>, sampleFillValue: real,
                                    gridShape: Shape2 := Shape2(10, 10),
                                    gridSpacing: SpacingArgument := PairSpacing(1.0, 1.0),
                                    movingFrameMethod: string := "bishop", sampleInterpolationOrder: int := 3)
    returns (r: Result<seq<seq<seq<real>>>>)
    requires |MovingFrame(box, self, positions, movingFrameMethod)| == |positions|
    ensures gridSpacing.PairSpacing? ==> r.Failure? && r.error.ValueError?
    ensures gridSpacing.ScalarSpacing? ==> (r.Success? <==> |positions| > 0 && gridShape.w * gridShape.h > 0)
    ensures r.Failure? ==> r.error.ValueError?
    ensures r.Success? ==> gridSpacing.ScalarSpacing? && |r.value| == |positions|
    ensures r.Success? ==> forall b :: 0 <= b < |positions| ==> |r.value[b]| == gridShape.w
    ensures r.Success? ==> forall b, i :: 0 <= b < |positions| && 0 <= i < gridShape.w ==> |r.value[b][i]| == gridShape.h
    ensures r.Success? ==> forall b, i, j :: 0 <= b < |positions| && 0 <= i < gridShape.w && 0 <= j < gridShape.h ==>
      r.value[b][i][j]
         == interp(volume,
                   PlanePointPlaced(rotate, MovingFrame(box, self, positions, movingFrameMethod)[b],
                                    Eval(box, self, positions)[b], gridShape,
                                    Spacing2(gridSpacing.s, gridSpacing.s), i, j),
                   sampleInterpolationOrder, sampleFillValue)
  {
    var spacing := SamplingSpacingAsWritten(gridSpacing);
    if spacing.Failure? {
      return Failure(spacing.error);
    }
    assert gridSpacing.ScalarSpacing? && spacing.value == Spacing2(gridSpacing.s, gridSpacing.s);
    r := SampleVolume2d(box, self, volume, positions, rotate, interp, sampleFillValue, gridShape,
                        Spacing2(gridSpacing.s, gridSpacing.s), movingFrameMethod, sampleInterpolationOrder);
  }

  /** The default spacing (1, 1), and every other pair, is refused as written. */
  lemma PairSpacingIsRejected(sx: real, sy: real)
    ensures SamplingSpacingAsWritten(PairSpacing(1.0, 1.0)).Failure?
    ensures SamplingSpacingAsWritten(PairSpacing(sx, sy)).Failure?
  {
  }
}
