/** The integer geometry of simulation/transforms/perspective.py: the border mode, the
    corner correspondences a random perspective transform hands to
    `cv2.getPerspectiveTransform`, and the camera matrix of the lens distortion. The
    OpenCV calls themselves are function parameters. */
module Perspective {
  import opened Base

  /** The OpenCV border modes the transform chooses from. */
  datatype BorderMode = Replicate | Constant

  /** `bg_mode`: replicate the border when there is no background colour. */
  function BorderModeFor(background: Option<int>): (r: BorderMode)
    ensures r == Replicate <==> background.None?
  {
    if background.None? then Replicate else Constant
  }

  /** A corner, as (first axis, second axis) of the image shape. */
  type Point = (int, int)

  /** Which axes a transform displaces: `RandomPerspectiveTransform` both,
      `RandomPerspectiveTransformX` only the first, `RandomPerspectiveTransformY` only the
      second. */
  datatype Axes = BothAxes | OnlyX | OnlyY

  /** The largest displacement `np.floor(dim * max_shift)`. */
  function MaxDisplacement(dim: int, maxShift: real): int
  {
    (dim as real * maxShift).Floor
  }

  /** Four draws of `np.random.randint(0, bound + 1, 4)`. */
  predicate DrawsIn(draws: seq<int>, bound: int)
  {
    |draws| == 4 && forall k :: 0 <= k < 4 ==> 0 <= draws[k] <= bound
  }

  /** `get_x_displacement` / `get_y_displacement`: four draws in `[0, floor(dim * max_shift)]`,
      ValueError when that range is empty. */
  function Displacement(dim: int, maxShift: real, draws: seq<int>): (r: Result<seq<int>>)
    requires MaxDisplacement(dim, maxShift) >= 0 ==> DrawsIn(draws, MaxDisplacement(dim, maxShift))
    ensures r.Ok? <==> MaxDisplacement(dim, maxShift) >= 0
    ensures r.Ok? ==> DrawsIn(r.value, MaxDisplacement(dim, maxShift)) && r.value == draws
    ensures r.Err? ==> r.error == ValueError
  {
    if MaxDisplacement(dim, maxShift) < 0 then Err(ValueError) else Ok(draws)
  }

  /** The displacements of one axis for a transform variant: the overridden axis is all
      zeros and draws nothing. */
  function AxisDisplacement(displaced: bool, dim: int, maxShift: real, draws: seq<int>): (r: Result<seq<int>>)
    requires displaced && MaxDisplacement(dim, maxShift) >= 0 ==> DrawsIn(draws, MaxDisplacement(dim, maxShift))
    ensures !displaced ==> r == Ok([0, 0, 0, 0])
    ensures displaced ==> r == Displacement(dim, maxShift, draws)
  {
    if displaced then Displacement(dim, maxShift, draws) else Ok([0, 0, 0, 0])
  }

  /** `pa`: the corners TL, TR, BR, BL of the box `[0, xd] x [0, yd]`. */
  function SourceCorners(xd: int, yd: int): seq<Point>
  {
    [(0, 0), (xd, 0), (xd, yd), (0, yd)]
  }

  /** `pb`: each source corner moved inwards by its displacements. */
  function DestinationCorners(xd: int, yd: int, xs: seq<int>, ys: seq<int>): (r: seq<Point>)
    requires |xs| == 4 && |ys| == 4
    ensures |r| == 4
  {
    [(xs[0], ys[0]), (xd - xs[1], ys[1]), (xd - xs[2], yd - ys[2]), (xs[3], yd - ys[3])]
  }

  /** The correspondence `get_transform_matrix` solves for, once its draws are made;
      `rows` and `cols` are `shape[:2]`, reduced by one before use. */
  datatype Correspondence = Correspondence(src: seq<Point>, dst: seq<Point>)

  function Corners(rows: nat, cols: nat, maxShift: real, axes: Axes, xDraws: seq<int>, yDraws: seq<int>)
    : (r: Result<Correspondence>)
    requires axes != OnlyY && MaxDisplacement(rows - 1, maxShift) >= 0 ==> DrawsIn(xDraws, MaxDisplacement(rows - 1, maxShift))
    requires axes != OnlyX && MaxDisplacement(cols - 1, maxShift) >= 0 ==> DrawsIn(yDraws, MaxDisplacement(cols - 1, maxShift))
    ensures r.Ok? <==>
      && (axes == OnlyY || MaxDisplacement(rows - 1, maxShift) >= 0)
      && (axes == OnlyX || MaxDisplacement(cols - 1, maxShift) >= 0)
    ensures r.Ok? ==> r.value.src == SourceCorners(rows - 1, cols - 1) && |r.value.dst| == 4
  {
    var xd, yd := rows - 1, cols - 1;
    var xs := AxisDisplacement(axes != OnlyY, xd, maxShift, xDraws);
    var ys := AxisDisplacement(axes != OnlyX, yd, maxShift, yDraws);
    if xs.Err? then Err(xs.error)
    else if ys.Err? then Err(ys.error)
    else Ok(Correspondence(SourceCorners(xd, yd), DestinationCorners(xd, yd, xs.value, ys.value)))
  }

  /** `floor(d * s) <= d` for a shift in [0, 1]. */
  lemma MaxDisplacementBounded(d: nat, s: real)
    requires 0.0 <= s <= 1.0
    ensures 0 <= MaxDisplacement(d, s) <= d
  {
    assert 0.0 <= d as real * s <= d as real * 1.0;
  }

  /** With `0 <= max_shift <= 1` and a non-empty image every destination corner lies in
      the source box. */
  lemma CornersInsideBox(rows: nat, cols: nat, maxShift: real, axes: Axes, xDraws: seq<int>, yDraws: seq<int>)
    requires rows >= 1 && cols >= 1 && 0.0 <= maxShift <= 1.0
    requires axes != OnlyY ==> DrawsIn(xDraws, MaxDisplacement(rows - 1, maxShift))
    requires axes != OnlyX ==> DrawsIn(yDraws, MaxDisplacement(cols - 1, maxShift))
    ensures var r := Corners(rows, cols, maxShift, axes, xDraws, yDraws);
      && r.Ok?
      && forall k :: 0 <= k < 4 ==>
           0 <= r.value.dst[k].0 <= rows - 1 && 0 <= r.value.dst[k].1 <= cols - 1
  {
    MaxDisplacementBounded(rows - 1, maxShift);
    MaxDisplacementBounded(cols - 1, maxShift);
  }

  /** The X variant keeps every second coordinate, the Y variant every first. */
  lemma SingleAxisKeepsOther(rows: nat, cols: nat, maxShift: real, axes: Axes, xDraws: seq<int>, yDraws: seq<int>)
    requires axes != OnlyY && MaxDisplacement(rows - 1, maxShift) >= 0 ==> DrawsIn(xDraws, MaxDisplacement(rows - 1, maxShift))
    requires axes != OnlyX && MaxDisplacement(cols - 1, maxShift) >= 0 ==> DrawsIn(yDraws, MaxDisplacement(cols - 1, maxShift))
    requires Corners(rows, cols, maxShift, axes, xDraws, yDraws).Ok?
    ensures var c := Corners(rows, cols, maxShift, axes, xDraws, yDraws).value;
      && (axes == OnlyX ==> forall k :: 0 <= k < 4 ==> c.dst[k].1 == c.src[k].1)
      && (axes == OnlyY ==> forall k :: 0 <= k < 4 ==> c.dst[k].0 == c.src[k].0)
  {
  }

  /** `get_transform_matrix(shape)`: the correspondence handed to
      `cv2.getPerspectiveTransform`, passed in as `solve`. This is glue over `solve`: it
      forwards the corner error or hands the drawn corners to the solver, and what it
      promises about the corners is proved on `Corners`. */
  function TransformMatrix<M>(rows: nat, cols: nat, maxShift: real, axes: Axes, xDraws: seq<int>, yDraws: seq<int>,
                              solve: (seq<Point>, seq<Point>) -> M): (r: Result<M>)
    requires axes != OnlyY && MaxDisplacement(rows - 1, maxShift) >= 0 ==> DrawsIn(xDraws, MaxDisplacement(rows - 1, maxShift))
    requires axes != OnlyX && MaxDisplacement(cols - 1, maxShift) >= 0 ==> DrawsIn(yDraws, MaxDisplacement(cols - 1, maxShift))
    ensures var c := Corners(rows, cols, maxShift, axes, xDraws, yDraws);
      && (c.Err? ==> r == Err(c.error))
      && (c.Ok? ==> r == Ok(solve(c.value.src, c.value.dst)))
  {
    var c := Corners(rows, cols, maxShift, axes, xDraws, yDraws);
    if c.Err? then Err(c.error) else Ok(solve(c.value.src, c.value.dst))
  }

  /*** Lens distortion ***/

  /** The constructor arguments of `LensDistortion`, `None` where left at the default. */
  datatype Lens = Lens(focal: Option<(real, real)>, coeffs: Option<seq<real>>, principal: Option<(real, real)>)

  /** The default focal lengths and distortion coefficients. */
  const DefaultFocal: (real, real) := (500.0, 500.0)
  const DefaultCoeffs: seq<real> := [0.0, 0.0, 0.0, 0.0]

  function Focal(lens: Lens): (real, real) { if lens.focal.None? then DefaultFocal else lens.focal.value }
  function Coeffs(lens: Lens): seq<real> { if lens.coeffs.None? then DefaultCoeffs else lens.coeffs.value }

  /** The principal point `c`: the given one, or `np.floor(shape / 2)` of the image. */
  function PrincipalPoint(lens: Lens, rows: nat, cols: nat): (real, real)
  {
    if lens.principal.None? then ((rows / 2) as real, (cols / 2) as real) else lens.principal.value
  }

  /** `camera_matrix` as rows. */
  function CameraMatrix(lens: Lens, rows: nat, cols: nat): (m: seq<seq<real>>)
    ensures |m| == 3 && forall i :: 0 <= i < 3 ==> |m[i]| == 3
  {
    var f, c := Focal(lens), PrincipalPoint(lens, rows, cols);
    [[f.0, 0.0, c.0], [0.0, f.1, c.1], [0.0, 0.0, 1.0]]
  }

  /** The camera matrix is upper triangular with the focal lengths on the diagonal, the
      principal point in the last column and a unit corner; with every argument left at
      its default the focal lengths are 500 and the principal point is the image centre,
      rounded down. */
  lemma CameraMatrixSpec(lens: Lens, rows: nat, cols: nat)
    ensures var m, f, c := CameraMatrix(lens, rows, cols), Focal(lens), PrincipalPoint(lens, rows, cols);
      && m[0][0] == f.0 && m[1][1] == f.1 && m[2][2] == 1.0
      && m[0][2] == c.0 && m[1][2] == c.1
      && m[1][0] == 0.0 && m[2][0] == 0.0 && m[2][1] == 0.0 && m[0][1] == 0.0
    ensures lens == Lens(None, None, None) ==>
      var m := CameraMatrix(lens, rows, cols);
      && m[0][0] == 500.0 && m[1][1] == 500.0
      && 2.0 * m[0][2] <= rows as real < 2.0 * m[0][2] + 2.0
      && 2.0 * m[1][2] <= cols as real < 2.0 * m[1][2] + 2.0
      && Coeffs(lens) == [0.0, 0.0, 0.0, 0.0]
  {
  }

  /** `LensDistortion.apply(img)`: `cv2.undistort` with the camera matrix and the
      coefficients, passed in as `undistort`. */
  function LensApply<I>(lens: Lens, img: I, rows: nat, cols: nat, undistort: (I, seq<seq<real>>, seq<real>) -> I): I
  {
    undistort(img, CameraMatrix(lens, rows, cols), Coeffs(lens))
  }
}
