/** digit_recognition/digit_dataset.py: a fixed set of 9 * 915 rendered digit images,
    labelled by position, and a batch generator that distorts each sample with a random
    perspective warp built from corner draws. The least-squares solve and PIL's warp are
    function parameters. */
module Recognition {
  import opened Base
  import opened Images
  import DatasetCore
  import opened Generators

  /** Images per digit class, and the side of each image. */
  const DigitCount: nat := 915
  const DigitResolution: nat := 128

  /** The number of images the dataset loads. */
  const DatasetSize: nat := 9 * DigitCount

  /*** Labels ***/

  /** `get_label` as written: the guard `0 > item >= 9 * 915` can never hold, so the
      label is `floor(item / 915)` for every item, also outside the dataset. */
  function GetLabelAsWritten(item: int): int
  {
    if GuardFires(item) then -1 else item / DigitCount
  }

  /** The chained comparison `0 > item >= 9 * 915` of the guard. */
  predicate GuardFires(item: int)
  {
    0 > item && item >= DatasetSize
  }

  /** The guard never fires: positions past the dataset get label 9 and negative
      positions label -1 instead of an IndexError. */
  lemma GetLabelAsWrittenNeverRaises()
    ensures forall item: int :: !GuardFires(item)
    ensures GetLabelAsWritten(DatasetSize) == 9
    ensures GetLabelAsWritten(-1) == -1
  {
  }

  /** `get_label` as intended: IndexError outside the dataset, otherwise the digit class. */
  function GetLabel(item: int): (r: Result<int>)
    ensures r.Ok? <==> 0 <= item < DatasetSize
    ensures r.Err? ==> r.error == IndexError
    ensures r.Ok? ==> 0 <= r.value < 9
    ensures r.Ok? ==> r.value * DigitCount <= item < r.value * DigitCount + DigitCount
  {
    if item < 0 || item >= DatasetSize then Err(IndexError)
    else
      var d := item / DigitCount;
      DatasetCore.DivRun(item, DigitCount, d);
      assert d < 9 by { if d >= 9 { DatasetCore.MulAtLeast(d - 8, DigitCount); } }
      Ok(d)
  }

  /** Inside the dataset the intended label is the one the code computes. */
  lemma GetLabelAgreesInside(item: int)
    requires 0 <= item < DatasetSize
    ensures GetLabel(item) == Ok(GetLabelAsWritten(item))
  {
  }

  /*** Perspective coefficients ***/

  type Point = (int, int)

  /** The corners TL, TR, BR, BL of the box `[0, x] x [0, y]`. */
  function Box(x: int, y: int): (r: seq<Point>)
    ensures |r| == 4
  {
    [(0, 0), (x, 0), (x, y), (0, y)]
  }

  /** `np.array(pb).reshape(8)`: the box corners, flattened. */
  function Flattened(ps: seq<Point>): (r: seq<int>)
    ensures |r| == 2 * |ps|
    ensures forall k :: 0 <= k < |ps| ==> r[2 * k] == ps[k].0 && r[2 * k + 1] == ps[k].1
  {
    if ps == [] then [] else [ps[0].0, ps[0].1] + Flattened(ps[1..])
  }

  /** The two rows one correspondence `p -> q` contributes. */
  function RowU(p: Point, q: Point): seq<int>
  {
    [p.0, p.1, 1, 0, 0, 0, -q.0 * p.0, -q.0 * p.1]
  }

  function RowV(p: Point, q: Point): seq<int>
  {
    [0, 0, 0, p.0, p.1, 1, -q.1 * p.0, -q.1 * p.1]
  }

  /** The rows `find_coeffs` collects over `zip(pa, pb)`, which stops at the shorter list. */
  function DltMatrix(pa: seq<Point>, pb: seq<Point>): (m: seq<seq<int>>)
    ensures |m| == 2 * Min(|pa|, |pb|)
  {
    seq(2 * Min(|pa|, |pb|), k requires 0 <= k < 2 * Min(|pa|, |pb|) =>
      if k % 2 == 0 then RowU(pa[k / 2], pb[k / 2]) else RowV(pa[k / 2], pb[k / 2]))
  }

  /** The loop of `find_coeffs` appending two rows per correspondence. */
  method CollectRows(pa: seq<Point>, pb: seq<Point>) returns (m: seq<seq<int>>)
    ensures m == DltMatrix(pa, pb)
  {
    m := [];
    var i := 0;
    while i < Min(|pa|, |pb|)
      invariant 0 <= i <= Min(|pa|, |pb|)
      invariant |m| == 2 * i
      invariant forall k :: 0 <= k < 2 * i ==>
        m[k] == (if k % 2 == 0 then RowU(pa[k / 2], pb[k / 2]) else RowV(pa[k / 2], pb[k / 2]))
    {
      m := m + [RowU(pa[i], pb[i]), RowV(pa[i], pb[i])];
      i := i + 1;
    }
  }

  /** A row applied to the eight coefficients `a..h`. */
  function Dot8(row: seq<int>, h: seq<real>): real
    requires |row| == 8 && |h| == 8
  {
    row[0] as real * h[0] + row[1] as real * h[1] + row[2] as real * h[2] + row[3] as real * h[3]
    + row[4] as real * h[4] + row[5] as real * h[5] + row[6] as real * h[6] + row[7] as real * h[7]
  }

  /** The homography with coefficients `a..h` sends `p` to `q`:
      `q = ((a px + b py + c) / (g px + h py + 1), (d px + e py + f) / (g px + h py + 1))`,
      multiplied out. */
  predicate Sends(h: seq<real>, p: Point, q: Point)
    requires |h| == 8
  {
    var x, y := p.0 as real, p.1 as real;
    var w := h[6] * x + h[7] * y + 1.0;
    && q.0 as real * w == h[0] * x + h[1] * y + h[2]
    && q.1 as real * w == h[3] * x + h[4] * y + h[5]
  }

  /** The two rows of a correspondence are its homography equations, linearised: the
      coefficients satisfy both rows (row times coefficients equals the target
      coordinate) exactly when the homography sends `p` to `q`. */
  lemma RowsAreHomographyEquations(p: Point, q: Point, h: seq<real>)
    requires |h| == 8
    ensures |RowU(p, q)| == 8 && |RowV(p, q)| == 8
    ensures Sends(h, p, q) <==> Dot8(RowU(p, q), h) == q.0 as real && Dot8(RowV(p, q), h) == q.1 as real
  {
    var x, y, u, v := p.0 as real, p.1 as real, q.0 as real, q.1 as real;
    assert (-q.0 * p.0) as real == -(u * x);
    assert (-q.0 * p.1) as real == -(u * y);
    assert (-q.1 * p.0) as real == -(v * x);
    assert (-q.1 * p.1) as real == -(v * y);
    assert Dot8(RowU(p, q), h) == h[0] * x + h[1] * y + h[2] - u * (h[6] * x + h[7] * y);
    assert Dot8(RowV(p, q), h) == h[3] * x + h[4] * y + h[5] - v * (h[6] * x + h[7] * y);
  }

  /** `find_coeffs(pa, x_dim, y_dim)`: the perspective coefficients mapping the corners
      `pa` back onto the box; `leastSquares` is `inv(A.T * A) * A.T` applied to `B`. */
  method FindCoeffs(pa: seq<Point>, x: int, y: int, leastSquares: (seq<seq<int>>, seq<int>) -> seq<real>)
    returns (coeffs: seq<real>)
    ensures coeffs == leastSquares(DltMatrix(pa, Box(x, y)), Flattened(Box(x, y)))
  {
    var pb := Box(x, y);
    var matrix := CollectRows(pa, pb);
    coeffs := leastSquares(matrix, Flattened(pb));
  }

  /** With four corners `find_coeffs` emits eight rows, two per corner in order, and the
      right-hand side lists the box corners in the same order. */
  lemma FindCoeffsLayout(pa: seq<Point>, x: int, y: int)
    requires |pa| == 4
    ensures var m, b := DltMatrix(pa, Box(x, y)), Flattened(Box(x, y));
      && |m| == 8 && |b| == 8
      && forall k :: 0 <= k < 4 ==>
           && m[2 * k] == RowU(pa[k], Box(x, y)[k]) && m[2 * k + 1] == RowV(pa[k], Box(x, y)[k])
           && b[2 * k] == Box(x, y)[k].0 && b[2 * k + 1] == Box(x, y)[k].1
  {
    var m := DltMatrix(pa, Box(x, y));
    forall k | 0 <= k < 4
      ensures m[2 * k] == RowU(pa[k], Box(x, y)[k]) && m[2 * k + 1] == RowV(pa[k], Box(x, y)[k])
    {
      assert (2 * k) / 2 == k && (2 * k) % 2 == 0;
      assert (2 * k + 1) / 2 == k && (2 * k + 1) % 2 == 1;
    }
  }

  /*** The distorted corners ***/

  /** Eight draws of `np.random.randint(0, 33, 8)`. */
  predicate CornerDraws(pos: seq<int>)
  {
    |pos| == 8 && forall k :: 0 <= k < 8 ==> 0 <= pos[k] < 33
  }

  /** The corner list of `__data_generation`: each corner of the 128 box pulled inwards. */
  function CornerList(pos: seq<int>): (r: seq<Point>)
    requires |pos| == 8
    ensures |r| == 4
  {
    [(pos[0], pos[1]), (128 - pos[2], pos[3]), (128 - pos[4], 128 - pos[5]), (pos[6], 128 - pos[7])]
  }

  /** Every distorted corner stays inside the 128 box, within 32 of the box corner it
      replaces on each axis. */
  lemma CornerListNearBox(pos: seq<int>)
    requires CornerDraws(pos)
    ensures var c, b := CornerList(pos), Box(DigitResolution, DigitResolution);
      forall k :: 0 <= k < 4 ==>
        && 0 <= c[k].0 <= 128 && 0 <= c[k].1 <= 128
        && -32 <= c[k].0 - b[k].0 <= 32 && -32 <= c[k].1 - b[k].1 <= 32
  {
  }

  /*** The generator ***/

  /** `arr.shape` of a two-dimensional image. */
  function Dims(img: Image): (int, int)
    requires img.Gray?
  {
    (|img.gray|, if img.gray == [] then 0 else |img.gray[0]|)
  }

  /** The loaded digits: `9 * 915` grayscale images (they are stored into a uint8 array
      of two-dimensional images). */
  predicate ValidDigits(digits: seq<Image>)
  {
    |digits| == DatasetSize && forall i :: 0 <= i < |digits| ==> digits[i].Gray?
  }

  /** `perspective_transform`: PIL's perspective warp with the coefficients found for
      the corner list, passed in as `warp`. */
  function Warped(img: Image, corners: seq<Point>, leastSquares: (seq<seq<int>>, seq<int>) -> seq<real>,
                  warp: (Image, int, int, seq<real>) -> Image): Image
    requires img.Gray?
  {
    var (x, y) := Dims(img);
    warp(img, x, y, leastSquares(DltMatrix(corners, Box(x, y)), Flattened(Box(x, y))))
  }

  /** `perspective_transform` as the loader runs it: the coefficients come from the
      row-building loop of `FindCoeffs`, and the result is the one `Warped` specifies. */
  method PerspectiveTransform(img: Image, corners: seq<Point>, leastSquares: (seq<seq<int>>, seq<int>) -> seq<real>,
                              warp: (Image, int, int, seq<real>) -> Image) returns (r: Image)
    requires img.Gray?
    ensures r == Warped(img, corners, leastSquares, warp)
  {
    var (x, y) := Dims(img);
    var coeffs := FindCoeffs(corners, x, y, leastSquares);
    r := warp(img, x, y, coeffs);
  }

  /** A cursor window is never longer than the batch size, also at a negative batch number. */
  lemma WindowLength(indices: seq<int>, index: int, size: nat)
    ensures |Window(indices, index, size)| <= size
  {
    var a, b := SliceBound(index * size, |indices|), SliceBound((index + 1) * size, |indices|);
    assert (index + 1) * size == index * size + size;
  }

  /** The image at row `i` of a batch over `window`: digit `window[i]` warped towards the corners drawn for that row. */
  function Sample(digits: seq<Image>, window: seq<int>, draws: seq<seq<int>>, i: int,
                  leastSquares: (seq<seq<int>>, seq<int>) -> seq<real>,
                  warp: (Image, int, int, seq<real>) -> Image): Image
    requires ValidDigits(digits) && AllBelow(window, |digits|)
    requires 0 <= i < |window| && i < |draws| && CornerDraws(draws[i])
  {
    Warped(digits[window[i]], CornerList(draws[i]), leastSquares, warp)
  }

  class DigitDataGenerator {
    const digits: seq<Image>
    const batchSize: nat
    const shuffle: bool
    var indices: seq<int>

    predicate Valid()
      reads this
    {
      ValidDigits(digits) && IsPermutation(indices, |digits|)
    }

    /** `np.arange(n)`, shuffled into `perm` when `shuffle`. */
    function Order(perm: seq<int>): seq<int>
    {
      if shuffle then perm else Range(|digits|)
    }

    constructor (digits: seq<Image>, batchSize: nat, shuffle: bool, perm: seq<int>)
      requires ValidDigits(digits) && (shuffle ==> IsPermutation(perm, |digits|))
      ensures this.digits == digits && this.batchSize == batchSize && this.shuffle == shuffle
      ensures indices == Order(perm) && Valid()
    {
      this.digits, this.batchSize, this.shuffle := digits, batchSize, shuffle;
      indices := if shuffle then perm else Range(|digits|);
    }

    /** `__len__`: the number of full batches, ZeroDivisionError for a zero batch size. */
    function Len(): Result<nat>
      reads this
    {
      BatchCount(|digits|, batchSize)
    }

    /** Every batch below `__len__` is full, and the samples left over after the last of
        them are fewer than one batch, so a partial batch is never served. */
    lemma LenServesFullBatches(index: nat)
      requires Valid() && batchSize > 0
      ensures Len().Ok?
      ensures index < Len().value ==> |Window(indices, index, batchSize)| == batchSize
      ensures |digits| - Len().value * batchSize < batchSize
    {
      BatchCountSpec(|digits|, batchSize);
      if index < Len().value {
        FullWindows(indices, batchSize, index);
      }
    }

    /** `on_epoch_end`: a fresh cursor, shuffled when `shuffle`. */
    method OnEpochEnd(perm: seq<int>)
      requires ValidDigits(digits) && (shuffle ==> IsPermutation(perm, |digits|))
      modifies this
      ensures indices == Order(perm) && Valid()
    {
      indices := Order(perm);
    }

    /** `__data_generation(window)`: fills the first `|window|` rows of the freshly allocated
        `batch_size`-row buffers, row `i` with the warped digit `window[i]` and its
        label; the rows past the window keep the buffers' uninitialised contents
        `blankX` / `blankY`. */
    method DataGeneration(window: seq<int>, draws: seq<seq<int>>, blankX: Image, blankY: int,
                          leastSquares: (seq<seq<int>>, seq<int>) -> seq<real>,
                          warp: (Image, int, int, seq<real>) -> Image)
      returns (xs: seq<Image>, ys: seq<int>)
      requires ValidDigits(digits) && AllBelow(window, |digits|) && |window| <= batchSize
      requires |draws| >= |window| && forall i :: 0 <= i < |window| ==> CornerDraws(draws[i])
      ensures |xs| == batchSize && |ys| == batchSize
      ensures forall i :: 0 <= i < |window| ==>
        xs[i] == Sample(digits, window, draws, i, leastSquares, warp) && Ok(ys[i]) == GetLabel(window[i])
      ensures forall i :: |window| <= i < batchSize ==> xs[i] == blankX && ys[i] == blankY
      ensures forall i :: 0 <= i < |window| ==> 0 <= ys[i] < 9
    {
      ghost var samples := seq(|window|, k requires 0 <= k < |window| =>
        Sample(digits, window, draws, k, leastSquares, warp));
      var x := new Image[batchSize](_ => blankX);
      var y := new int[batchSize](_ => blankY);
      for i := 0 to |window|
        invariant x[..i] == samples[..i]
        invariant forall k :: 0 <= k < i ==> Ok(y[k]) == GetLabel(window[k])
        invariant forall k :: i <= k < batchSize ==> x[k] == blankX && y[k] == blankY
      {
        var digit := digits[window[i]];
        var corners := CornerList(draws[i]);
        digit := PerspectiveTransform(digit, corners, leastSquares, warp);
        x[i] := digit;
        y[i] := GetLabel(window[i]).value;
        assert x[..i + 1] == x[..i] + [digit];
      }
      assert forall k :: 0 <= k < |window| ==> x[k] == x[..|window|][k];
      xs, ys := x[..], y[..];
    }

    /** `__getitem__(index)`: the batch over the cursor window, with nine-class one-hot
        labels of every buffer row. */
    method GetItem(index: int, draws: seq<seq<int>>, blankX: Image, blankY: int,
                   leastSquares: (seq<seq<int>>, seq<int>) -> seq<real>,
                   warp: (Image, int, int, seq<real>) -> Image)
      returns (r: Result<(seq<Image>, seq<seq<int>>)>)
      requires Valid()
      requires var w := Window(indices, index, batchSize);
        |draws| >= |w| && forall i :: 0 <= i < |w| ==> CornerDraws(draws[i])
      ensures var w := Window(indices, index, batchSize);
        && AllBelow(w, |digits|)
        && (r.Ok? <==> |w| == batchSize || -9 <= blankY < 9)
        && (r.Ok? ==> |r.value.0| == batchSize && |r.value.1| == batchSize)
        && (r.Ok? ==> forall i :: 0 <= i < |w| ==>
              r.value.0[i] == Sample(digits, w, draws, i, leastSquares, warp)
              && Ok(r.value.1[i]) == OneHot(GetLabel(w[i]).value, 9))
    {
      var w := Window(indices, index, batchSize);
      SliceAllBelow(indices, |digits|, index * batchSize, (index + 1) * batchSize);
      WindowLength(indices, index, batchSize);
      var xs, ys := DataGeneration(w, draws, blankX, blankY, leastSquares, warp);
      var hot := OneHotAll(ys, 9);
      assert hot.Ok? <==> |w| == batchSize || -9 <= blankY < 9 by {
        if |w| < batchSize {
          assert ys[|w|] == blankY;
        }
      }
      if hot.Err? {
        r := Err(hot.error);
      } else {
        r := Ok((xs, hot.value));
      }
    }
  }
}
