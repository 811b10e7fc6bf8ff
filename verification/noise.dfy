/** The integer parts of two augmentations in simulation/transforms/noise.py:
    `SaltAndPepperNoise`, which copies an image and sets drawn pixels to white and then
    black, and `EmbedInRectangle`, which centres an image on a larger zero canvas and
    crops a window of the original size back out. */
module Noise {
  import opened Base
  import opened Images

  /*** Real arithmetic ***/

  /** `int(x)`: truncation toward zero. */
  function Trunc(x: real): int
  {
    if x >= 0.0 then x.Floor else -((-x).Floor)
  }

  /** `np.ceil(x)` as an integer. */
  function Ceil(x: real): (r: int)
    ensures r as real - 1.0 < x <= r as real
  {
    -((-x).Floor)
  }

  function Abs(x: real): real { if x < 0.0 then -x else x }

  /*** Rows of pixels ***/

  /** The width of a stack of rows (`img.shape[1]`), zero for no rows. */
  function Width<T>(px: seq<seq<T>>): nat
  {
    if px == [] then 0 else |px[0]|
  }

  /** Every row has the same width, as in a numpy array. */
  predicate Rect<T>(px: seq<seq<T>>)
  {
    forall i :: 0 <= i < |px| ==> |px[i]| == Width(px)
  }

  /*** Salt and pepper ***/

  /** The two types `amount` may have: an int selects the absolute formula once it is at
      least 1. */
  datatype Amount = FloatAmount(f: real) | IntAmount(n: int)

  /** `int(np.ceil(amount * img.size * share))` for a float or an int below 1, and
      `int(np.ceil(amount * share))` for an int of at least 1; `share` is `ratio` for salt
      and `1 - ratio` for pepper. */
  function PixelCount(amount: Amount, size: nat, share: real): int
  {
    match amount
    case FloatAmount(f) => Ceil(f * size as real * share)
    case IntAmount(n) => if n < 1 then Ceil(n as real * size as real * share) else Ceil(n as real * share)
  }

  /** A fractional amount and share in [0, 1] draw at most one pixel per element. */
  lemma PixelCountBounded(f: real, size: nat, share: real)
    requires 0.0 <= f <= 1.0 && 0.0 <= share <= 1.0
    ensures 0 <= PixelCount(FloatAmount(f), size, share) <= size
  {
    var fs := f * size as real;
    assert 0.0 <= fs <= size as real by {
      assert fs <= 1.0 * size as real;
    }
    assert 0.0 <= fs * share <= fs * 1.0;
    var c := PixelCount(FloatAmount(f), size, share);
    assert c as real - 1.0 < fs * share <= c as real;
  }

  /** A zero amount draws no pixel. */
  lemma PixelCountZero(size: nat, share: real)
    ensures PixelCount(FloatAmount(0.0), size, share) == 0
    ensures PixelCount(IntAmount(0), size, share) == 0
  {
  }

  /** `np.random.choice(np.arange(n), count)`: a negative count, or a positive count from
      an empty range, raises ValueError. */
  function ChoiceCheck(n: nat, count: int): (r: Option<Error>)
    ensures r.None? <==> count >= 0 && (n > 0 || count == 0)
  {
    if count < 0 || (n == 0 && count > 0) then Some(ValueError) else None
  }

  /** Drawn positions: `count` row/column pairs inside an `h` by `w` image. */
  predicate DrawsFit(draws: seq<(int, int)>, count: int, h: nat, w: nat)
  {
    && |draws| == count
    && forall k :: 0 <= k < |draws| ==> 0 <= draws[k].0 < h && 0 <= draws[k].1 < w
  }

  /** The rows with every drawn cell set to `v`; `img[indices] = v`. */
  function Painted<T>(px: seq<seq<T>>, draws: seq<(int, int)>, v: T): (r: seq<seq<T>>)
    ensures |r| == |px| && forall i :: 0 <= i < |px| ==> |r[i]| == |px[i]|
  {
    seq(|px|, i requires 0 <= i < |px| =>
      seq(|px[i]|, j requires 0 <= j < |px[i]| => if (i, j) in draws then v else px[i][j]))
  }

  /** Painting with no draws changes nothing. */
  lemma PaintedNothing<T>(px: seq<seq<T>>, v: T)
    ensures Painted(px, [], v) == px
  {
    var r := Painted(px, [], v);
    forall i | 0 <= i < |px| ensures r[i] == px[i] {
      assert forall j :: 0 <= j < |px[i]| ==> r[i][j] == px[i][j];
    }
  }

  /** A cell painted twice ends with the second value; every cell outside both draws
      keeps its value. */
  lemma PaintedTwice<T>(px: seq<seq<T>>, first: seq<(int, int)>, v: T, second: seq<(int, int)>, u: T, i: nat, j: nat)
    requires i < |px| && j < |px[i]|
    ensures var r := Painted(Painted(px, first, v), second, u);
      && ((i, j) in second ==> r[i][j] == u)
      && ((i, j) !in second && (i, j) in first ==> r[i][j] == v)
      && ((i, j) !in second && (i, j) !in first ==> r[i][j] == px[i][j])
  {
  }

  /** A fresh `h` by `w` array holding the rows. */
  method ToArray<T>(px: seq<seq<T>>) returns (a: array2<T>)
    requires Rect(px)
    ensures fresh(a) && a.Length0 == |px| && a.Length1 == Width(px)
    ensures forall i, j :: 0 <= i < a.Length0 && 0 <= j < a.Length1 ==> a[i, j] == px[i][j]
  {
    a := new T[|px|, Width(px)]((i, j) requires 0 <= i < |px| && 0 <= j < Width(px) => px[i][j]);
  }

  /** The rows of an array. */
  function Rows<T>(a: array2<T>): (r: seq<seq<T>>)
    reads a
    ensures |r| == a.Length0 && Rect(r)
    ensures forall i, j :: 0 <= i < a.Length0 && 0 <= j < a.Length1 ==> |r[i]| == a.Length1 && r[i][j] == a[i, j]
  {
    seq(a.Length0, i requires 0 <= i < a.Length0 reads a =>
      seq(a.Length1, j requires 0 <= j < a.Length1 reads a => a[i, j]))
  }

  /** `img[rows, cols] = v`, one drawn cell at a time. */
  method Paint<T>(a: array2<T>, draws: seq<(int, int)>, v: T)
    requires DrawsFit(draws, |draws|, a.Length0, a.Length1)
    modifies a
    ensures forall i, j :: 0 <= i < a.Length0 && 0 <= j < a.Length1 ==>
      a[i, j] == if (i, j) in draws then v else old(a[i, j])
  {
    var k := 0;
    while k < |draws|
      invariant 0 <= k <= |draws|
      invariant forall i, j :: 0 <= i < a.Length0 && 0 <= j < a.Length1 ==>
        a[i, j] == if (i, j) in draws[..k] then v else old(a[i, j])
    {
      a[draws[k].0, draws[k].1] := v;
      assert draws[..k + 1] == draws[..k] + [draws[k]];
      k := k + 1;
    }
    assert draws[..k] == draws;
  }

  /** Salt and pepper on rows of any pixel type, once the counts are known: a copy is
      painted with `white` at the salt draws and, unless `ratio` is 1.0, with `black`
      at the pepper draws. */
  method SaltAndPepperRows<T>(px: seq<seq<T>>, ratio: real, salt: seq<(int, int)>, pepper: seq<(int, int)>,
                              white: T, black: T) returns (r: seq<seq<T>>)
    requires Rect(px)
    requires DrawsFit(salt, |salt|, |px|, Width(px)) && DrawsFit(pepper, |pepper|, |px|, Width(px))
    ensures r == if ratio == 1.0 then Painted(px, salt, white) else Painted(Painted(px, salt, white), pepper, black)
  {
    var a := ToArray(px);
    Paint(a, salt, white);
    if ratio != 1.0 {
      Paint(a, pepper, black);
    }
    r := Rows(a);
    ghost var expected := if ratio == 1.0 then Painted(px, salt, white) else Painted(Painted(px, salt, white), pepper, black);
    forall i | 0 <= i < |px| ensures r[i] == expected[i] {
      assert |px[i]| == a.Length1;
      assert forall j :: 0 <= j < a.Length1 ==> r[i][j] == expected[i][j];
    }
  }

  /** `SaltAndPepperNoise(amount, ratio).apply(img)`: the salt count is checked and
      drawn before the pepper count; with `ratio == 1.0` the pepper step is skipped
      entirely. The pixel count `size` includes the channels. */
  method SaltAndPepper(img: Image, amount: Amount, ratio: real, salt: seq<(int, int)>, pepper: seq<(int, int)>)
    returns (r: Result<Image>)
    requires img.Gray? ==> Rect(img.gray)
    requires img.Color? ==> Rect(img.color)
    requires var (h, w) := ImageShape(img); var size := ImageSize(img);
      var saltCount, pepperCount := PixelCount(amount, size, ratio), PixelCount(amount, size, 1.0 - ratio);
      && (ChoiceCheck(h, saltCount).None? && ChoiceCheck(w, saltCount).None? ==> DrawsFit(salt, saltCount, h, w))
      && (ratio != 1.0 && ChoiceCheck(h, pepperCount).None? && ChoiceCheck(w, pepperCount).None? ==>
            DrawsFit(pepper, pepperCount, h, w))
    ensures var (h, w) := ImageShape(img); var size := ImageSize(img);
      var saltCount, pepperCount := PixelCount(amount, size, ratio), PixelCount(amount, size, 1.0 - ratio);
      && (r.Err? <==> ChoiceCheck(h, saltCount).Some? || ChoiceCheck(w, saltCount).Some?
                      || (ratio != 1.0 && (ChoiceCheck(h, pepperCount).Some? || ChoiceCheck(w, pepperCount).Some?)))
      && (r.Err? ==> r.error == ValueError)
      && (r.Ok? && img.Gray? ==> r.value == Gray(SaltAndPepperResult(img.gray, ratio, salt, pepper, 255, 0)))
      && (r.Ok? && img.Color? ==>
            r.value == Color(SaltAndPepperResult(img.color, ratio, salt, pepper, Bgra(255, 255, 255, 255), Bgra(0, 0, 0, 0))))
  {
    var (h, w) := ImageShape(img);
    var size := ImageSize(img);
    var saltCount := PixelCount(amount, size, ratio);
    if ChoiceCheck(h, saltCount).Some? || ChoiceCheck(w, saltCount).Some? {
      return Err(ValueError);
    }
    var pepperCount := PixelCount(amount, size, 1.0 - ratio);
    if ratio != 1.0 && (ChoiceCheck(h, pepperCount).Some? || ChoiceCheck(w, pepperCount).Some?) {
      return Err(ValueError);
    }
    var pepperDraws := if ratio == 1.0 then [] else pepper;
    if img.Gray? {
      var px := SaltAndPepperRows(img.gray, ratio, salt, pepperDraws, 255, 0);
      r := Ok(Gray(px));
    } else {
      var px := SaltAndPepperRows(img.color, ratio, salt, pepperDraws, Bgra(255, 255, 255, 255), Bgra(0, 0, 0, 0));
      r := Ok(Color(px));
    }
  }

  /** The rows `SaltAndPepper` returns. */
  function SaltAndPepperResult<T>(px: seq<seq<T>>, ratio: real, salt: seq<(int, int)>, pepper: seq<(int, int)>,
                                  white: T, black: T): seq<seq<T>>
  {
    if ratio == 1.0 then Painted(px, salt, white) else Painted(Painted(px, salt, white), pepper, black)
  }

  /** `img.shape[:2]`. */
  function ImageShape(img: Image): (nat, nat)
  {
    if img.Gray? then (|img.gray|, Width(img.gray)) else (|img.color|, Width(img.color))
  }

  /** `img.size`: every channel of every pixel. */
  function ImageSize(img: Image): nat
  {
    var (h, w) := ImageShape(img);
    if img.Gray? then h * w else h * w * 4
  }

  /** The output keeps the input's shape, every pepper cell is black, every salt cell
      not also peppered is white, and every other cell is unchanged. */
  lemma SaltAndPepperCells<T>(px: seq<seq<T>>, ratio: real, salt: seq<(int, int)>, pepper: seq<(int, int)>,
                              white: T, black: T, i: nat, j: nat)
    requires ratio != 1.0 && i < |px| && j < |px[i]|
    ensures var r := SaltAndPepperResult(px, ratio, salt, pepper, white, black);
      && |r| == |px| && |r[i]| == |px[i]|
      && ((i, j) in pepper ==> r[i][j] == black)
      && ((i, j) !in pepper && (i, j) in salt ==> r[i][j] == white)
      && ((i, j) !in pepper && (i, j) !in salt ==> r[i][j] == px[i][j])
  {
    PaintedTwice(px, salt, white, pepper, black, i, j);
  }

  /** With a zero amount nothing is drawn and the image comes back unchanged. */
  lemma SaltAndPepperZeroAmount<T>(px: seq<seq<T>>, ratio: real, white: T, black: T)
    ensures SaltAndPepperResult(px, ratio, [], [], white, black) == px
  {
    PaintedNothing(px, white);
    PaintedNothing(Painted(px, [], white), black);
  }

  /*** Embedding in a rectangle ***/

  /** A canvas side `int(d + inset * d)`. */
  function CanvasSide(d: nat, inset: real): int
  {
    Trunc(d as real + inset * d as real)
  }

  /** The offset `int(abs(inset / 2 * d))`. */
  function EmbedOffset(d: nat, inset: real): (r: nat)
  {
    Trunc(Abs(inset / 2.0 * d as real))
  }

  /** With a positive inset the image fits on the canvas at its offset. */
  lemma EmbedFits(d: nat, inset: real)
    requires inset > 0.0
    ensures 0 <= d <= CanvasSide(d, inset)
    ensures EmbedOffset(d, inset) + d <= CanvasSide(d, inset)
    ensures CanvasSide(d, inset) - d == Trunc(inset * d as real)
  {
    var x := inset * d as real;
    assert x >= 0.0;
    assert Abs(inset / 2.0 * d as real) == x / 2.0;
    assert (d as real + x).Floor == d + x.Floor;
    assert (x / 2.0).Floor <= x.Floor;
  }

  /** The result of `expand_image`: the canvas and the two offsets. */
  datatype Expanded<T> = Expanded(grid: seq<seq<T>>, ox: nat, oy: nat)

  /** The canvas cell `(i, j)`: the image where it was placed, `zero` elsewhere. */
  function CanvasCell<T>(px: seq<seq<T>>, ox: nat, oy: nat, zero: T, i: nat, j: nat): T
    requires Rect(px)
  {
    if ox <= i < ox + |px| && oy <= j < oy + Width(px) then px[i - ox][j - oy] else zero
  }

  /** `expand_image(img)`: with a positive inset a zero canvas of `CanvasSide` per axis
      with the image copied at the offsets; otherwise a copy of the image, the offsets
      still computed from the inset. */
  function ExpandImage<T>(px: seq<seq<T>>, inset: real, zero: T): (r: Expanded<T>)
    requires Rect(px)
    ensures r.ox == EmbedOffset(|px|, inset) && r.oy == EmbedOffset(Width(px), inset)
    ensures inset <= 0.0 ==> r.grid == px
    ensures inset > 0.0 ==>
      && |r.grid| == CanvasSide(|px|, inset) && Rect(r.grid) && Width(r.grid) == CanvasSide(Width(px), inset)
      && r.ox + |px| <= |r.grid| && r.oy + Width(px) <= Width(r.grid)
    ensures inset > 0.0 ==> forall i, j :: 0 <= i < |r.grid| && 0 <= j < |r.grid[i]| ==>
      r.grid[i][j] == CanvasCell(px, r.ox, r.oy, zero, i, j)
  {
    var ox, oy := EmbedOffset(|px|, inset), EmbedOffset(Width(px), inset);
    if inset <= 0.0 then Expanded(px, ox, oy)
    else
      EmbedFits(|px|, inset);
      EmbedFits(Width(px), inset);
      var hh, ww := CanvasSide(|px|, inset), CanvasSide(Width(px), inset);
      var grid := seq(hh, i requires 0 <= i < hh => seq(ww, j requires 0 <= j < ww => CanvasCell(px, ox, oy, zero, i, j)));
      assert hh > 0 ==> Width(grid) == ww;
      Expanded(grid, ox, oy)
  }

  /** `grid[x:x + h, y:y + w]` for a window inside the grid. */
  function Crop<T>(grid: seq<seq<T>>, x: nat, y: nat, h: nat, w: nat): (r: seq<seq<T>>)
    requires Rect(grid) && x + h <= |grid| && y + w <= Width(grid)
    ensures |r| == h && Rect(r) && (h > 0 ==> Width(r) == w)
    ensures forall i, j :: 0 <= i < h && 0 <= j < w ==> r[i][j] == grid[x + i][y + j]
  {
    seq(h, i requires 0 <= i < h => grid[x + i][y .. y + w])
  }

  /** Cropping the canvas at the embedding offsets gives the image back. */
  lemma CropExpandRoundTrip<T>(px: seq<seq<T>>, inset: real, zero: T)
    requires Rect(px) && inset > 0.0
    ensures var e := ExpandImage(px, inset, zero);
      Crop(e.grid, e.ox, e.oy, |px|, Width(px)) == px
  {
    var e := ExpandImage(px, inset, zero);
    var c := Crop(e.grid, e.ox, e.oy, |px|, Width(px));
    forall i | 0 <= i < |px| ensures c[i] == px[i] {
      forall j | 0 <= j < Width(px) ensures c[i][j] == px[i][j] {
        assert e.grid[e.ox + i][e.oy + j] == CanvasCell(px, e.ox, e.oy, zero, e.ox + i, e.oy + j);
      }
    }
  }

  /** The rectangle `cv2.rectangle` draws, as the set of cells it paints with `ink`; it
      depends on the canvas shape and the offsets only. */
  type Outline = (nat, nat, nat, nat) -> set<(int, int)>

  /** The canvas after `cv2.rectangle`: the outline's cells in `ink`, every other cell
      as it was, the shape unchanged. */
  function Outlined<T>(grid: seq<seq<T>>, cells: set<(int, int)>, ink: T): (r: seq<seq<T>>)
    requires Rect(grid)
    ensures |r| == |grid| && Rect(r) && Width(r) == Width(grid)
    ensures forall i, j :: 0 <= i < |grid| && 0 <= j < Width(grid) ==>
      r[i][j] == if (i, j) in cells then ink else grid[i][j]
  {
    seq(|grid|, i requires 0 <= i < |grid| =>
      seq(Width(grid), j requires 0 <= j < Width(grid) => if (i, j) in cells then ink else grid[i][j]))
  }

  /** `random_crop(grid, shape)`: the slack per axis must be positive, since
      `np.random.randint(0, slack)` raises ValueError for an empty range; `dx` and `dy`
      are its draws. */
  function RandomCrop<T>(grid: seq<seq<T>>, h: nat, w: nat, dx: nat, dy: nat): (r: Result<seq<seq<T>>>)
    requires Rect(grid)
    requires |grid| - h > 0 ==> dx < |grid| - h
    requires Width(grid) - w > 0 ==> dy < Width(grid) - w
    ensures r.Ok? <==> |grid| > h && Width(grid) > w
    ensures r.Err? ==> r.error == ValueError
    ensures r.Ok? ==> |r.value| == h && Rect(r.value) && (h > 0 ==> Width(r.value) == w)
    ensures r.Ok? ==> forall i, j :: 0 <= i < h && 0 <= j < w ==> r.value[i][j] == grid[dx + i][dy + j]
  {
    if |grid| - h <= 0 || Width(grid) - w <= 0 then Err(ValueError)
    else Ok(Crop(grid, dx, dy, h, w))
  }

  /** `EmbedInRectangle(inset).apply(img)` on rows: the canvas gets the image written at
      the offsets, then the outline, and with a positive inset a random crop of the
      image's shape is returned. A non-positive inset whose offsets are not zero makes
      the write overflow the copy and raise ValueError. */
  function EmbedInRectangle<T>(px: seq<seq<T>>, inset: real, zero: T, ink: T, outline: Outline, dx: nat, dy: nat)
    : (r: Result<seq<seq<T>>>)
    requires Rect(px)
    requires inset > 0.0 ==> dx < CanvasSide(|px|, inset) - |px| || CanvasSide(|px|, inset) - |px| <= 0
    requires inset > 0.0 ==> dy < CanvasSide(Width(px), inset) - Width(px) || CanvasSide(Width(px), inset) - Width(px) <= 0
    ensures inset > 0.0 ==>
      (r.Ok? <==> Trunc(inset * |px| as real) > 0 && Trunc(inset * Width(px) as real) > 0)
    ensures inset > 0.0 && r.Ok? ==> |r.value| == |px| && Rect(r.value) && (|px| > 0 ==> Width(r.value) == Width(px))
    ensures inset <= 0.0 ==> (r.Ok? <==> EmbedOffset(|px|, inset) == 0 && EmbedOffset(Width(px), inset) == 0)
    ensures inset <= 0.0 && r.Ok? ==> |r.value| == |px| && Rect(r.value)
  {
    var e := ExpandImage(px, inset, zero);
    if inset <= 0.0 && (e.ox != 0 || e.oy != 0) then Err(ValueError)
    else
      var drawn := Outlined(e.grid, outline(|e.grid|, Width(e.grid), e.ox, e.oy), ink);
      if inset <= 0.0 then Ok(drawn)
      else
        EmbedFits(|px|, inset);
        EmbedFits(Width(px), inset);
        RandomCrop(drawn, |px|, Width(px), dx, dy)
  }

  /** With a positive inset, result cell `(i, j)` is canvas cell `(dx + i, dy + j)`: `ink`
      where the outline paints it, otherwise the image where it was placed and `zero`
      around it. */
  lemma {:induction false} EmbedInRectangleCells<T>(px: seq<seq<T>>, inset: real, zero: T, ink: T, outline: Outline,
                                                    dx: nat, dy: nat, i: nat, j: nat)
    requires Rect(px) && inset > 0.0
    requires dx < CanvasSide(|px|, inset) - |px| || CanvasSide(|px|, inset) - |px| <= 0
    requires dy < CanvasSide(Width(px), inset) - Width(px) || CanvasSide(Width(px), inset) - Width(px) <= 0
    requires EmbedInRectangle(px, inset, zero, ink, outline, dx, dy).Ok?
    requires i < |px| && j < Width(px)
    ensures var ox, oy := EmbedOffset(|px|, inset), EmbedOffset(Width(px), inset);
      var cells := outline(CanvasSide(|px|, inset), CanvasSide(Width(px), inset), ox, oy);
      EmbedInRectangle(px, inset, zero, ink, outline, dx, dy).value[i][j]
        == if (dx + i, dy + j) in cells then ink else CanvasCell(px, ox, oy, zero, dx + i, dy + j)
  {
    EmbedFits(|px|, inset);
    EmbedFits(Width(px), inset);
    var e := ExpandImage(px, inset, zero);
    var drawn := Outlined(e.grid, outline(|e.grid|, Width(e.grid), e.ox, e.oy), ink);
    var r := RandomCrop(drawn, |px|, Width(px), dx, dy);
    assert r.value[i][j] == drawn[dx + i][dy + j];
    assert e.grid[dx + i][dy + j] == CanvasCell(px, e.ox, e.oy, zero, dx + i, dy + j);
  }

  /** With a non-positive inset and zero offsets, result cell `(i, j)` is `ink` where the
      outline paints it and the image's own cell elsewhere. */
  lemma {:induction false} EmbedInRectangleCellsUncropped<T>(px: seq<seq<T>>, inset: real, zero: T, ink: T,
                                                             outline: Outline, dx: nat, dy: nat, i: nat, j: nat)
    requires Rect(px) && inset <= 0.0
    requires EmbedInRectangle(px, inset, zero, ink, outline, dx, dy).Ok?
    requires i < |px| && j < Width(px)
    ensures EmbedInRectangle(px, inset, zero, ink, outline, dx, dy).value[i][j]
      == if (i, j) in outline(|px|, Width(px), 0, 0) then ink else px[i][j]
  {
    var e := ExpandImage(px, inset, zero);
    assert e.grid == px && e.ox == 0 && e.oy == 0;
  }

  /** The outline paints none of the `h` by `w` cells at `(x, y)`. */
  predicate MissesWindow(cells: set<(int, int)>, x: nat, y: nat, h: nat, w: nat)
  {
    forall c :: c in cells ==> !(x <= c.0 < x + h && y <= c.1 < y + w)
  }

  /** An outline that misses a window leaves the crop of that window as it was. */
  lemma CropMissesOutline<T>(grid: seq<seq<T>>, cells: set<(int, int)>, ink: T, x: nat, y: nat, h: nat, w: nat)
    requires Rect(grid) && x + h <= |grid| && y + w <= Width(grid)
    requires MissesWindow(cells, x, y, h, w)
    ensures Crop(Outlined(grid, cells, ink), x, y, h, w) == Crop(grid, x, y, h, w)
  {
    var a, b := Crop(Outlined(grid, cells, ink), x, y, h, w), Crop(grid, x, y, h, w);
    forall i, j | 0 <= i < h && 0 <= j < w ensures a[i][j] == b[i][j] {
      OutsideWindow(cells, x, y, h, w, i, j);
    }
    if h > 0 {
      SameCells(a, b);
    }
  }

  /** Two rectangular grids of one shape that agree cell by cell are equal. */
  lemma SameCells<T>(a: seq<seq<T>>, b: seq<seq<T>>)
    requires Rect(a) && Rect(b) && |a| == |b| && Width(a) == Width(b)
    requires forall i, j :: 0 <= i < |a| && 0 <= j < Width(a) ==> a[i][j] == b[i][j]
    ensures a == b
  {
    forall i | 0 <= i < |a| ensures a[i] == b[i] {
      assert |a[i]| == |b[i]| == Width(a);
    }
  }

  /** A cell of the window is not one of the cells. */
  lemma OutsideWindow(cells: set<(int, int)>, x: nat, y: nat, h: nat, w: nat, i: nat, j: nat)
    requires MissesWindow(cells, x, y, h, w) && i < h && j < w
    ensures (x + i, y + j) !in cells
  {
    var c := (x + i, y + j);
    assert c.0 == x + i && c.1 == y + j;
  }

  /** A canvas that is at least one cell wider than the image leaves a slack larger than
      the offset, so the offset is a draw `random_crop` can make. */
  lemma OffsetWithinSlack(d: nat, inset: real)
    requires inset > 0.0 && Trunc(inset * d as real) > 0
    ensures EmbedOffset(d, inset) < CanvasSide(d, inset) - d
  {
    EmbedFits(d, inset);
    var x := inset * d as real;
    assert Abs(inset / 2.0 * d as real) == x / 2.0;
    if x < 2.0 {
      assert (x / 2.0).Floor == 0;
    } else {
      assert (x / 2.0).Floor as real <= x / 2.0 <= x - 1.0 < x.Floor as real;
    }
  }

  /** When the crop is drawn at the embedding offsets and the outline stays clear of the
      image, the transform gives the image back unchanged. `OffsetWithinSlack` shows the
      offsets are legal draws as soon as the canvas is wider than the image on both axes. */
  lemma EmbedAtOffsetsKeepsImage<T>(px: seq<seq<T>>, inset: real, zero: T, ink: T, outline: Outline)
    requires Rect(px) && inset > 0.0
    requires EmbedOffset(|px|, inset) < CanvasSide(|px|, inset) - |px|
    requires EmbedOffset(Width(px), inset) < CanvasSide(Width(px), inset) - Width(px)
    requires MissesWindow(outline(CanvasSide(|px|, inset), CanvasSide(Width(px), inset),
                                  EmbedOffset(|px|, inset), EmbedOffset(Width(px), inset)),
                          EmbedOffset(|px|, inset), EmbedOffset(Width(px), inset), |px|, Width(px))
    ensures EmbedInRectangle(px, inset, zero, ink, outline, EmbedOffset(|px|, inset), EmbedOffset(Width(px), inset))
            == Ok(px)
  {
    var e := ExpandImage(px, inset, zero);
    var cells := outline(|e.grid|, Width(e.grid), e.ox, e.oy);
    EmbedIsCrop(px, inset, zero, ink, outline, e.ox, e.oy);
    CropMissesOutline(e.grid, cells, ink, e.ox, e.oy, |px|, Width(px));
    CropExpandRoundTrip(px, inset, zero);
  }

  /** With a positive inset and both slacks positive, the transform is the crop at
      `(dx, dy)` of the outlined canvas. */
  lemma EmbedIsCrop<T>(px: seq<seq<T>>, inset: real, zero: T, ink: T, outline: Outline, dx: nat, dy: nat)
    requires Rect(px) && inset > 0.0
    requires dx < CanvasSide(|px|, inset) - |px| && dy < CanvasSide(Width(px), inset) - Width(px)
    ensures var e := ExpandImage(px, inset, zero);
      var drawn := Outlined(e.grid, outline(|e.grid|, Width(e.grid), e.ox, e.oy), ink);
      EmbedInRectangle(px, inset, zero, ink, outline, dx, dy) == Ok(Crop(drawn, dx, dy, |px|, Width(px)))
  {
    EmbedFits(|px|, inset);
    EmbedFits(Width(px), inset);
  }
}
