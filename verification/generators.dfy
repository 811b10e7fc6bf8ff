/** The Keras batch generators of digit/digit_dataset.py: cursors over permutations of
    the train positions of one dataset (`DigitDataGenerator`) or of three datasets at once
    (`BalancedDataGenerator`). The datasets are read only, so each generator holds the
    train containers they had when it was built. */
module Generators {
  import opened Base
  import opened Images
  import opened DatasetCore

  /** One batch: the images and their one-hot label rows. */
  datatype Batch = Batch(x: seq<Image>, y: seq<seq<int>>)

  /** `int(np.floor(n / b))`: the number of full batches; a zero batch size divides by
      zero. */
  function BatchCount(n: nat, b: nat): (r: Result<nat>)
    ensures b == 0 <==> r == Err(ZeroDivisionError)
  {
    if b == 0 then Err(ZeroDivisionError) else Ok(n / b)
  }

  /** `BatchCount` is the largest `k` with `k` batches fitting in `n` samples. */
  lemma BatchCountSpec(n: nat, b: nat)
    requires b > 0
    ensures var k := BatchCount(n, b).value; k * b <= n < k * b + b
  {
    DivRun(n, b, n / b);
  }

  /** `int(np.ceil(2 * n / b))`: enough batches to cover twice the machine dataset. */
  function BalancedBatchCount(n: nat, b: nat): (r: Result<nat>)
    ensures b == 0 <==> r == Err(ZeroDivisionError)
  {
    if b == 0 then Err(ZeroDivisionError) else Ok((2 * n + b - 1) / b)
  }

  /** The balanced count is the ceiling: `k` batches cover `2n`, `k - 1` do not. */
  lemma BalancedBatchCountSpec(n: nat, b: nat)
    requires b > 0
    ensures var k := BalancedBatchCount(n, b).value; 2 * n <= k * b < 2 * n + b
  {
    var k := (2 * n + b - 1) / b;
    DivRun(2 * n + b - 1, b, k);
  }

  /** The mini-batch sizes of a balanced batch: `m = int(b / 3)` machine and
      handwritten samples and `b - 2m` out samples. */
  function MiniBatchSizes(b: nat): (nat, nat)
  {
    (b / 3, b - 2 * (b / 3))
  }

  /** The three mini-batches fill the batch, the last is at most two larger, and they are
      equal exactly when `b` is divisible by three. */
  lemma MiniBatchSizesSpec(b: nat)
    ensures var (m, last) := MiniBatchSizes(b);
      && m + m + last == b
      && m <= last <= m + 2
      && (b % 3 == 0 <==> last == m)
  {
  }

  /** `indices[index * size:(index + 1) * size]`. */
  function Window(indices: seq<int>, index: int, size: nat): seq<int>
  {
    PySlice(indices, index * size, (index + 1) * size)
  }

  /** A window at a non-negative batch number is the stretch of the cursor it overlaps:
      never longer than `size`, full while it lies inside the cursor, empty past it. */
  lemma WindowSpec(indices: seq<int>, index: nat, size: nat)
    ensures (index + 1) * size == index * size + size
    ensures Window(indices, index, size) == indices[Min(index * size, |indices|)..Min(index * size + size, |indices|)]
    ensures |Window(indices, index, size)| <= size
    ensures index * size + size <= |indices| ==> |Window(indices, index, size)| == size
    ensures index * size >= |indices| ==> Window(indices, index, size) == []
  {
    assert (index + 1) * size == index * size + size;
    PySliceWindow(indices, index * size, (index + 1) * size);
  }

  /** Every batch a `BatchCount` promises is full. */
  lemma FullWindows(indices: seq<int>, b: nat, index: nat)
    requires b > 0 && index < BatchCount(|indices|, b).value
    ensures |Window(indices, index, b)| == b
  {
    var k := |indices| / b;
    BatchCountSpec(|indices|, b);
    MulMono(index + 1, k, b);
    WindowSpec(indices, index, b);
  }

  lemma MulMono(i: nat, k: nat, b: nat)
    requires i <= k
    ensures i * b <= k * b
  {
    assert k * b == i * b + (k - i) * b;
  }

  /** Any slice of a permutation of `0..n-1` holds valid positions. */
  lemma SliceAllBelow(p: seq<int>, n: nat, lo: int, hi: int)
    requires IsPermutation(p, n)
    ensures AllBelow(PySlice(p, lo, hi), n)
  {
    var a, b := SliceBound(lo, |p|), SliceBound(hi, |p|);
    if a <= b {
      forall i | 0 <= i < b - a ensures 0 <= p[a..b][i] < n {
        assert p[a..b][i] == p[a + i];
      }
    }
  }

  /** `x = dataset.train_x[indices]`, `y = to_categorical(train_y[indices], classes)`:
      the batch fails when a selected label does not fit the width. */
  function GenerateBatch(xs: seq<Image>, ys: seq<int>, window: seq<int>, classes: nat): (r: Result<Batch>)
    requires |xs| == |ys| && AllBelow(window, |xs|)
    ensures r.Ok? <==> forall i :: 0 <= i < |window| ==> -(classes as int) <= ys[window[i]] < classes
    ensures r.Ok? ==> r.value.x == Gather(xs, window) && |r.value.y| == |window|
    ensures r.Ok? ==> forall i :: 0 <= i < |window| ==> OneHot(ys[window[i]], classes) == Ok(r.value.y[i])
    ensures r.Err? ==> r.error == IndexError
  {
    var y := OneHotAll(Gather(ys, window), classes);
    if y.Err? then Err(IndexError) else Ok(Batch(Gather(xs, window), y.value))
  }

  /*** Stacking and flattening a balanced batch ***/

  /** The values of one image in row-major order, the four channels of a BGRA pixel
      side by side, as `ndarray.reshape` reads them. */
  function Pixels(img: Image): seq<int>
  {
    if img.Gray? then Flatten(img.gray)
    else Flatten(seq(|img.color|, i requires 0 <= i < |img.color| => ColorRowValues(img.color[i])))
  }

  function ColorRowValues(row: seq<Bgra>): seq<int>
  {
    Flatten(seq(|row|, j requires 0 <= j < |row| => [row[j].b as int, row[j].g as int, row[j].r as int, row[j].a as int]))
  }

  /** Every value of a stack of images, image after image. */
  function StackValues(xs: seq<Image>): seq<int>
  {
    Flatten(seq(|xs|, k requires 0 <= k < |xs| => Pixels(xs[k])))
  }

  /** `count` consecutive rows of `n` values each. */
  function Chunks<T>(s: seq<T>, n: nat, count: nat): (r: seq<seq<T>>)
    requires |s| == count * n
    ensures |r| == count && forall k :: 0 <= k < count ==> |r[k]| == n
    decreases count
  {
    if count == 0 then []
    else
      assert |s| == (count - 1) * n + n;
      Chunks(s[..(count - 1) * n], n, count - 1) + [s[(count - 1) * n..]]
  }

  /** Reading the rows back in order gives the values they were cut from. */
  lemma {:induction false} ChunksFlatten<T>(s: seq<T>, n: nat, count: nat)
    requires |s| == count * n
    ensures Flatten(Chunks(s, n, count)) == s
  {
    if count > 0 {
      assert |s| == (count - 1) * n + n;
      var r := Chunks(s, n, count);
      assert r[..count - 1] == Chunks(s[..(count - 1) * n], n, count - 1);
      ChunksFlatten(s[..(count - 1) * n], n, count - 1);
      assert s == s[..(count - 1) * n] + s[(count - 1) * n..];
    }
  }

  /** Parts of one length `n` flatten to `|parts| * n` values, and cutting those into
      rows of `n` gives the parts back. */
  lemma {:induction false} FlattenChunks<T>(parts: seq<seq<T>>, n: nat)
    requires forall k :: 0 <= k < |parts| ==> |parts[k]| == n
    ensures |Flatten(parts)| == |parts| * n
    ensures Chunks(Flatten(parts), n, |parts|) == parts
  {
    if parts != [] {
      var last := |parts| - 1;
      var init := parts[..last];
      FlattenChunks(init, n);
      ChunksLast(Flatten(init), parts[last], n, last);
      assert parts == init + [parts[last]];
    }
  }

  /** Appending one row of `n` values appends it to the rows. */
  lemma ChunksLast<T>(s: seq<T>, row: seq<T>, n: nat, count: nat)
    requires |s| == count * n && |row| == n
    ensures |s + row| == (count + 1) * n
    ensures Chunks(s + row, n, count + 1) == Chunks(s, n, count) + [row]
  {
    var f := s + row;
    assert (count + 1) * n == count * n + n;
    assert f[..count * n] == s;
    assert f[count * n..] == row;
  }

  /** `x.reshape(-1, resolution ** 2)`: rows of `resolution * resolution` values; numpy
      raises ValueError when the row length is zero or does not divide the value count. */
  function Reshape(xs: seq<Image>, resolution: nat): (r: Result<seq<seq<int>>>)
    ensures var n := resolution * resolution;
      r.Ok? <==> n > 0 && |StackValues(xs)| % n == 0
    ensures r.Err? ==> r.error == ValueError
    ensures r.Ok? ==> Flatten(r.value) == StackValues(xs)
    ensures r.Ok? ==> forall k :: 0 <= k < |r.value| ==> |r.value[k]| == resolution * resolution
  {
    var n := resolution * resolution;
    var v := StackValues(xs);
    if n == 0 || |v| % n != 0 then Err(ValueError)
    else
      assert |v| == (|v| / n) * n;
      ChunksFlatten(v, n, |v| / n);
      Ok(Chunks(v, n, |v| / n))
  }

  /** A grey image of side `side` has `side * side` values. */
  lemma GrayPixelCount(img: Image, side: nat)
    requires GrayOfSide(img, side)
    ensures |Pixels(img)| == side * side
  {
    FlattenChunks(img.gray, side);
  }

  /** When every image is grey of side `resolution`, the reshape gives each image as one
      row, in order. */
  lemma ReshapeGrayRows(xs: seq<Image>, resolution: nat)
    requires resolution > 0
    requires forall k :: 0 <= k < |xs| ==> GrayOfSide(xs[k], resolution)
    ensures Reshape(xs, resolution) == Ok(seq(|xs|, k requires 0 <= k < |xs| => Pixels(xs[k])))
  {
    var n := resolution * resolution;
    var parts := seq(|xs|, k requires 0 <= k < |xs| => Pixels(xs[k]));
    forall k | 0 <= k < |xs| ensures |parts[k]| == n {
      GrayPixelCount(xs[k], resolution);
    }
    FlattenChunks(parts, n);
    var v := StackValues(xs);
    assert v == Flatten(parts);
    MulDivMod(|xs|, n);
  }

  /** `(c * n) / n == c` with no remainder. */
  lemma MulDivMod(c: nat, n: nat)
    requires n > 0
    ensures (c * n) % n == 0 && (c * n) / n == c
  {
    var q, r := (c * n) / n, (c * n) % n;
    assert c * n == q * n + r && 0 <= r < n;
    var d := c - q;
    assert d * n == r;
    if d > 0 {
      MulMono(1, d, n);
    }
  }

  /** The images whose shapes `np.vstack` compares for one mini-batch: the gathered
      ones, or, for an empty window, the first image of the dataset's train array, whose
      shape the empty selection keeps. */
  function ShapeWitnesses(xs: seq<Image>, gathered: seq<Image>): seq<Image>
  {
    if gathered != [] then gathered else if xs != [] then [xs[0]] else []
  }

  /** All the images have one shape. */
  predicate OneShape(imgs: seq<Image>)
  {
    forall i, j :: 0 <= i < |imgs| && 0 <= j < |imgs| ==> SameImageShape(imgs[i], imgs[j])
  }

  /** The features of a balanced batch: the image stack, or its rows after flattening. */
  datatype Features = Stacked(images: seq<Image>) | Flat(rows: seq<seq<int>>)

  /** One balanced batch: the features and their one-hot label rows. */
  datatype BalancedBatch = BalancedBatch(x: Features, y: seq<seq<int>>)

  /** The number of classes `DigitDataGenerator` one-hot encodes. */
  const DigitClasses: nat := 9
  /** The number of classes `BalancedDataGenerator` one-hot encodes. */
  const BalancedClasses: nat := 20

  class DigitDataGenerator {
    const trainX: seq<Image>
    const trainY: seq<int>
    const batchSize: nat
    const shuffle: bool
    var machineIndices: seq<int>

    /** The cursor is a permutation of the dataset's train positions. */
    predicate Valid()
      reads this
    {
      |trainX| == |trainY| && IsPermutation(machineIndices, |trainX|)
    }

    /** `np.arange(n)`, shuffled into `perm` when `shuffle`. */
    function Order(perm: seq<int>): seq<int>
    {
      if shuffle then perm else Range(|trainX|)
    }

    constructor (trainX: seq<Image>, trainY: seq<int>, batchSize: nat, shuffle: bool, perm: seq<int>)
      requires |trainX| == |trainY| && (shuffle ==> IsPermutation(perm, |trainX|))
      ensures this.trainX == trainX && this.trainY == trainY
      ensures this.batchSize == batchSize && this.shuffle == shuffle
      ensures machineIndices == (if shuffle then perm else Range(|trainX|))
      ensures Valid()
    {
      this.trainX, this.trainY := trainX, trainY;
      this.batchSize, this.shuffle := batchSize, shuffle;
      machineIndices := if shuffle then perm else Range(|trainX|);
    }

    /** `__getitem__(index)`: the cursor window of batch `index`, with nine-class labels. */
    function GetItem(index: int): (r: Result<Batch>)
      requires Valid()
      reads this
      ensures var w := Window(machineIndices, index, batchSize);
        && AllBelow(w, |trainX|)
        && r == GenerateBatch(trainX, trainY, w, DigitClasses)
    {
      var w := Window(machineIndices, index, batchSize);
      SliceAllBelow(machineIndices, |trainX|, index * batchSize, (index + 1) * batchSize);
      GenerateBatch(trainX, trainY, w, DigitClasses)
    }

    /** `on_epoch_end`: a fresh (shuffled) cursor. */
    method OnEpochEnd(perm: seq<int>)
      requires |trainX| == |trainY| && (shuffle ==> IsPermutation(perm, |trainX|))
      modifies this
      ensures machineIndices == Order(perm) && Valid()
    {
      machineIndices := Order(perm);
    }
  }

  class BalancedDataGenerator {
    const machine: Splits
    const handwritten: Splits
    const out: Splits
    const batchSize: nat
    const shuffle: bool
    const flatten: bool
    const resolution: nat
    var machineIndices: seq<int>
    var handwrittenIndices: seq<int>
    var outIndices: seq<int>

    /** The machine and handwritten cursors are permutations of their train positions;
        the out cursor stays in order. */
    predicate Valid()
      reads this
    {
      && machine.Paired() && handwritten.Paired() && out.Paired()
      && IsPermutation(machineIndices, |machine.trainX|)
      && IsPermutation(handwrittenIndices, |handwritten.trainY|)
      && outIndices == Range(|out.trainY|)
    }

    /** Construction never fails: a batch size not divisible by three only warns. */
    constructor (machine: Splits, handwritten: Splits, out: Splits, batchSize: nat, shuffle: bool,
                 flatten: bool, resolution: nat, permMachine: seq<int>, permHandwritten: seq<int>)
      requires machine.Paired() && handwritten.Paired() && out.Paired()
      requires shuffle ==> IsPermutation(permMachine, |machine.trainY|)
      requires shuffle ==> IsPermutation(permHandwritten, |handwritten.trainY|)
      ensures this.machine == machine && this.handwritten == handwritten && this.out == out
      ensures this.batchSize == batchSize && this.shuffle == shuffle
      ensures this.flatten == flatten && this.resolution == resolution
      ensures machineIndices == (if shuffle then permMachine else Range(|machine.trainY|))
      ensures handwrittenIndices == (if shuffle then permHandwritten else Range(|handwritten.trainY|))
      ensures outIndices == Range(|out.trainY|)
      ensures Valid()
    {
      this.machine, this.handwritten, this.out := machine, handwritten, out;
      this.batchSize, this.shuffle := batchSize, shuffle;
      this.flatten, this.resolution := flatten, resolution;
      machineIndices := if shuffle then permMachine else Range(|machine.trainY|);
      handwrittenIndices := if shuffle then permHandwritten else Range(|handwritten.trainY|);
      outIndices := Range(|out.trainY|);
    }

    /** The three cursor windows of batch `index`: machine, handwritten, out. */
    function Windows(index: int): (r: (seq<int>, seq<int>, seq<int>))
      requires Valid()
      reads this
      ensures AllBelow(r.0, |machine.trainX|) && AllBelow(r.1, |handwritten.trainX|) && AllBelow(r.2, |out.trainX|)
    {
      var (m, last) := MiniBatchSizes(batchSize);
      SliceAllBelow(machineIndices, |machine.trainX|, index * m, (index + 1) * m);
      SliceAllBelow(handwrittenIndices, |handwritten.trainX|, index * m, (index + 1) * m);
      SliceAllBelow(outIndices, |out.trainX|, index * last, (index + 1) * last);
      (Window(machineIndices, index, m), Window(handwrittenIndices, index, m), Window(outIndices, index, last))
    }

    /** The images of batch `index` in stacking order. */
    function BatchImages(index: int): seq<Image>
      requires Valid()
      reads this
    {
      var (wm, wh, wo) := Windows(index);
      Gather(machine.trainX, wm) + Gather(handwritten.trainX, wh) + Gather(out.trainX, wo)
    }

    /** `np.vstack((xd, xm, xo))` accepts the three image arrays: all have one shape. */
    predicate Stackable(index: int)
      requires Valid()
      reads this
    {
      var (wm, wh, wo) := Windows(index);
      OneShape(ShapeWitnesses(machine.trainX, Gather(machine.trainX, wm))
               + ShapeWitnesses(handwritten.trainX, Gather(handwritten.trainX, wh))
               + ShapeWitnesses(out.trainX, Gather(out.trainX, wo)))
    }

    /** `__getitem__(index)`: the three mini-batches stacked in the order machine,
        handwritten, out, each with twenty-class labels. A label that does not fit fails
        the one-hot encoding with IndexError; then `np.vstack` raises ValueError for
        image arrays of different shapes, and with `flatten` the reshape into rows of
        `resolution ** 2` values raises ValueError when those do not divide the stack. */
    function GetItem(index: int): (r: Result<BalancedBatch>)
      requires Valid()
      reads this
      ensures var (wm, wh, wo) := Windows(index);
        var bm, bh, bo := GenerateBatch(machine.trainX, machine.trainY, wm, BalancedClasses),
                          GenerateBatch(handwritten.trainX, handwritten.trainY, wh, BalancedClasses),
                          GenerateBatch(out.trainX, out.trainY, wo, BalancedClasses);
        && (r.Ok? <==> bm.Ok? && bh.Ok? && bo.Ok? && Stackable(index)
                       && (flatten ==> Reshape(BatchImages(index), resolution).Ok?))
        && (!(bm.Ok? && bh.Ok? && bo.Ok?) ==> r == Err(IndexError))
        && (bm.Ok? && bh.Ok? && bo.Ok? && r.Err? ==> r.error == ValueError)
        && (r.Ok? ==> r.value.y == bm.value.y + bh.value.y + bo.value.y)
      ensures r.Ok? && !flatten ==> r.value.x == Stacked(BatchImages(index))
      ensures r.Ok? && flatten ==> r.value.x == Flat(Reshape(BatchImages(index), resolution).value)
    {
      var (wm, wh, wo) := Windows(index);
      var bm := GenerateBatch(machine.trainX, machine.trainY, wm, BalancedClasses);
      var bh := GenerateBatch(handwritten.trainX, handwritten.trainY, wh, BalancedClasses);
      var bo := GenerateBatch(out.trainX, out.trainY, wo, BalancedClasses);
      if bm.Err? then Err(bm.error)
      else if bh.Err? then Err(bh.error)
      else if bo.Err? then Err(bo.error)
      else if !Stackable(index) then Err(ValueError)
      else
        var x, y := bm.value.x + bh.value.x + bo.value.x, bm.value.y + bh.value.y + bo.value.y;
        if !flatten then Ok(BalancedBatch(Stacked(x), y))
        else
          var rows := Reshape(x, resolution);
          if rows.Err? then Err(rows.error) else Ok(BalancedBatch(Flat(rows.value), y))
    }

    /** Once the labels fit, two batch images of different shapes (grey 28 by 28 next to
        grey 32 by 32, or grey next to BGRA) make `np.vstack` raise ValueError. */
    lemma MismatchedShapesRaise(index: int, i: nat, j: nat)
      requires Valid()
      requires var (wm, wh, wo) := Windows(index);
        && GenerateBatch(machine.trainX, machine.trainY, wm, BalancedClasses).Ok?
        && GenerateBatch(handwritten.trainX, handwritten.trainY, wh, BalancedClasses).Ok?
        && GenerateBatch(out.trainX, out.trainY, wo, BalancedClasses).Ok?
      requires i < |BatchImages(index)| && j < |BatchImages(index)|
      requires !SameImageShape(BatchImages(index)[i], BatchImages(index)[j])
      ensures GetItem(index) == Err(ValueError)
    {
      var (wm, wh, wo) := Windows(index);
      var gm, gh, go := Gather(machine.trainX, wm), Gather(handwritten.trainX, wh), Gather(out.trainX, wo);
      var w := ShapeWitnesses(machine.trainX, gm) + ShapeWitnesses(handwritten.trainX, gh)
               + ShapeWitnesses(out.trainX, go);
      var imgs := BatchImages(index);
      assert imgs == gm + gh + go;
      assert forall x :: x in imgs ==> x in w;
      assert imgs[i] in w && imgs[j] in w;
    }

    /** A batch whose three windows lie inside their cursors holds exactly `batchSize`
        label rows, and `batchSize` images when it is not flattened. */
    lemma FullBatch(index: nat)
      requires Valid()
      requires var (m, last) := MiniBatchSizes(batchSize);
        && index * m + m <= |machineIndices| && index * m + m <= |handwrittenIndices|
        && index * last + last <= |outIndices|
      requires GetItem(index).Ok?
      ensures |GetItem(index).value.y| == batchSize
      ensures |BatchImages(index)| == batchSize
    {
      var (m, last) := MiniBatchSizes(batchSize);
      WindowSpec(machineIndices, index, m);
      WindowSpec(handwrittenIndices, index, m);
      WindowSpec(outIndices, index, last);
      MiniBatchSizesSpec(batchSize);
    }

    /** With `flatten`, a batch of grey images of side `resolution` becomes one row per
        image, holding that image's values. */
    lemma FlatBatchRows(index: int)
      requires Valid() && flatten && resolution > 0
      requires GetItem(index).Ok?
      requires forall k :: 0 <= k < |BatchImages(index)| ==> GrayOfSide(BatchImages(index)[k], resolution)
      ensures var imgs := BatchImages(index);
        GetItem(index).value.x == Flat(seq(|imgs|, k requires 0 <= k < |imgs| => Pixels(imgs[k])))
    {
      ReshapeGrayRows(BatchImages(index), resolution);
    }

    /** `on_epoch_end`: the machine and handwritten cursors are rebuilt (shuffled when
        `shuffle`); the out cursor is left as it is. */
    method OnEpochEnd(permMachine: seq<int>, permHandwritten: seq<int>)
      requires Valid()
      requires shuffle ==> IsPermutation(permMachine, |machine.trainX|)
      requires shuffle ==> IsPermutation(permHandwritten, |handwritten.trainY|)
      modifies this
      ensures machineIndices == (if shuffle then permMachine else Range(|machine.trainX|))
      ensures handwrittenIndices == (if shuffle then permHandwritten else Range(|handwritten.trainY|))
      ensures outIndices == old(outIndices)
      ensures Valid()
    {
      machineIndices := if shuffle then permMachine else Range(|machine.trainX|);
      handwrittenIndices := if shuffle then permHandwritten else Range(|handwritten.trainY|);
    }
  }
}
