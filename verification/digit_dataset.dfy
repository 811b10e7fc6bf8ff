/** The older copy of the character datasets, digit/digit_dataset.py: the class map puts
    OUT at 0 and EMPTY at 10, per-class indices are lists rather than dictionaries, the
    transform queue is never cleared and resizing skips images already at the target
    side. */
module DigitDataset {
  import opened Base
  import opened Images
  import opened DatasetCore

  /** The interpolation for shrinking and for enlarging, chosen by `fast_resize`. */
  function DownInterpolation(fast: bool): Interpolation { if fast then Nearest else Lanczos4 }
  function UpInterpolation(fast: bool): Interpolation { if fast then Area else Cubic }

  /** `rsz(img)` inside `_get_resized`: an image whose side is already `res` is returned
      as it is, any other is resized, shrinking or enlarging by comparison with its own
      side. */
  function ResizeImage(img: Image, res: nat, down: Interpolation, up: Interpolation, rs: Resizer): Image
  {
    if res != Side(img) then rs(img, res, if res < Side(img) then down else up) else img
  }

  /** Every image passed through `ResizeImage`; the count is kept, and images already at
      the target side are left untouched. */
  function ResizedAll(data: seq<Image>, res: nat, down: Interpolation, up: Interpolation, rs: Resizer)
    : (r: seq<Image>)
    ensures |r| == |data|
    ensures forall i :: 0 <= i < |data| && Side(data[i]) == res ==> r[i] == data[i]
    ensures forall i :: 0 <= i < |data| && Side(data[i]) != res ==>
      r[i] == rs(data[i], res, if res < Side(data[i]) then down else up)
  {
    seq(|data|, i requires 0 <= i < |data| => ResizeImage(data[i], res, down, up, rs))
  }

  /** `_get_resized`: a fresh array filled in order with the mapped images. */
  method GetResized(data: seq<Image>, res: nat, down: Interpolation, up: Interpolation, rs: Resizer)
    returns (r: seq<Image>)
    ensures r == ResizedAll(data, res, down, up, rs)
  {
    var a := new Image[|data|](_ => Unwritten);
    var i := 0;
    while i < |data|
      invariant 0 <= i <= |data|
      invariant forall k :: 0 <= k < i ==> a[k] == ResizeImage(data[k], res, down, up, rs)
    {
      a[i] := ResizeImage(data[i], res, down, up, rs);
      i := i + 1;
    }
    r := a[..];
  }

  /** A stack whose images all have side `res` comes back from resizing unchanged. */
  lemma ResizedAllAtSide(data: seq<Image>, res: nat, down: Interpolation, up: Interpolation, rs: Resizer)
    requires forall i :: 0 <= i < |data| ==> Side(data[i]) == res
    ensures ResizedAll(data, res, down, up, rs) == data
  {
  }

  /** `resize(res)`: a no-op at the current resolution; otherwise both image stacks are
      resized image by image, labels and counts are kept and the resolution becomes
      `res`. */
  function ResizeState(s: State, res: nat, rs: Resizer): (r: State)
    ensures res == s.resolution ==> r == s
    ensures res != s.resolution ==>
      && r.resolution == res && r.interDown == s.interDown && r.interUp == s.interUp
      && r.data.trainY == s.data.trainY && r.data.testY == s.data.testY
      && r.data.trainX == ResizedAll(s.data.trainX, res, s.interDown, s.interUp, rs)
      && r.data.testX == ResizedAll(s.data.testX, res, s.interDown, s.interUp, rs)
  {
    if res == s.resolution then s
    else
      s.(resolution := res,
         data := s.data.(trainX := ResizedAll(s.data.trainX, res, s.interDown, s.interUp, rs),
                         testX := ResizedAll(s.data.testX, res, s.interDown, s.interUp, rs)))
  }

  /** Resizing keeps every image with its label. */
  lemma ResizeStateKeepsPairing(s: State, res: nat, rs: Resizer)
    requires s.data.Paired()
    ensures ResizeState(s, res, rs).data.Paired()
    ensures |ResizeState(s, res, rs).data.trainX| == |s.data.trainX|
    ensures |ResizeState(s, res, rs).data.testX| == |s.data.testX|
  {
  }

  /*** Lookup through list indices ***/

  /** `self.train_indices_by_number[digit]`: a list subscript, negative from the end. */
  function ClassPositions(index: seq<seq<int>>, digit: int): (r: Result<seq<int>>)
    ensures r.Ok? <==> -|index| <= digit < |index|
    ensures 0 <= digit < |index| ==> r == Ok(index[digit])
    ensures r.Err? ==> r.error == IndexError
  {
    var k := PyIndex(digit, |index|);
    if k.None? then Err(IndexError) else Ok(index[k.value])
  }

  /** `get_ordered(digit, index)`. */
  function GetOrdered(trainX: seq<Image>, index: seq<seq<int>>, digit: int, i: int): (r: Result<Image>)
    ensures var ps := ClassPositions(index, digit);
      && (ps.Err? ==> r == Err(IndexError))
      && (ps.Ok? ==> r == PickAt(trainX, ps.value, i))
  {
    var ps := ClassPositions(index, digit);
    if ps.Err? then Err(ps.error) else PickAt(trainX, ps.value, i)
  }

  /** `MNIST.get_random(digit)`; `draw` is the position `np.random.choice` picks. */
  function GetRandom(trainX: seq<Image>, index: seq<seq<int>>, digit: int, draw: nat): (r: Result<Image>)
    ensures var ps := ClassPositions(index, digit);
      && (ps.Err? ==> r == Err(IndexError))
      && (ps.Ok? ==> r == PickRandom(trainX, ps.value, draw))
  {
    var ps := ClassPositions(index, digit);
    if ps.Err? then Err(ps.error) else PickRandom(trainX, ps.value, draw)
  }

  /** `FilteredMNIST.get_random(digit)`: 0 is rejected, and digit `d` is list entry `d - 1`
      because the list starts at class 1. */
  function FilteredGetRandom(trainX: seq<Image>, index: seq<seq<int>>, digit: int, draw: nat): (r: Result<Image>)
    ensures digit == 0 ==> r == Err(ValueError)
    ensures digit != 0 ==> r == GetRandom(trainX, index, digit - 1, draw)
  {
    if digit == 0 then Err(ValueError) else GetRandom(trainX, index, digit - 1, draw)
  }

  /** Ordered lookup through an index list built over `lo..hi-1` yields, for class
      `lo + k`, sample `i` of that class exactly when `i` is in range. */
  lemma GetOrderedSpec(trainX: seq<Image>, trainY: seq<int>, lo: int, hi: int, k: int, i: int)
    requires |trainX| == |trainY| && 0 <= k && lo + k < hi
    ensures var idx, ps := ClassIndexList(trainY, lo, hi), Positions(trainY, lo + k);
      && (GetOrdered(trainX, idx, k, i).Ok? <==> -|ps| <= i < |ps|)
      && (0 <= i < |ps| ==>
            0 <= ps[i] < |trainY| && GetOrdered(trainX, idx, k, i) == Ok(trainX[ps[i]]) && trainY[ps[i]] == lo + k)
  {
    PositionsSpec(trainY, lo + k);
  }

  /** After `FilteredMNIST` has shifted labels down by one, list entry `k` of the index
      (built before the shift over 1..9) lists exactly the samples now labelled `k`. */
  lemma FilteredIndexAfterShift(ys: seq<int>, k: int)
    requires 0 <= k < 9
    ensures |ClassIndexList(ys, 1, 10)| == 9
    ensures ClassIndexList(ys, 1, 10)[k] == Positions(MapLabels(ys, y => y - 1), k)
  {
    PositionsRelabel(ys, y => y - 1, k + 1, k);
  }

  /** `FilteredMNIST.get_random(d)` for a digit 1..9 that has samples returns one of them:
      a sample whose shifted label is `d - 1`, that is, an image of the digit `d`. */
  lemma FilteredGetRandomSpec(trainX: seq<Image>, trainY: seq<int>, digit: int, draw: nat)
    requires |trainX| == |trainY| && 1 <= digit <= 9 && draw < |Positions(trainY, digit)|
    ensures var ps := Positions(trainY, digit);
      && 0 <= ps[draw] < |trainX|
      && FilteredGetRandom(trainX, ClassIndexList(trainY, 1, 10), digit, draw) == Ok(trainX[ps[draw]])
      && trainY[ps[draw]] == digit
      && MapLabels(trainY, y => y - 1)[ps[draw]] == digit - 1
  {
    PositionsSpec(trainY, digit);
  }

  /** `ClassSeparateMNIST` relabels without rebuilding the MNIST index over 0..9, and the
      index stays right: entry `d` lists exactly the samples now labelled
      `SeparateLabel(d)` (0 for d = 0, d + 10 otherwise). */
  lemma SeparateIndexStillValid(ys: seq<int>, d: int)
    requires 0 <= d < 10
    ensures ClassIndexList(ys, 0, 10)[d] ==
      Positions(MapLabels(ys, y => SeparateLabel(DigitScheme, y)), SeparateLabel(DigitScheme, d))
  {
    PositionsRelabel(ys, y => SeparateLabel(DigitScheme, y), d, SeparateLabel(DigitScheme, d));
  }

  /*** Concatenation ***/

  /** The inputs after `ConcatDataset`'s first loop: the first dataset as it is, every
      later one resized to the first one's resolution. */
  function Aligned(ds: seq<State>, rs: Resizer): (r: seq<Splits>)
    requires |ds| > 0
    ensures |r| == |ds| && r[0] == ds[0].data
    ensures forall k :: 0 < k < |ds| ==> r[k] == ResizeState(ds[k], ds[0].resolution, rs).data
  {
    seq(|ds|, k requires 0 <= k < |ds| =>
      if k == 0 then ds[0].data else ResizeState(ds[k], ds[0].resolution, rs).data)
  }

  /** numpy's `a[lo:lo + |src|] = src`: the slice is clamped to the array; a source of
      the slice's length is written, a one-element source is broadcast over the slice,
      any other mismatch raises ValueError. The array keeps its length. */
  function SliceAssign<T>(a: seq<T>, lo: nat, src: seq<T>): (r: Result<seq<T>>)
    ensures r.Ok? ==> |r.value| == |a|
    ensures lo + |src| <= |a| ==> r == Ok(a[..lo] + src + a[lo + |src|..])
    ensures lo + |src| > |a| && |src| > 1 ==> r == Err(ValueError)
  {
    var s, e := Min(lo, |a|), Min(lo + |src|, |a|);
    if e - s == |src| then Ok(a[..s] + src + a[e..])
    else if |src| == 1 then Ok(a[..s] + seq(e - s, _ => src[0]) + a[e..])
    else Err(ValueError)
  }

  /** The copy loop of `ConcatDataset` on one container: part after part at the running
      offset `off`. */
  function CopyParts<T>(a: seq<T>, parts: seq<seq<T>>, off: nat): Result<seq<T>>
    decreases |parts|
  {
    if parts == [] then Ok(a)
    else
      var r := SliceAssign(a, off, parts[0]);
      if r.Err? then Err(r.error) else CopyParts(r.value, parts[1..], off + |parts[0]|)
  }

  /** `ConcatDataset` as written: all four arrays are allocated with the combined train
      size, so the test arrays have as many rows as the train arrays. `fillX` and `fillY`
      stand for what `np.empty` leaves in rows nobody writes. */
  function ConcatAsWritten(parts: seq<Splits>, fillX: Image, fillY: int): Result<Splits>
  {
    var size := TotalLength(TrainXs(parts));
    var trX := CopyParts(seq(size, _ => fillX), TrainXs(parts), 0);
    var trY := CopyParts(seq(size, _ => fillY), TrainYs(parts), 0);
    var teX := CopyParts(seq(size, _ => fillX), TestXs(parts), 0);
    var teY := CopyParts(seq(size, _ => fillY), TestYs(parts), 0);
    if trX.Err? then Err(trX.error)
    else if trY.Err? then Err(trY.error)
    else if teX.Err? then Err(teX.error)
    else if teY.Err? then Err(teY.error)
    else Ok(Splits(trX.value, trY.value, teX.value, teY.value))
  }

  /** One input with a train sample and no test sample: the concatenation as written
      reports one unwritten test row, where the inputs hold none. */
  lemma ConcatAsWrittenPadsTest(x: Image, fillX: Image, fillY: int)
    ensures var parts := [Splits([x], [1], [], [])];
      && |ConcatSplits(parts).testX| == 0
      && ConcatAsWritten(parts, fillX, fillY) == Ok(Splits([x], [1], [fillX], [fillY]))
  {
    var parts := [Splits([x], [1], [], [])];
    assert TrainXs(parts) == [[x]] && TestXs(parts) == [[]];
    assert TrainYs(parts) == [[1]] && TestYs(parts) == [[]];
    FlattenLength(TestXs(parts));
    assert TotalLength(TrainXs(parts)) == 1;
    var ax, ay := seq(1, _ => fillX), seq(1, _ => fillY);
    assert ax == [fillX] && ay == [fillY];
    assert ax[..0] + [x] + ax[1..] == [x];
    assert ay[..0] + [1] + ay[1..] == [1];
    assert ax[..0] + [] + ax[0..] == ax;
    assert ay[..0] + [] + ay[0..] == ay;
    assert CopyParts(ax, [[x]], 0) == Ok([x]);
    assert CopyParts(ay, [[1]], 0) == Ok([1]);
    assert CopyParts(ax, [[]], 0) == Ok([fillX]);
    assert CopyParts(ay, [[]], 0) == Ok([fillY]);
  }

  /** One input with two test samples and no train sample: the test arrays have no row,
      and copying two rows into them raises ValueError. */
  lemma ConcatAsWrittenRejectsTest(x: Image)
    ensures var parts := [Splits([], [], [x, x], [1, 1])];
      && |ConcatSplits(parts).testX| == 2
      && ConcatAsWritten(parts, x, 0) == Err(ValueError)
  {
    var parts := [Splits([], [], [x, x], [1, 1])];
    assert TrainXs(parts) == [[]] && TestXs(parts) == [[x, x]];
    assert TrainYs(parts) == [[]];
    FlattenLength(TestXs(parts));
    assert TotalLength(TrainXs(parts)) == 0;
    assert TotalLength(TestXs(parts)) == 2;
    var none: seq<Image> := [];
    var noLabels: seq<int> := [];
    assert seq(0, _ => x) == none && seq(0, _ => 0) == noLabels;
    assert TrainYs(parts) == [noLabels];
    assert CopyParts(none, [none], 0) == Ok(none);
    assert CopyParts(noLabels, [noLabels], 0) == Ok(noLabels);
    assert SliceAssign(none, 0, [x, x]) == Err(ValueError);
    assert CopyParts(none, [[x, x]], 0) == Err(ValueError);
  }

  /** `ConcatDataset` as intended: each container sized by its own total, every input
      copied at its running offset into grey arrays of the first input's side, which
      raises ValueError for an image that does not fit. */
  method ConcatDatasets(ds: seq<State>, rs: Resizer) returns (r: Result<Splits>)
    ensures ds == [] ==> r == Err(AssertionError)
    ensures ds != [] ==> r == ConcatChecked(Aligned(ds, rs), ds[0].resolution)
  {
    if |ds| == 0 {
      return Err(AssertionError);
    }
    var parts := Aligned(ds, rs);
    if !FitsGrayArrays(parts, ds[0].resolution) {
      return Err(ValueError);
    }
    var trainX := ConcatInto(TrainXs(parts), Unwritten);
    var trainY := ConcatInto(TrainYs(parts), 0);
    var testX := ConcatInto(TestXs(parts), Unwritten);
    var testY := ConcatInto(TestYs(parts), 0);
    r := Ok(Splits(trainX, trainY, testX, testY));
  }

  /** The intended concatenation holds as many test samples as the inputs together, and
      sample `j` of input `k` sits at the running offset with its label. */
  lemma ConcatDatasetsSpec(ds: seq<State>, rs: Resizer, k: nat, j: nat)
    requires |ds| > 0 && k < |ds| && StatesPaired(ds)
    ensures |Aligned(ds, rs)| == |ds| && ConcatPlaces(ds, Aligned(ds, rs), k, j)
  {
    AlignedPaired(ds, rs);
    AlignedKeepsLabels(ds, rs, k);
    ConcatSplitsOfStates(ds, Aligned(ds, rs), k, j);
  }

  /** Input `k` keeps its sizes and its labels through the resize. */
  lemma AlignedKeepsLabels(ds: seq<State>, rs: Resizer, k: nat)
    requires |ds| > 0 && k < |ds|
    ensures var part := Aligned(ds, rs)[k];
      && |part.trainX| == |ds[k].data.trainX| && |part.testX| == |ds[k].data.testX|
      && part.trainY == ds[k].data.trainY && part.testY == ds[k].data.testY
  {
  }

  /** Resizing to the first resolution keeps every input paired. */
  lemma AlignedPaired(ds: seq<State>, rs: Resizer)
    requires |ds| > 0 && StatesPaired(ds)
    ensures AllPaired(Aligned(ds, rs))
  {
    var parts := Aligned(ds, rs);
    forall i | 0 <= i < |ds| ensures parts[i].Paired() {
      if i > 0 {
        ResizeStateKeepsPairing(ds[i], ds[0].resolution, rs);
      }
    }
  }

  /*** The dataset class ***/

  /** The subclasses, where they behave differently. */
  datatype Variant =
    | Plain | Mnist | FilteredMnist | ClassSeparateMnist | Curated | ClassSeparateCurated | Prerendered | Concat

  const MnistCount: nat := 70000
  const MnistTrainCount: nat := 60000

  class CharacterDataset {
    const variant: Variant
    const shuffle: bool
    const interDown: Interpolation
    const interUp: Interpolation
    var res: nat
    var trainX: seq<Image>
    var trainY: seq<int>
    var testX: seq<Image>
    var testY: seq<int>
    var trainIndex: seq<seq<int>>
    var testIndex: seq<seq<int>>
    var transforms: seq<seq<Transform>>

    function Data(): Splits
      reads this
    {
      Splits(trainX, trainY, testX, testY)
    }

    function Snapshot(): State
      reads this
    {
      State(res, interDown, interUp, Data())
    }

    predicate Valid()
      reads this
    {
      Data().Paired()
    }

    /** `_digit_offset`. */
    function DigitOffset(): int
    {
      if variant == ClassSeparateCurated then 10 else 0
    }

    /** The order `_split` cuts: `shuffled` is what `np.random.shuffle` made of
        `np.arange(n)`; without shuffling the identity order. */
    function Order(n: nat, shuffled: seq<int>): seq<int>
    {
      if shuffle then shuffled else Range(n)
    }

    /** The constructor before `_load`: empty containers, a one-entry index holding no
        positions, an empty queue. */
    constructor (variant: Variant, resolution: nat, shuffle: bool, fastResize: bool)
      ensures this.variant == variant && res == resolution && this.shuffle == shuffle
      ensures interDown == DownInterpolation(fastResize) && interUp == UpInterpolation(fastResize)
      ensures Data() == Splits([], [], [], []) && Valid()
      ensures trainIndex == [[]] && testIndex == [[]] && transforms == []
    {
      this.variant := variant;
      this.shuffle := shuffle;
      interDown := DownInterpolation(fastResize);
      interUp := UpInterpolation(fastResize);
      res := resolution;
      trainX, trainY, testX, testY := [], [], [], [];
      trainIndex, testIndex := [[]], [[]];
      transforms := [];
    }

    /** `add_transforms(*ts)`. */
    method AddTransforms(ts: seq<Transform>)
      modifies this
      ensures transforms == old(transforms) + [ts]
      ensures Snapshot() == old(Snapshot())
      ensures trainIndex == old(trainIndex) && testIndex == old(testIndex)
    {
      transforms := transforms + [ts];
    }

    /** `apply_transforms(keep)`: a no-op with an empty queue; a stack that is not
        three-dimensional or a transform that changes an image's shape raises ValueError
        before anything is stored; otherwise cell `n*i + j` of each split is sequence
        `i - keep` applied to image `j`, labels are tiled, and the queue is kept, so a
        second call applies the same sequences again. */
    method ApplyTransforms(keep: bool) returns (err: Option<Error>)
      requires Valid()
      modifies this
      ensures Valid()
      ensures old(transforms) == [] ==> err == None && Data() == old(Data())
      ensures old(transforms) != [] ==>
        var r := ExpandChecked(old(Data()), old(transforms), keep);
        && (r.Err? ==> err == Some(r.error) && Data() == old(Data()))
        && (r.Ok? ==> err == None && Data() == r.value)
      ensures transforms == old(transforms) && res == old(res)
      ensures trainIndex == old(trainIndex) && testIndex == old(testIndex)
    {
      if transforms == [] {
        return None;
      }
      if ExpandRaises(Data(), transforms) {
        return Some(ValueError);
      }
      var copies := KeepCount(keep) + |transforms|;
      ghost var before := Data();
      var newTrainX := ExpandInto(trainX, transforms, keep);
      var newTestX := ExpandInto(testX, transforms, keep);
      trainX, testX := newTrainX, newTestX;
      trainY, testY := Tile(trainY, copies), Tile(testY, copies);
      ExpandSplitsSpec(before, transforms, keep);
      return None;
    }

    /** `resize(res)`, described by `ResizeState`. */
    method Resize(newRes: nat, rs: Resizer)
      requires Valid()
      modifies this
      ensures Valid()
      ensures Snapshot() == ResizeState(old(Snapshot()), newRes, rs)
      ensures transforms == old(transforms)
      ensures trainIndex == old(trainIndex) && testIndex == old(testIndex)
    {
      if newRes == res {
        return;
      }
      trainX := GetResized(trainX, newRes, interDown, interUp, rs);
      testX := GetResized(testX, newRes, interDown, interUp, rs);
      res := newRes;
    }

    /** `_split(digits, labels)`: the first `n*9/10` positions of the order are train. */
    method Split(digits: seq<Image>, labels: seq<int>, shuffled: seq<int>)
      requires |digits| == |labels| && IsPermutation(Order(|digits|, shuffled), |digits|)
      modifies this
      ensures Valid()
      ensures Data() == SplitByOrder(digits, labels, Order(|digits|, shuffled))
      ensures |trainX| == TrainCount(|digits|) && |trainX| + |testX| == |digits|
      ensures res == old(res) && transforms == old(transforms)
      ensures trainIndex == old(trainIndex) && testIndex == old(testIndex)
    {
      var order := Order(|digits|, shuffled);
      var d := SplitByOrder(digits, labels, order);
      SplitByOrderSpec(digits, labels, order);
      trainX, trainY, testX, testY := d.trainX, d.trainY, d.testX, d.testY;
    }

    /** `MNIST._load`: 60000 train and 10000 test samples, indexed by digit 0..9. */
    method LoadMnist(x: seq<Image>, y: seq<int>, shuffled: seq<int>)
      requires |x| == MnistCount && |y| == MnistCount && IsPermutation(Order(MnistCount, shuffled), MnistCount)
      modifies this
      ensures Valid()
      ensures Data() == SplitAt(x, y, Order(MnistCount, shuffled), MnistTrainCount)
      ensures |trainX| == MnistTrainCount && |testX| == MnistCount - MnistTrainCount
      ensures trainIndex == ClassIndexList(trainY, 0, 10) && testIndex == ClassIndexList(testY, 0, 10)
      ensures res == old(res) && transforms == old(transforms)
    {
      var d := SplitAt(x, y, Order(MnistCount, shuffled), MnistTrainCount);
      trainX, trainY, testX, testY := d.trainX, d.trainY, d.testX, d.testY;
      trainIndex := ClassIndexList(trainY, 0, 10);
      testIndex := ClassIndexList(testY, 0, 10);
    }

    /** `FilteredMNIST.__init__` after loading: label-0 samples are dropped, the index
        is rebuilt over 1..9, and then every label is reduced by one. */
    method FilterZeros()
      requires Valid()
      modifies this
      ensures Valid()
      ensures var f := DropNonPositive(old(Data()));
        && Data() == MapSplitLabels(f, y => y - 1)
        && trainIndex == ClassIndexList(f.trainY, 1, 10) && testIndex == ClassIndexList(f.testY, 1, 10)
      ensures res == old(res) && transforms == old(transforms)
    {
      DropNonPositivePaired(Data());
      var f := DropNonPositive(Data());
      trainX, testX := f.trainX, f.testX;
      trainIndex := ClassIndexList(f.trainY, 1, 10);
      testIndex := ClassIndexList(f.testY, 1, 10);
      trainY, testY := MapLabels(f.trainY, y => y - 1), MapLabels(f.testY, y => y - 1);
    }

    /** `ClassSeparateMNIST.__init__` after loading: 0 stays the OUT class, every positive
        label gets 10 added, and the MNIST index is kept. */
    method SeparateClasses()
      requires Valid()
      modifies this
      ensures Valid()
      ensures Data() == MapSplitLabels(old(Data()), y => SeparateLabel(DigitScheme, y))
      ensures trainIndex == old(trainIndex) && testIndex == old(testIndex)
      ensures res == old(res) && transforms == old(transforms)
    {
      var d := MapSplitLabels(Data(), y => SeparateLabel(DigitScheme, y));
      trainY, testY := d.trainY, d.testY;
    }

    /** `CuratedCharactersDataset._load`: each file is labelled from the code point of its
        character directory, then the stack is split; the index is not built. */
    method LoadCurated(images: seq<Image>, fileChars: seq<int>, shuffled: seq<int>)
      requires |images| == |fileChars| && IsPermutation(Order(|images|, shuffled), |images|)
      modifies this
      ensures Valid()
      ensures Data() == SplitByOrder(images, MapLabels(fileChars, c => GetLabel(DigitScheme, c, DigitOffset())),
                                     Order(|images|, shuffled))
      ensures trainIndex == old(trainIndex) && testIndex == old(testIndex)
      ensures res == old(res) && transforms == old(transforms)
    {
      Split(images, MapLabels(fileChars, c => GetLabel(DigitScheme, c, DigitOffset())), shuffled);
    }

    /** `PrerenderedDigitDataset._load`: `count` images per digit, labelled 0..8 in
        order, then split. */
    method LoadPrerendered(images: seq<Image>, count: nat, shuffled: seq<int>)
      requires |images| == 9 * count && IsPermutation(Order(|images|, shuffled), |images|)
      modifies this
      ensures Valid()
      ensures Data() == SplitByOrder(images, PrerenderedLabels(DigitScheme, count), Order(|images|, shuffled))
      ensures trainIndex == old(trainIndex) && testIndex == old(testIndex)
      ensures res == old(res) && transforms == old(transforms)
    {
      Split(images, PrerenderedLabels(DigitScheme, count), shuffled);
    }

    /** `ConcatDataset.__init__` on the dataset `super().__init__(res)` builds with its
        defaults (shuffling, high-quality interpolations, an empty queue, the one-entry
        index), with test containers sized by the test total; the index stays the
        constructor's. An image that does not fit the grey arrays of the first input's
        side raises ValueError. */
    method LoadConcat(ds: seq<State>, rs: Resizer) returns (err: Option<Error>)
      requires Valid() && StatesPaired(ds)
      requires shuffle && interDown == DownInterpolation(false) && interUp == UpInterpolation(false)
      requires transforms == [] && trainIndex == [[]] && testIndex == [[]]
      modifies this
      ensures Valid()
      ensures ds == [] ==> err == Some(AssertionError) && Data() == old(Data())
      ensures ds != [] && !FitsGrayArrays(Aligned(ds, rs), ds[0].resolution) ==>
        err == Some(ValueError) && Data() == old(Data()) && res == old(res)
      ensures ds != [] && FitsGrayArrays(Aligned(ds, rs), ds[0].resolution) ==>
        && err == None && res == ds[0].resolution
        && Data() == ConcatSplits(Aligned(ds, rs))
      ensures trainIndex == [[]] && testIndex == [[]]
      ensures transforms == []
    {
      var r := ConcatDatasets(ds, rs);
      if r.Err? {
        return Some(r.error);
      }
      ConcatDatasetsSpec(ds, rs, 0, 0);
      res := ds[0].resolution;
      trainX, trainY, testX, testY := r.value.trainX, r.value.trainY, r.value.testX, r.value.testY;
      err := None;
    }
  }
}
