/** The character datasets of simulation/data/dataset.py: the `CharacterDataset` class
    whose methods reassign its four containers and its transform queue, and the label
    and split logic of its variants. Loading (archives, `fetch_openml`, `cv2.imread`) is
    replaced by the arrays the loaders produce, passed in as arguments. */
module SimDataset {
  import opened Base
  import opened Images
  import opened DatasetCore

  /** The interpolation for shrinking and for enlarging, chosen by `fast_resize`. */
  function DownInterpolation(fast: bool): Interpolation { if fast then Area else Lanczos4 }
  function UpInterpolation(fast: bool): Interpolation { if fast then Linear else Cubic }

  /** Every image resized with the same interpolation; the count is kept. */
  function ResizedAll(data: seq<Image>, res: nat, interp: Interpolation, rs: Resizer): (r: seq<Image>)
    ensures |r| == |data|
    ensures forall i :: 0 <= i < |data| ==> r[i] == rs(data[i], res, interp)
  {
    seq(|data|, i requires 0 <= i < |data| => rs(data[i], res, interp))
  }

  /** `_get_resized`: a new array with one resized image per input image, filled in order. */
  method GetResized(data: seq<Image>, res: nat, interp: Interpolation, rs: Resizer) returns (r: seq<Image>)
    ensures r == ResizedAll(data, res, interp, rs)
  {
    var a := new Image[|data|](_ => Unwritten);
    var i := 0;
    while i < |data|
      invariant 0 <= i <= |data|
      invariant forall k :: 0 <= k < i ==> a[k] == rs(data[k], res, interp)
    {
      a[i] := rs(data[i], res, interp);
      i := i + 1;
    }
    r := a[..];
  }

  /** `resize(res)`: nothing happens when the resolution is already `res`; otherwise every
      train and test image is resized (shrinking or enlarging interpolation by comparison
      with the current resolution), the counts and the labels are kept, and the
      resolution becomes `res`. */
  function ResizeState(s: State, res: nat, rs: Resizer): (r: State)
    ensures res == s.resolution ==> r == s
    ensures res != s.resolution ==>
      var interp := if res < s.resolution then s.interDown else s.interUp;
      && r.resolution == res && r.interDown == s.interDown && r.interUp == s.interUp
      && r.data.trainY == s.data.trainY && r.data.testY == s.data.testY
      && |r.data.trainX| == |s.data.trainX| && |r.data.testX| == |s.data.testX|
      && (forall i :: 0 <= i < |s.data.trainX| ==> r.data.trainX[i] == rs(s.data.trainX[i], res, interp))
      && (forall i :: 0 <= i < |s.data.testX| ==> r.data.testX[i] == rs(s.data.testX[i], res, interp))
  {
    if res == s.resolution then s
    else
      var interp := if res < s.resolution then s.interDown else s.interUp;
      s.(resolution := res,
         data := s.data.(trainX := ResizedAll(s.data.trainX, res, interp, rs),
                         testX := ResizedAll(s.data.testX, res, interp, rs)))
  }

  /** Resizing keeps every image with its label. */
  lemma ResizeStateKeepsPairing(s: State, res: nat, rs: Resizer)
    requires s.data.Paired()
    ensures ResizeState(s, res, rs).data.Paired()
  {
  }

  /*** Concatenation ***/

  /** The inputs of `ConcatDataset` after its first loop: the first dataset as it is, every
      later one resized to the first one's resolution. */
  function Aligned(ds: seq<State>, rs: Resizer): (r: seq<Splits>)
    requires |ds| > 0
    ensures |r| == |ds| && r[0] == ds[0].data
    ensures forall k :: 0 < k < |ds| ==> r[k] == ResizeState(ds[k], ds[0].resolution, rs).data
  {
    seq(|ds|, k requires 0 <= k < |ds| =>
      if k == 0 then ds[0].data else ResizeState(ds[k], ds[0].resolution, rs).data)
  }

  /** `ConcatDataset(*datasets)`: an empty argument list fails the assertion; otherwise
      the later datasets are resized and all four containers are copied at running
      offsets into grey arrays of the first input's side, which raises ValueError for an
      image that does not fit. */
  method ConcatDatasets(ds: seq<State>, rs: Resizer) returns (r: Result<Splits>)
    ensures ds == [] ==> r == Err(AssertionError)
    ensures ds != [] ==> r == ConcatChecked(Aligned(ds, rs), ds[0].resolution)
  {
    if |ds| == 0 {
      return Err(AssertionError);
    }
    var parts := Aligned(ds, rs);
    if !FitsGrayArrays(parts, ds[0].resolution) {
      return Err(ValueError);
    }
    var trainX := ConcatInto(TrainXs(parts), Unwritten);
    var trainY := ConcatInto(TrainYs(parts), 0);
    var testX := ConcatInto(TestXs(parts), Unwritten);
    var testY := ConcatInto(TestYs(parts), 0);
    r := Ok(Splits(trainX, trainY, testX, testY));
  }

  /** The concatenation holds as many train (test) samples as all inputs together, and
      sample `j` of input `k` (resized when `k > 0`) sits at the running offset. */
  lemma ConcatDatasetsSpec(ds: seq<State>, rs: Resizer, k: nat, j: nat)
    requires |ds| > 0 && k < |ds| && StatesPaired(ds)
    ensures |Aligned(ds, rs)| == |ds| && ConcatPlaces(ds, Aligned(ds, rs), k, j)
  {
    AlignedPaired(ds, rs);
    AlignedKeepsLabels(ds, rs, k);
    ConcatSplitsOfStates(ds, Aligned(ds, rs), k, j);
  }

  /** Input `k` keeps its sizes and its labels through the resize. */
  lemma AlignedKeepsLabels(ds: seq<State>, rs: Resizer, k: nat)
    requires |ds| > 0 && k < |ds|
    ensures var part := Aligned(ds, rs)[k];
      && |part.trainX| == |ds[k].data.trainX| && |part.testX| == |ds[k].data.testX|
      && part.trainY == ds[k].data.trainY && part.testY == ds[k].data.testY
  {
  }

  /** Resizing to the first resolution keeps every input paired. */
  lemma AlignedPaired(ds: seq<State>, rs: Resizer)
    requires |ds| > 0 && StatesPaired(ds)
    ensures AllPaired(Aligned(ds, rs))
  {
    var parts := Aligned(ds, rs);
    forall i | 0 <= i < |ds| ensures parts[i].Paired() {
      if i > 0 {
        ResizeStateKeepsPairing(ds[i], ds[0].resolution, rs);
      }
    }
  }

  /*** Random access by class ***/

  /** `get_random(digit)`: a sample drawn from the positions of class `digit`; `draw` is the
      position `np.random.choice` picks. A missing class raises KeyError. */
  function GetRandom(trainX: seq<Image>, index: map<int, seq<int>>, digit: int, draw: nat): (r: Result<Image>)
    ensures digit !in index ==> r == Err(KeyError)
    ensures digit in index ==> r == PickRandom(trainX, index[digit], draw)
  {
    if digit !in index then Err(KeyError) else PickRandom(trainX, index[digit], draw)
  }

  /** `FilteredMNIST.get_random` as written: it rejects 0 but then looks up class
      `digit - 1` in an index keyed by the digits themselves. */
  function FilteredGetRandomAsWritten(trainX: seq<Image>, index: map<int, seq<int>>, digit: int, draw: nat)
    : Result<Image>
  {
    if digit == 0 then Err(ValueError) else GetRandom(trainX, index, digit - 1, draw)
  }

  /** The filtered index has keys 1..9: asking for a 1 raises KeyError, and asking for a 2
      returns a 1. */
  lemma FilteredGetRandomAsWrittenMisses(trainX: seq<Image>, trainY: seq<int>, draw: nat)
    requires |trainX| == |trainY|
    ensures var idx := ClassIndex(trainY, ClassesInRange(1, 10));
      && FilteredGetRandomAsWritten(trainX, idx, 1, draw) == Err(KeyError)
      && (draw < |Positions(trainY, 1)| ==>
            var r := FilteredGetRandomAsWritten(trainX, idx, 2, draw);
            var p := Positions(trainY, 1)[draw];
            0 <= p < |trainX| && r == Ok(trainX[p]) && trainY[p] == 1)
  {
    PositionsSpec(trainY, 1);
  }

  /** `FilteredMNIST.get_random` as intended: 0 is rejected, every other class is looked
      up under its own key. */
  function FilteredGetRandom(trainX: seq<Image>, index: map<int, seq<int>>, digit: int, draw: nat)
    : (r: Result<Image>)
    ensures digit == 0 ==> r == Err(ValueError)
    ensures digit != 0 ==> r == GetRandom(trainX, index, digit, draw)
  {
    if digit == 0 then Err(ValueError) else GetRandom(trainX, index, digit, draw)
  }

  /** With the filtered index, every digit 1..9 that has samples yields one of its own
      samples, for every draw in range. */
  lemma FilteredGetRandomSpec(trainX: seq<Image>, trainY: seq<int>, digit: int, draw: nat)
    requires |trainX| == |trainY| && 1 <= digit <= 9 && draw < |Positions(trainY, digit)|
    ensures var r, ps := FilteredGetRandom(trainX, ClassIndex(trainY, ClassesInRange(1, 10)), digit, draw),
                         Positions(trainY, digit);
      && 0 <= ps[draw] < |trainX| && r == Ok(trainX[ps[draw]]) && trainY[ps[draw]] == digit
  {
    PositionsSpec(trainY, digit);
  }

  /*** The dataset class ***/

  /** The subclasses, where they behave differently. */
  datatype Variant =
    | Plain | Mnist | FilteredMnist | ClassSeparateMnist | Curated | ClassSeparateCurated
    | Prerendered | Concat | Empty | Real | RealValidation

  /** The number of MNIST samples `fetch_openml` returns, and the size of its train cut. */
  const MnistCount: nat := 70000
  const MnistTrainCount: nat := 60000

  /** The colour conversions `cvt_color` distinguishes: the GRAY2BGRA fast path, and every
      other OpenCV code as the conversion it performs on one image. */
  datatype ColorMode = GrayToBgraMode | OtherMode(convert: Image -> Image)

  /** `_get_with_colorspace`: the fast path turns every gray image into BGRA with alpha
      `255 - v` and fails on four-channel input; any other mode reads the first image
      to size its output (IndexError on an empty stack) and converts every image. */
  function WithColorspace(data: seq<Image>, mode: ColorMode): (r: Result<seq<Image>>)
    ensures mode.GrayToBgraMode? ==> r == MapAll(data, GrayToBgra)
    ensures mode.OtherMode? ==> (r.Ok? <==> data != [])
    ensures mode.OtherMode? && r.Ok? ==>
      |r.value| == |data| && forall i :: 0 <= i < |data| ==> r.value[i] == mode.convert(data[i])
  {
    match mode
    case GrayToBgraMode => MapAll(data, GrayToBgra)
    case OtherMode(convert) =>
      if data == [] then Err(IndexError)
      else Ok(seq(|data|, i requires 0 <= i < |data| => convert(data[i])))
  }

  /** After the GRAY to BGRA fast path a non-empty training stack holds colour images,
      so a later `apply_transforms` raises ValueError whatever the queue holds. */
  lemma ConvertedStackRaises(d: Splits, seqs: seq<seq<Transform>>, keep: bool)
    requires d.trainX != [] && WithColorspace(d.trainX, GrayToBgraMode).Ok?
    ensures ExpandChecked(d.(trainX := WithColorspace(d.trainX, GrayToBgraMode).value), seqs, keep) == Err(ValueError)
  {
    var converted := WithColorspace(d.trainX, GrayToBgraMode).value;
    assert GrayToBgra(d.trainX[0]) == Ok(converted[0]);
    ColorSplitRaises(d.(trainX := converted), seqs, keep, 0);
  }

  /** The float average mode of alpha induction, which stays outside the model. */
  type AverageAlpha = (Image, seq<int>, bool) -> Result<Image>

  /** `_get_with_alpha` once its mode is chosen. */
  function WithAlpha(data: seq<Image>, mode: AlphaMode, invert: bool, average: AverageAlpha): Result<seq<Image>>
  {
    match mode
    case AverageOf(cs) => MapAll(data, img => average(img, cs, invert))
    case ZeroValue(key) => MapAll(data, img => ChromaKeyAlpha(img, key, invert))
    case MaxOf(cs) => MapAll(data, img => MaxChannelAlpha(img, cs, invert))
  }

  /** `_get_with_alpha` with its three optional arguments: RuntimeError when all are
      absent, and with a chroma key the alpha channel of every image is two-valued. */
  function GetWithAlpha(data: seq<Image>, average: Option<seq<int>>, zeroValue: Option<int>,
                        maxOf: Option<seq<int>>, invert: bool, averageFn: AverageAlpha): (r: Result<seq<Image>>)
    ensures average.None? && zeroValue.None? && maxOf.None? ==> r == Err(RuntimeError)
    ensures average.None? && zeroValue.Some? ==>
      r == MapAll(data, img => ChromaKeyAlpha(img, zeroValue.value, invert))
  {
    var mode := SelectAlphaMode(average, zeroValue, maxOf);
    if mode.Err? then Err(mode.error) else WithAlpha(data, mode.value, invert, averageFn)
  }

  class CharacterDataset {
    const variant: Variant
    var resolution: nat
    const shuffle: bool
    const interDown: Interpolation
    const interUp: Interpolation
    var trainX: seq<Image>
    var trainY: seq<int>
    var testX: seq<Image>
    var testY: seq<int>
    var trainIndex: map<int, seq<int>>
    var testIndex: map<int, seq<int>>
    var transforms: seq<seq<Transform>>

    function Data(): Splits
      reads this
    {
      Splits(trainX, trainY, testX, testY)
    }

    function Snapshot(): State
      reads this
    {
      State(resolution, interDown, interUp, Data())
    }

    /** Images and labels stay co-indexed in both splits. */
    predicate Valid()
      reads this
    {
      Data().Paired()
    }

    /** `digit_offset`: 10 for the class-separate curated characters, 0 otherwise. */
    function DigitOffset(): int
    {
      if variant == ClassSeparateCurated then 10 else 0
    }

    /** The order `_split` cuts: `shuffled` stands for the result of `np.random.shuffle`
        on `np.arange(n)`, the identity order is used when shuffling is off. */
    function Order(n: nat, shuffled: seq<int>): seq<int>
    {
      if shuffle then shuffled else Range(n)
    }

    /** The constructor: empty containers, an index holding only an empty class 0, an
        empty transform queue. */
    constructor (variant: Variant, resolution: nat, shuffle: bool, fastResize: bool)
      ensures this.variant == variant && this.resolution == resolution && this.shuffle == shuffle
      ensures interDown == DownInterpolation(fastResize) && interUp == UpInterpolation(fastResize)
      ensures Data() == Splits([], [], [], []) && Valid()
      ensures trainIndex == map[0 := []] && testIndex == map[0 := []]
      ensures transforms == []
    {
      this.variant := variant;
      this.resolution := resolution;
      this.shuffle := shuffle;
      interDown := DownInterpolation(fastResize);
      interUp := UpInterpolation(fastResize);
      trainX, trainY, testX, testY := [], [], [], [];
      trainIndex := map[0 := []];
      testIndex := map[0 := []];
      transforms := [];
    }

    /** `add_transforms(*ts)`: the sequence joins the end of the queue. */
    method AddTransforms(ts: seq<Transform>)
      modifies this
      ensures transforms == old(transforms) + [ts]
      ensures Data() == old(Data()) && Snapshot() == old(Snapshot())
      ensures trainIndex == old(trainIndex) && testIndex == old(testIndex)
    {
      transforms := transforms + [ts];
    }

    /** `apply_transforms(keep, clear)`: nothing happens with an empty queue; a colour
        stack or a transform that changes an image's shape raises ValueError before
        anything is stored; otherwise both splits are expanded by the queued sequences,
        labels are tiled, and the queue is emptied exactly when `clear`. The class index
        is not rebuilt. */
    method ApplyTransforms(keep: bool, clear: bool) returns (err: Option<Error>)
      requires Valid()
      modifies this
      ensures Valid()
      ensures old(transforms) == [] ==> err == None && Data() == old(Data()) && transforms == []
      ensures old(transforms) != [] ==>
        var r := ExpandChecked(old(Data()), old(transforms), keep);
        && (r.Err? ==> err == Some(r.error) && Data() == old(Data()) && transforms == old(transforms))
        && (r.Ok? ==> err == None && Data() == r.value && transforms == (if clear then [] else old(transforms)))
      ensures resolution == old(resolution)
      ensures trainIndex == old(trainIndex) && testIndex == old(testIndex)
    {
      if transforms == [] {
        return None;
      }
      if ExpandRaises(Data(), transforms) {
        return Some(ValueError);
      }
      var copies := KeepCount(keep) + |transforms|;
      ghost var before := Data();
      var newTrainX := ExpandInto(trainX, transforms, keep);
      var newTestX := ExpandInto(testX, transforms, keep);
      trainX, testX := newTrainX, newTestX;
      trainY, testY := Tile(trainY, copies), Tile(testY, copies);
      ExpandSplitsSpec(before, transforms, keep);
      if clear {
        transforms := [];
      }
      return None;
    }

    /** `resize(res)`, described by `ResizeState`. */
    method Resize(res: nat, rs: Resizer)
      requires Valid()
      modifies this
      ensures Valid()
      ensures Snapshot() == ResizeState(old(Snapshot()), res, rs)
      ensures transforms == old(transforms)
      ensures trainIndex == old(trainIndex) && testIndex == old(testIndex)
    {
      if res == resolution {
        return;
      }
      var interp := if res < resolution then interDown else interUp;
      trainX := GetResized(trainX, res, interp, rs);
      testX := GetResized(testX, res, interp, rs);
      resolution := res;
    }

    /** `cvt_color(mode)`: train is converted first, then test; a failure leaves the
        containers converted so far in place. */
    method CvtColor(mode: ColorMode) returns (err: Option<Error>)
      requires Valid()
      modifies this
      ensures Valid()
      ensures var tr, te := WithColorspace(old(trainX), mode), WithColorspace(old(testX), mode);
        && (tr.Err? ==> err == Some(tr.error) && trainX == old(trainX) && testX == old(testX))
        && (tr.Ok? && te.Err? ==> err == Some(te.error) && trainX == tr.value && testX == old(testX))
        && (tr.Ok? && te.Ok? ==> err == None && trainX == tr.value && testX == te.value)
      ensures trainY == old(trainY) && testY == old(testY) && resolution == old(resolution)
      ensures transforms == old(transforms) && trainIndex == old(trainIndex) && testIndex == old(testIndex)
    {
      var tr := WithColorspace(trainX, mode);
      if tr.Err? {
        return Some(tr.error);
      }
      if mode.OtherMode? {
        assert |tr.value| == |trainX|;
      }
      trainX := tr.value;
      var te := WithColorspace(testX, mode);
      if te.Err? {
        return Some(te.error);
      }
      testX := te.value;
      err := None;
    }

    /** `invert()`: every image of both splits is bit-wise inverted. */
    method Invert()
      requires Valid()
      modifies this
      ensures Valid()
      ensures trainX == InvertAll(old(trainX)) && testX == InvertAll(old(testX))
      ensures trainY == old(trainY) && testY == old(testY) && resolution == old(resolution)
      ensures transforms == old(transforms) && trainIndex == old(trainIndex) && testIndex == old(testIndex)
    {
      trainX := InvertAll(trainX);
      testX := InvertAll(testX);
    }

    /** `induce_alpha(...)`: with no mode given it averages channels (0, 1, 2), so it never
        raises RuntimeError; train is processed first, then test. */
    method InduceAlpha(average: Option<seq<int>>, zeroValue: Option<int>, maxOf: Option<seq<int>>,
                       invert: bool, averageFn: AverageAlpha) returns (err: Option<Error>)
      requires Valid()
      modifies this
      ensures Valid()
      ensures var mode := InduceAlphaMode(average, zeroValue, maxOf);
        var tr, te := WithAlpha(old(trainX), mode, invert, averageFn), WithAlpha(old(testX), mode, invert, averageFn);
        && (tr.Err? ==> err == Some(tr.error) && trainX == old(trainX) && testX == old(testX))
        && (tr.Ok? && te.Err? ==> err == Some(te.error) && trainX == tr.value && testX == old(testX))
        && (tr.Ok? && te.Ok? ==> err == None && trainX == tr.value && testX == te.value)
      ensures trainY == old(trainY) && testY == old(testY) && resolution == old(resolution)
      ensures transforms == old(transforms) && trainIndex == old(trainIndex) && testIndex == old(testIndex)
    {
      var mode := InduceAlphaMode(average, zeroValue, maxOf);
      var tr := WithAlpha(trainX, mode, invert, averageFn);
      if tr.Err? {
        return Some(tr.error);
      }
      trainX := tr.value;
      var te := WithAlpha(testX, mode, invert, averageFn);
      if te.Err? {
        return Some(te.error);
      }
      testX := te.value;
      err := None;
    }

    /** `_split(digits, labels)` with the override of the variant: the empty dataset always
        cuts by position, the validation dataset puts everything in test, every other
        variant cuts `shuffled` (or the identity order) at `n*9/10`. */
    method Split(digits: seq<Image>, labels: seq<int>, shuffled: seq<int>)
      requires |digits| == |labels| && IsPermutation(Order(|digits|, shuffled), |digits|)
      modifies this
      ensures Valid()
      ensures variant == Empty ==> Data() == SplitPrefix(digits, labels)
      ensures variant == RealValidation ==> Data() == SplitValidation(digits, labels)
      ensures variant != Empty && variant != RealValidation ==>
        Data() == SplitByOrder(digits, labels, Order(|digits|, shuffled))
      ensures resolution == old(resolution) && transforms == old(transforms)
      ensures trainIndex == old(trainIndex) && testIndex == old(testIndex)
    {
      SplitUnshuffled(digits, labels);
      var d: Splits;
      if variant == Empty {
        d := SplitPrefix(digits, labels);
      } else if variant == RealValidation {
        d := SplitValidation(digits, labels);
      } else {
        var order := Order(|digits|, shuffled);
        d := SplitByOrder(digits, labels, order);
        SplitByOrderSpec(digits, labels, order);
      }
      trainX, trainY, testX, testY := d.trainX, d.trainY, d.testX, d.testY;
    }

    /** Rebuilds both per-class indices over `classes`. */
    method BuildIndex(classes: set<int>)
      modifies this
      ensures trainIndex == ClassIndex(trainY, classes) && testIndex == ClassIndex(testY, classes)
      ensures Data() == old(Data()) && Snapshot() == old(Snapshot()) && transforms == old(transforms)
    {
      trainIndex := ClassIndex(trainY, classes);
      testIndex := ClassIndex(testY, classes);
    }

    /** `MNIST._load`: the first 60000 positions of the (shuffled) order are train, the
        remaining 10000 test, and the index covers the digits 0..9. */
    method LoadMnist(x: seq<Image>, y: seq<int>, shuffled: seq<int>)
      requires |x| == MnistCount && |y| == MnistCount && IsPermutation(Order(MnistCount, shuffled), MnistCount)
      modifies this
      ensures Valid()
      ensures Data() == SplitAt(x, y, Order(MnistCount, shuffled), MnistTrainCount)
      ensures |trainX| == MnistTrainCount && |testX| == MnistCount - MnistTrainCount
      ensures trainIndex == ClassIndex(trainY, ClassesInRange(0, 10))
      ensures testIndex == ClassIndex(testY, ClassesInRange(0, 10))
      ensures resolution == old(resolution) && transforms == old(transforms)
    {
      GatherRange(x);
      var order := Order(MnistCount, shuffled);
      var d := SplitAt(x, y, order, MnistTrainCount);
      trainX, trainY, testX, testY := d.trainX, d.trainY, d.testX, d.testY;
      BuildIndex(ClassesInRange(0, 10));
    }

    /** `FilteredMNIST.__init__` after loading: every label-0 sample is dropped from both
        splits (labels themselves unchanged) and the index covers 1..9. */
    method DropZeros()
      requires Valid()
      modifies this
      ensures Valid()
      ensures Data() == DropNonPositive(old(Data()))
      ensures trainIndex == ClassIndex(trainY, ClassesInRange(1, 10))
      ensures testIndex == ClassIndex(testY, ClassesInRange(1, 10))
      ensures resolution == old(resolution) && transforms == old(transforms)
    {
      DropNonPositivePaired(Data());
      var d := DropNonPositive(Data());
      trainX, trainY, testX, testY := d.trainX, d.trainY, d.testX, d.testY;
      BuildIndex(ClassesInRange(1, 10));
    }

    /** `ClassSeparateMNIST.__init__` after filtering: labels are remapped by
        `SeparateLabel`, so digits 1..9 become 11..19, and the index covers 11..19 and the
        OUT class. */
    method SeparateClasses()
      requires Valid()
      modifies this
      ensures Valid()
      ensures Data() == MapSplitLabels(old(Data()), y => SeparateLabel(SimScheme, y))
      ensures trainIndex == ClassIndex(trainY, ClassesInRange(11, 20) + {ClassOut(SimScheme)})
      ensures testIndex == ClassIndex(testY, ClassesInRange(11, 20) + {ClassOut(SimScheme)})
      ensures resolution == old(resolution) && transforms == old(transforms)
    {
      var d := MapSplitLabels(Data(), y => SeparateLabel(SimScheme, y));
      trainY, testY := d.trainY, d.testY;
      BuildIndex(ClassesInRange(11, 20) + {ClassOut(SimScheme)});
    }

    /** `CuratedCharactersDataset._load`: each file's label comes from the code point of
        its character directory, the stack is split, and the index covers the dataset's
        nine digit classes and OUT. */
    method LoadCurated(images: seq<Image>, fileChars: seq<int>, shuffled: seq<int>)
      requires |images| == |fileChars| && IsPermutation(Order(|images|, shuffled), |images|)
      requires variant == Curated || variant == ClassSeparateCurated
      modifies this
      ensures Valid()
      ensures Data() == SplitByOrder(images, MapLabels(fileChars, c => GetLabel(SimScheme, c, DigitOffset())),
                                     Order(|images|, shuffled))
      ensures var classes := ClassesInRange(1 + DigitOffset(), 10 + DigitOffset()) + {ClassOut(SimScheme)};
        trainIndex == ClassIndex(trainY, classes) && testIndex == ClassIndex(testY, classes)
      ensures resolution == old(resolution) && transforms == old(transforms)
    {
      var labels := MapLabels(fileChars, c => GetLabel(SimScheme, c, DigitOffset()));
      Split(images, labels, shuffled);
      BuildIndex(ClassesInRange(1 + DigitOffset(), 10 + DigitOffset()) + {ClassOut(SimScheme)});
    }

    /** `PrerenderedDigitDataset._load`: `count` images per digit in digit order, labelled
        1..9, then split. */
    method LoadPrerendered(images: seq<Image>, count: nat, shuffled: seq<int>)
      requires |images| == 9 * count && IsPermutation(Order(|images|, shuffled), |images|)
      requires variant == Prerendered
      modifies this
      ensures Valid()
      ensures Data() == SplitByOrder(images, PrerenderedLabels(SimScheme, count),
                                     Order(|images|, shuffled))
      ensures trainIndex == old(trainIndex) && testIndex == old(testIndex)
      ensures resolution == old(resolution) && transforms == old(transforms)
    {
      Split(images, PrerenderedLabels(SimScheme, count), shuffled);
    }

    /** `EmptyDataset._load`: `size` black images of the dataset's side, labelled EMPTY,
        cut by position. */
    method LoadEmpty(size: nat)
      requires variant == Empty
      modifies this
      ensures Valid()
      ensures var blank := ZeroImage(resolution);
        Data() == SplitPrefix(seq(size, _ => blank), seq(size, _ => ClassEmpty(SimScheme)))
      ensures forall i :: 0 <= i < |trainY| ==> trainY[i] == ClassEmpty(SimScheme)
      ensures forall i :: 0 <= i < |trainX| ==> trainX[i] == ZeroImage(resolution)
      ensures forall i :: 0 <= i < |testX| ==> testX[i] == ZeroImage(resolution)
      ensures |trainX| == TrainCount(size) && |trainX| + |testX| == size
      ensures resolution == old(resolution) && transforms == old(transforms)
      ensures trainIndex == old(trainIndex) && testIndex == old(testIndex)
    {
      var blank := ZeroImage(resolution);
      var images := seq(size, _ => blank);
      Split(images, seq(size, _ => ClassEmpty(SimScheme)), Range(size));
      assert trainX == images[..TrainCount(size)] && testX == images[TrainCount(size)..];
    }

    /** `RealDataset._load` once the 81-label folders are read: with the old scheme the
        labels 0 and 10 are swapped, then the variant's split applies. */
    method LoadReal(images: seq<Image>, labels: seq<int>, oldScheme: bool, shuffled: seq<int>)
      requires |images| == |labels| && IsPermutation(Order(|images|, shuffled), |images|)
      requires variant == Real || variant == RealValidation
      modifies this
      ensures Valid()
      ensures var ls := if oldScheme then MapLabels(labels, SwapOldScheme) else labels;
        && (variant == RealValidation ==> Data() == SplitValidation(images, ls))
        && (variant == Real ==> Data() == SplitByOrder(images, ls, Order(|images|, shuffled)))
      ensures resolution == old(resolution) && transforms == old(transforms)
      ensures trainIndex == old(trainIndex) && testIndex == old(testIndex)
    {
      var ls := if oldScheme then MapLabels(labels, SwapOldScheme) else labels;
      Split(images, ls, shuffled);
    }

    /** `ConcatDataset.__init__` on the dataset `super().__init__(res)` builds with its
        defaults (shuffling, fast interpolations, an empty queue): the inputs are
        concatenated into grey arrays of the first input's side and the index covers all
        twenty classes; an image that does not fit those arrays raises ValueError. */
    method LoadConcat(ds: seq<State>, rs: Resizer) returns (err: Option<Error>)
      requires Valid()
      requires shuffle && interDown == DownInterpolation(true) && interUp == UpInterpolation(true)
      requires transforms == []
      requires StatesPaired(ds)
      modifies this
      ensures Valid()
      ensures ds == [] ==> err == Some(AssertionError) && Data() == old(Data())
      ensures ds != [] && !FitsGrayArrays(Aligned(ds, rs), ds[0].resolution) ==>
        err == Some(ValueError) && Data() == old(Data()) && resolution == old(resolution)
      ensures ds != [] && FitsGrayArrays(Aligned(ds, rs), ds[0].resolution) ==>
        && err == None && resolution == ds[0].resolution
        && Data() == ConcatSplits(Aligned(ds, rs))
        && trainIndex == ClassIndex(trainY, ClassesInRange(0, 20))
        && testIndex == ClassIndex(testY, ClassesInRange(0, 20))
      ensures transforms == []
    {
      var r := ConcatDatasets(ds, rs);
      if r.Err? {
        return Some(r.error);
      }
      ConcatDatasetsSpec(ds, rs, 0, 0);
      resolution := ds[0].resolution;
      trainX, trainY, testX, testY := r.value.trainX, r.value.trainY, r.value.testX, r.value.testY;
      BuildIndex(ClassesInRange(0, 20));
      err := None;
    }
  }
}
