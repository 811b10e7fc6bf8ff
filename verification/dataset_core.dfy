/** What the two copies of the dataset module (simulation/data/dataset.py and
    digit/digit_dataset.py) have in common: the class map, the path and label helpers,
    the four parallel split containers, and the specifications of transform expansion,
    the 90/10 split, concatenation, the per-class index and the label remaps. */
module DatasetCore {
  import opened Base
  import opened Images

  /** The two modules disagree on the class map. simulation/data/dataset.py uses
      {0: EMPTY, 1..9: machine digit, 10: OUT, 11..19: handwritten digit};
      digit/digit_dataset.py swaps the meaning of 0 and 10. */
  datatype Scheme = SimScheme | DigitScheme

  function ClassEmpty(s: Scheme): int { if s.SimScheme? then 0 else 10 }
  function ClassOut(s: Scheme): int { if s.SimScheme? then 10 else 0 }

  lemma SchemesSwapEmptyAndOut()
    ensures ClassEmpty(SimScheme) == ClassOut(DigitScheme) == 0
    ensures ClassOut(SimScheme) == ClassEmpty(DigitScheme) == 10
  {
  }

  /*** Paths and character labels ***/

  predicate EndsWith(s: string, suffix: string)
  {
    |suffix| <= |s| && s[|s| - |suffix|..] == suffix
  }

  /** The archive suffixes, in the order the loop tries them. */
  const ArchiveExts: seq<string> := [".zip", ".tar", ".tar.gz"]

  /** A path ends with at most one of the archive suffixes: their last characters differ,
      except for ".zip" and ".tar" whose third-to-last characters differ. */
  lemma ArchiveExtsExclusive(path: string)
    ensures !(EndsWith(path, ".zip") && EndsWith(path, ".tar"))
    ensures !(EndsWith(path, ".zip") && EndsWith(path, ".tar.gz"))
    ensures !(EndsWith(path, ".tar") && EndsWith(path, ".tar.gz"))
  {
  }

  /** `strip_file_ext`: the loop remembers the last suffix the path ends with and cuts
      it off; a path with none of the suffixes is returned unchanged. */
  method StripFileExt(path: string) returns (r: string)
    ensures forall e :: e in ArchiveExts && EndsWith(path, e) ==> r + e == path
    ensures (forall e :: e in ArchiveExts ==> !EndsWith(path, e)) ==> r == path
  {
    var extension: Option<string> := None;
    var k := 0;
    while k < |ArchiveExts|
      invariant 0 <= k <= |ArchiveExts|
      invariant extension.Some? ==> extension.value in ArchiveExts[..k] && EndsWith(path, extension.value)
      invariant extension.None? ==> forall e :: e in ArchiveExts[..k] ==> !EndsWith(path, e)
    {
      if EndsWith(path, ArchiveExts[k]) {
        extension := Some(ArchiveExts[k]);
      }
      k := k + 1;
    }
    assert ArchiveExts[..k] == ArchiveExts;
    if extension.Some? {
      r := path[..|path| - |extension.value|];
      assert r + extension.value == path;
      ArchiveExtsExclusive(path);
    } else {
      r := path;
    }
  }

  /** `char_is_valid_number`: the code point is one of '1'..'9' ('0' excluded). */
  predicate CharIsValidNumber(code: int)
  {
    '1' as int <= code <= '9' as int
  }

  /** `get_label`: a digit 1..9 gets its value plus the dataset's digit offset; every
      other code point is the OUT class of the scheme. */
  function GetLabel(s: Scheme, code: int, digitOffset: int): (r: int)
    ensures CharIsValidNumber(code) ==> r == code - '0' as int + digitOffset
    ensures !CharIsValidNumber(code) ==> r == ClassOut(s)
  {
    if CharIsValidNumber(code) then code - '0' as int + digitOffset else ClassOut(s)
  }

  /** With the offsets the datasets use (0 for machine digits, 10 for handwritten ones),
      a digit never collides with the OUT class: the label is OUT exactly when the
      code point is not '1'..'9', and digit labels land in 1..9 or 11..19. */
  lemma GetLabelSeparatesOut(s: Scheme, code: int, digitOffset: int)
    requires digitOffset == 0 || digitOffset == 10
    ensures GetLabel(s, code, digitOffset) == ClassOut(s) <==> !CharIsValidNumber(code)
    ensures CharIsValidNumber(code) ==>
      digitOffset + 1 <= GetLabel(s, code, digitOffset) <= digitOffset + 9
  {
  }

  /*** The four parallel containers ***/

  /** A dataset's `train_x`, `train_y`, `test_x`, `test_y`. */
  datatype Splits = Splits(trainX: seq<Image>, trainY: seq<int>, testX: seq<Image>, testY: seq<int>)
  {
    /** Images and labels are co-indexed within each split. */
    predicate Paired()
    {
      |trainX| == |trainY| && |testX| == |testY|
    }
  }

  /** The OpenCV interpolation codes the two dataset modules choose from. */
  datatype Interpolation = Nearest | Linear | Cubic | Area | Lanczos4

  /** `cv2.resize(img, (res, res), interpolation=...)`. */
  type Resizer = (Image, nat, Interpolation) -> Image

  /** The part of a dataset that resizing and concatenation read: its resolution, its
      interpolation choices and its containers. */
  datatype State = State(resolution: nat, interDown: Interpolation, interUp: Interpolation, data: Splits)

  /** Every input keeps its images and labels co-indexed. */
  predicate StatesPaired(ds: seq<State>)
  {
    forall i :: 0 <= i < |ds| ==> |ds[i].data.trainX| == |ds[i].data.trainY| && |ds[i].data.testX| == |ds[i].data.testY|
  }

  /*** Transform expansion ***/

  /** One block: a transform sequence applied to every image, in order. */
  function MapCompose(ts: seq<Transform>, xs: seq<Image>): (r: seq<Image>)
    ensures |r| == |xs|
    ensures forall j :: 0 <= j < |xs| ==> r[j] == Compose(ts, xs[j])
  {
    seq(|xs|, j requires 0 <= j < |xs| => Compose(ts, xs[j]))
  }

  /** The blocks of all transform sequences, in the order the sequences were added. */
  function Blocks(xs: seq<Image>, seqs: seq<seq<Transform>>): seq<Image>
  {
    if seqs == [] then [] else Blocks(xs, seqs[..|seqs| - 1]) + MapCompose(seqs[|seqs| - 1], xs)
  }

  function KeepCount(keep: bool): nat { if keep then 1 else 0 }

  /** The images after `apply_transforms`: the originals first when `keep`, then one block
      per transform sequence. */
  function Expand(xs: seq<Image>, seqs: seq<seq<Transform>>, keep: bool): seq<Image>
  {
    (if keep then xs else []) + Blocks(xs, seqs)
  }

  /** The whole dataset after `apply_transforms` with a non-empty queue: images
      expanded, labels tiled `keep + k` times. */
  function ExpandSplits(d: Splits, seqs: seq<seq<Transform>>, keep: bool): Splits
  {
    var copies := KeepCount(keep) + |seqs|;
    Splits(Expand(d.trainX, seqs, keep), Tile(d.trainY, copies),
           Expand(d.testX, seqs, keep), Tile(d.testY, copies))
  }

  /** Two images fit the same slot of a numpy stack: the same kind and the same rows. */
  predicate SameImageShape(a: Image, b: Image)
  {
    || (a.Gray? && b.Gray? && SameShape(a.gray, b.gray))
    || (a.Color? && b.Color? && SameShape(a.color, b.color))
  }

  /** The stack holds BGRA images, so its array has four dimensions. */
  predicate ColorStack(xs: seq<Image>)
  {
    exists k :: 0 <= k < |xs| && xs[k].Color?
  }

  /** Every queued sequence turns every image of `xs` into one of the same shape. */
  predicate KeepsShapes(xs: seq<Image>, seqs: seq<seq<Transform>>)
  {
    forall b, j :: 0 <= b < |seqs| && 0 <= j < |xs| ==> SameImageShape(Compose(seqs[b], xs[j]), xs[j])
  }

  /** When `apply_transforms` raises ValueError: `shape * [keep + k, 1, 1]` cannot
      broadcast the four-entry shape of a colour stack, and the write of a transformed
      image into its slot fails when the image changed shape. */
  predicate ExpandRaises(d: Splits, seqs: seq<seq<Transform>>)
  {
    ColorStack(d.trainX) || ColorStack(d.testX) || !KeepsShapes(d.trainX, seqs) || !KeepsShapes(d.testX, seqs)
  }

  /** `apply_transforms` with a non-empty queue: ValueError exactly when `ExpandRaises`,
      and the expansion otherwise. */
  function ExpandChecked(d: Splits, seqs: seq<seq<Transform>>, keep: bool): (r: Result<Splits>)
    ensures r.Err? <==> ExpandRaises(d, seqs)
    ensures r.Err? ==> r.error == ValueError
    ensures r.Ok? ==> r.value == ExpandSplits(d, seqs, keep)
  {
    if ExpandRaises(d, seqs) then Err(ValueError) else Ok(ExpandSplits(d, seqs, keep))
  }

  /** A non-empty colour split makes expansion fail, whatever the queue holds. */
  lemma ColorSplitRaises(d: Splits, seqs: seq<seq<Transform>>, keep: bool, k: nat)
    requires k < |d.trainX| && d.trainX[k].Color?
    ensures ExpandChecked(d, seqs, keep) == Err(ValueError)
  {
  }

  /** A grey dataset whose queued sequences keep every image's shape expands without
      error, and its expansion is again grey. */
  lemma {:induction false} GrayShapeKeepingExpands(d: Splits, seqs: seq<seq<Transform>>, keep: bool)
    requires forall k :: 0 <= k < |d.trainX| ==> d.trainX[k].Gray?
    requires forall k :: 0 <= k < |d.testX| ==> d.testX[k].Gray?
    requires KeepsShapes(d.trainX, seqs) && KeepsShapes(d.testX, seqs)
    ensures ExpandChecked(d, seqs, keep) == Ok(ExpandSplits(d, seqs, keep))
    ensures !ColorStack(ExpandSplits(d, seqs, keep).trainX) && !ColorStack(ExpandSplits(d, seqs, keep).testX)
  {
    ExpandStaysGray(d.trainX, seqs, keep);
    ExpandStaysGray(d.testX, seqs, keep);
  }

  lemma ExpandStaysGray(xs: seq<Image>, seqs: seq<seq<Transform>>, keep: bool)
    requires forall k :: 0 <= k < |xs| ==> xs[k].Gray?
    requires KeepsShapes(xs, seqs)
    ensures forall p :: 0 <= p < |Expand(xs, seqs, keep)| ==> Expand(xs, seqs, keep)[p].Gray?
  {
    BlocksGray(xs, seqs);
  }

  lemma {:induction false} BlocksGray(xs: seq<Image>, seqs: seq<seq<Transform>>)
    requires forall k :: 0 <= k < |xs| ==> xs[k].Gray?
    requires KeepsShapes(xs, seqs)
    ensures forall p :: 0 <= p < |Blocks(xs, seqs)| ==> Blocks(xs, seqs)[p].Gray?
  {
    if seqs != [] {
      var last := |seqs| - 1;
      assert KeepsShapes(xs, seqs[..last]) by {
        forall b, j | 0 <= b < last && 0 <= j < |xs|
          ensures SameImageShape(Compose(seqs[..last][b], xs[j]), xs[j])
        {
          assert seqs[..last][b] == seqs[b];
        }
      }
      BlocksGray(xs, seqs[..last]);
      var block := MapCompose(seqs[last], xs);
      forall j | 0 <= j < |xs| ensures block[j].Gray? {
        assert SameImageShape(Compose(seqs[last], xs[j]), xs[j]);
      }
    }
  }

  lemma {:induction false} BlocksLength(xs: seq<Image>, seqs: seq<seq<Transform>>)
    ensures |Blocks(xs, seqs)| == |xs| * |seqs|
  {
    if seqs != [] {
      BlocksLength(xs, seqs[..|seqs| - 1]);
      assert |xs| * |seqs| == |xs| * (|seqs| - 1) + |xs|;
    }
  }

  /** Cell `n*b + j` of the blocks holds sequence `b` applied to image `j`. */
  lemma {:induction false} BlocksAt(xs: seq<Image>, seqs: seq<seq<Transform>>, b: nat, j: nat)
    requires b < |seqs| && j < |xs|
    ensures |xs| * b + j < |Blocks(xs, seqs)|
    ensures Blocks(xs, seqs)[|xs| * b + j] == Compose(seqs[b], xs[j])
  {
    var last := |seqs| - 1;
    BlocksLength(xs, seqs);
    BlocksLength(xs, seqs[..last]);
    assert |xs| * |seqs| == |xs| * last + |xs|;
    if b < last {
      BlocksAt(xs, seqs[..last], b, j);
      assert |xs| * b + j < |xs| * last;
    } else {
      assert |xs| * b == |xs| * last;
    }
  }

  /** What expansion promises for one split: `ex`/`ey` hold `n*(keep+k)` samples, with
      `keep` the first `n` images are the originals, and cell `n*(keep+b) + j` holds
      sequence `b` applied to image `j` with the label of image `j`. */
  predicate ExpandedSide(xs: seq<Image>, ys: seq<int>, seqs: seq<seq<Transform>>, keep: bool,
                         ex: seq<Image>, ey: seq<int>)
  {
    var m := KeepCount(keep) + |seqs|;
    && |ex| == |xs| * m && |ey| == |xs| * m
    && |ys| == |xs|
    && (keep ==> |xs| <= |ex| && ex[..|xs|] == xs)
    && (forall b, j :: 0 <= b < |seqs| && 0 <= j < |xs| ==> ExpandedCell(xs, ys, seqs, keep, ex, ey, b, j))
  }

  /** Cell `n*(keep+b) + j` holds sequence `b` applied to image `j`, labelled like image `j`. */
  predicate ExpandedCell(xs: seq<Image>, ys: seq<int>, seqs: seq<seq<Transform>>, keep: bool,
                         ex: seq<Image>, ey: seq<int>, b: nat, j: nat)
    requires b < |seqs| && j < |xs| && |ys| == |xs|
  {
    var p := |xs| * (KeepCount(keep) + b) + j;
    p < |ex| && p < |ey| && ex[p] == Compose(seqs[b], xs[j]) && ey[p] == ys[j]
  }

  /** Transform expansion multiplies every split by `keep + k` and keeps images paired
      with their labels; train and test are treated alike and independently. */
  lemma ExpandSplitsSpec(d: Splits, seqs: seq<seq<Transform>>, keep: bool)
    requires d.Paired()
    ensures ExpandSplits(d, seqs, keep).Paired()
    ensures ExpandedSide(d.trainX, d.trainY, seqs, keep, ExpandSplits(d, seqs, keep).trainX, ExpandSplits(d, seqs, keep).trainY)
    ensures ExpandedSide(d.testX, d.testY, seqs, keep, ExpandSplits(d, seqs, keep).testX, ExpandSplits(d, seqs, keep).testY)
  {
    ExpandSide(d.trainX, d.trainY, seqs, keep);
    ExpandSide(d.testX, d.testY, seqs, keep);
  }

  lemma MulAddRight(n: nat, a: nat, b: nat)
    ensures n * (a + b) == n * a + n * b
  {
  }

  /** Cell `n*(keep+b) + j` of an expanded split and its tiled label. */
  lemma ExpandAt(xs: seq<Image>, ys: seq<int>, seqs: seq<seq<Transform>>, keep: bool, b: nat, j: nat)
    requires |xs| == |ys| && b < |seqs| && j < |xs|
    ensures ExpandedCell(xs, ys, seqs, keep, Expand(xs, seqs, keep), Tile(ys, KeepCount(keep) + |seqs|), b, j)
  {
    var n, c := |xs|, KeepCount(keep) + b;
    ExpandAtImage(xs, seqs, keep, b, j);
    TileAt(ys, KeepCount(keep) + |seqs|, c, j);
    assert |ys| == n;
  }

  lemma ExpandAtImage(xs: seq<Image>, seqs: seq<seq<Transform>>, keep: bool, b: nat, j: nat)
    requires b < |seqs| && j < |xs|
    ensures var p := |xs| * (KeepCount(keep) + b) + j;
      p < |Expand(xs, seqs, keep)| && Expand(xs, seqs, keep)[p] == Compose(seqs[b], xs[j])
  {
    var n, k := |xs|, KeepCount(keep);
    var pre, bl := if keep then xs else [], Blocks(xs, seqs);
    assert |pre| == n * k by {
      if keep { assert n * k == n; } else { assert n * k == 0; }
    }
    MulAddRight(n, k, b);
    BlocksAt(xs, seqs, b, j);
    ConcatIndex(pre, bl, n * b + j);
  }

  lemma ConcatIndex<T>(pre: seq<T>, rest: seq<T>, q: nat)
    requires q < |rest|
    ensures |pre| + q < |pre + rest| && (pre + rest)[|pre| + q] == rest[q]
  {
  }

  lemma ExpandSide(xs: seq<Image>, ys: seq<int>, seqs: seq<seq<Transform>>, keep: bool)
    requires |xs| == |ys|
    ensures ExpandedSide(xs, ys, seqs, keep, Expand(xs, seqs, keep), Tile(ys, KeepCount(keep) + |seqs|))
  {
    var m := KeepCount(keep) + |seqs|;
    ExpandLength(xs, seqs, keep);
    TileLength(ys, m);
    ExpandKeepsOriginals(xs, seqs, keep);
    ExpandCells(xs, ys, seqs, keep, Expand(xs, seqs, keep), Tile(ys, m));
  }

  /** Every transformed cell of an expanded split, with its label. */
  lemma ExpandCells(xs: seq<Image>, ys: seq<int>, seqs: seq<seq<Transform>>, keep: bool, ex: seq<Image>, ey: seq<int>)
    requires |xs| == |ys| && ex == Expand(xs, seqs, keep) && ey == Tile(ys, KeepCount(keep) + |seqs|)
    ensures forall b, j :: 0 <= b < |seqs| && 0 <= j < |xs| ==> ExpandedCell(xs, ys, seqs, keep, ex, ey, b, j)
  {
    forall b: nat, j: nat | b < |seqs| && j < |xs|
      ensures ExpandedCell(xs, ys, seqs, keep, ex, ey, b, j)
    {
      ExpandAt(xs, ys, seqs, keep, b, j);
    }
  }

  /** With `keep` the originals lead the expansion. */
  lemma ExpandKeepsOriginals(xs: seq<Image>, seqs: seq<seq<Transform>>, keep: bool)
    ensures keep ==> |xs| <= |Expand(xs, seqs, keep)| && Expand(xs, seqs, keep)[..|xs|] == xs
  {
    if keep {
      assert Expand(xs, seqs, keep) == xs + Blocks(xs, seqs);
    }
  }

  /*** The 90/10 split ***/

  /** `int(n * 0.9)`, the size of the train split. */
  function TrainCount(n: nat): (r: nat)
    ensures r <= n
  {
    n * 9 / 10
  }

  /** The images and labels at the first `t` positions of `order` go to train, the rest
      to test. */
  function SplitAt(digits: seq<Image>, labels: seq<int>, order: seq<int>, t: nat): Splits
    requires |digits| == |labels| && IsPermutation(order, |digits|) && t <= |digits|
  {
    Splits(Gather(digits, order[..t]), Gather(labels, order[..t]),
           Gather(digits, order[t..]), Gather(labels, order[t..]))
  }

  /** `_split`: a cut at `TrainCount(n)`; `order` is `np.arange(n)`, shuffled when the
      dataset shuffles. */
  function SplitByOrder(digits: seq<Image>, labels: seq<int>, order: seq<int>): Splits
    requires |digits| == |labels| && IsPermutation(order, |digits|)
  {
    SplitAt(digits, labels, order, TrainCount(|digits|))
  }

  /** The split puts `n*9/10` samples in train and the rest in test, keeps every
      image with its label, and draws every position of the input exactly once. */
  lemma {:induction false} SplitByOrderSpec(digits: seq<Image>, labels: seq<int>, order: seq<int>)
    requires |digits| == |labels| && IsPermutation(order, |digits|)
    ensures var s, t := SplitByOrder(digits, labels, order), TrainCount(|digits|);
      && s.Paired()
      && |s.trainX| == t && |s.trainX| + |s.testX| == |digits|
      && (forall i :: 0 <= i < t ==> s.trainX[i] == digits[order[i]] && s.trainY[i] == labels[order[i]])
      && (forall i :: t <= i < |digits| ==>
            s.testX[i - t] == digits[order[i]] && s.testY[i - t] == labels[order[i]])
  {
    var t := TrainCount(|digits|);
    assert AllBelow(order, |digits|);
    GatherCut(digits, order, t);
    GatherCut(labels, order, t);
  }

  /** Gathering with the two halves of a cut index sequence. */
  lemma GatherCut<T>(xs: seq<T>, order: seq<int>, t: nat)
    requires AllBelow(order, |xs|) && t <= |order|
    ensures AllBelow(order[..t], |xs|) && AllBelow(order[t..], |xs|)
    ensures forall i :: 0 <= i < t ==> Gather(xs, order[..t])[i] == xs[order[i]]
    ensures forall i :: t <= i < |order| ==> Gather(xs, order[t..])[i - t] == xs[order[i]]
  {
    var train, test := order[..t], order[t..];
    assert forall i :: 0 <= i < |train| ==> train[i] == order[i];
    assert forall i :: 0 <= i < |test| ==> test[i] == order[t + i];
    forall i | t <= i < |order|
      ensures Gather(xs, test)[i - t] == xs[order[i]]
    {
      assert test[i - t] == order[i];
    }
  }

  /** Unshuffled, train is the prefix and test the suffix of the input. */
  lemma SplitUnshuffled(digits: seq<Image>, labels: seq<int>)
    requires |digits| == |labels|
    ensures IsPermutation(Range(|digits|), |digits|)
    ensures var s, t := SplitByOrder(digits, labels, Range(|digits|)), TrainCount(|digits|);
      s == Splits(digits[..t], labels[..t], digits[t..], labels[t..])
  {
    var n, t := |digits|, TrainCount(|digits|);
    var s := SplitByOrder(digits, labels, Range(n));
    assert s.trainX == digits[..t];
    assert s.trainY == labels[..t];
    assert forall i :: 0 <= i < n - t ==> Range(n)[t..][i] == t + i;
    assert s.testX == digits[t..];
    assert s.testY == labels[t..];
  }

  /** `EmptyDataset._split`: always the prefix/suffix split, whatever `shuffle` says. */
  function SplitPrefix(data: seq<Image>, labels: seq<int>): (r: Splits)
    requires |data| == |labels|
    ensures r == SplitByOrder(data, labels, Range(|data|))
  {
    SplitUnshuffled(data, labels);
    var t := TrainCount(|data|);
    Splits(data[..t], labels[..t], data[t..], labels[t..])
  }

  /** `RealValidationDataset._split`: nothing in train, everything in test. */
  function SplitValidation(data: seq<Image>, labels: seq<int>): (r: Splits)
    ensures r.trainX == [] && r.trainY == []
    ensures r.testX == data && r.testY == labels
  {
    Splits([], [], data, labels)
  }

  /*** Concatenation ***/

  function TrainXs(ds: seq<Splits>): (r: seq<seq<Image>>)
    ensures |r| == |ds| && forall k :: 0 <= k < |ds| ==> r[k] == ds[k].trainX
  { seq(|ds|, k requires 0 <= k < |ds| => ds[k].trainX) }

  function TrainYs(ds: seq<Splits>): (r: seq<seq<int>>)
    ensures |r| == |ds| && forall k :: 0 <= k < |ds| ==> r[k] == ds[k].trainY
  { seq(|ds|, k requires 0 <= k < |ds| => ds[k].trainY) }

  function TestXs(ds: seq<Splits>): (r: seq<seq<Image>>)
    ensures |r| == |ds| && forall k :: 0 <= k < |ds| ==> r[k] == ds[k].testX
  { seq(|ds|, k requires 0 <= k < |ds| => ds[k].testX) }

  function TestYs(ds: seq<Splits>): (r: seq<seq<int>>)
    ensures |r| == |ds| && forall k :: 0 <= k < |ds| ==> r[k] == ds[k].testY
  { seq(|ds|, k requires 0 <= k < |ds| => ds[k].testY) }

  predicate AllPaired(ds: seq<Splits>)
  {
    forall k :: 0 <= k < |ds| ==> ds[k].Paired()
  }

  /** The concatenation of datasets, split by split, in argument order. */
  function ConcatSplits(ds: seq<Splits>): Splits
  {
    Splits(Flatten(TrainXs(ds)), Flatten(TrainYs(ds)), Flatten(TestXs(ds)), Flatten(TestYs(ds)))
  }

  /** Equal lengths part by part give equal totals. */
  lemma {:induction false} TotalLengthsAgree<A, B>(xs: seq<seq<A>>, ys: seq<seq<B>>)
    requires |xs| == |ys| && forall k :: 0 <= k < |xs| ==> |xs[k]| == |ys[k]|
    ensures TotalLength(xs) == TotalLength(ys)
  {
    if xs != [] {
      TotalLengthsAgree(xs[..|xs| - 1], ys[..|ys| - 1]);
    }
  }

  /** Concatenated sizes are the sums of the inputs' sizes, the result is paired, and
      sample `j` of input `k` sits at the running offset of the inputs before it. */
  lemma ConcatSplitsSpec(ds: seq<Splits>, k: nat, j: nat)
    requires AllPaired(ds) && k < |ds|
    ensures var c := ConcatSplits(ds);
      && c.Paired()
      && |c.trainX| == TotalLength(TrainXs(ds)) && |c.testX| == TotalLength(TestXs(ds))
      && (j < |ds[k].trainX| ==>
            var p := TotalLength(TrainXs(ds)[..k]) + j;
            p < |c.trainX| && c.trainX[p] == ds[k].trainX[j] && c.trainY[p] == ds[k].trainY[j])
      && (j < |ds[k].testX| ==>
            var p := TotalLength(TestXs(ds)[..k]) + j;
            p < |c.testX| && c.testX[p] == ds[k].testX[j] && c.testY[p] == ds[k].testY[j])
  {
    ConcatSplitsLengths(ds);
    if j < |ds[k].trainX| {
      ConcatSplitsTrainAt(ds, k, j);
    }
    if j < |ds[k].testX| {
      ConcatSplitsTestAt(ds, k, j);
    }
  }

  /** What concatenating `parts` promises for input state `k`, whose `k`-th part keeps
      its sizes: the concatenation is paired, holds as many samples as all parts
      together, and sample `j` of the input lands at the running offset with the
      input's label. */
  predicate ConcatPlaces(ds: seq<State>, parts: seq<Splits>, k: nat, j: nat)
    requires k < |ds| && k < |parts| && ds[k].data.Paired()
  {
    var c := ConcatSplits(parts);
    && c.Paired()
    && |c.trainX| == TotalLength(TrainXs(parts)) && |c.testX| == TotalLength(TestXs(parts))
    && |parts[k].trainX| == |ds[k].data.trainX| && |parts[k].testX| == |ds[k].data.testX|
    && (j < |ds[k].data.trainX| ==>
          var p := TotalLength(TrainXs(parts)[..k]) + j;
          p < |c.trainX| && c.trainX[p] == parts[k].trainX[j] && c.trainY[p] == ds[k].data.trainY[j])
    && (j < |ds[k].data.testX| ==>
          var p := TotalLength(TestXs(parts)[..k]) + j;
          p < |c.testX| && c.testX[p] == parts[k].testX[j] && c.testY[p] == ds[k].data.testY[j])
  }

  /** A concatenation of parts that keep the labels and sizes of their input states
      places every input sample as `ConcatPlaces` says. */
  lemma ConcatSplitsOfStates(ds: seq<State>, parts: seq<Splits>, k: nat, j: nat)
    requires AllPaired(parts) && |parts| == |ds| && k < |ds|
    requires |parts[k].trainX| == |ds[k].data.trainX| && |parts[k].testX| == |ds[k].data.testX|
    requires parts[k].trainY == ds[k].data.trainY && parts[k].testY == ds[k].data.testY
    ensures ConcatPlaces(ds, parts, k, j)
  {
    ConcatSplitsSpec(parts, k, j);
  }

  lemma ConcatSplitsLengths(ds: seq<Splits>)
    requires AllPaired(ds)
    ensures var c := ConcatSplits(ds);
      && c.Paired()
      && |c.trainX| == TotalLength(TrainXs(ds)) && |c.testX| == TotalLength(TestXs(ds))
  {
    FlattenLength(TrainXs(ds));
    FlattenLength(TrainYs(ds));
    FlattenLength(TestXs(ds));
    FlattenLength(TestYs(ds));
    TotalLengthsAgree(TrainXs(ds), TrainYs(ds));
    TotalLengthsAgree(TestXs(ds), TestYs(ds));
  }

  lemma ConcatSplitsTrainAt(ds: seq<Splits>, k: nat, j: nat)
    requires AllPaired(ds) && k < |ds| && j < |ds[k].trainX|
    ensures var c, p := ConcatSplits(ds), TotalLength(TrainXs(ds)[..k]) + j;
      p < |c.trainX| && p < |c.trainY| && c.trainX[p] == ds[k].trainX[j] && c.trainY[p] == ds[k].trainY[j]
  {
    TotalLengthsAgree(TrainXs(ds)[..k], TrainYs(ds)[..k]);
    FlattenAt(TrainXs(ds), k, j);
    FlattenAt(TrainYs(ds), k, j);
  }

  lemma ConcatSplitsTestAt(ds: seq<Splits>, k: nat, j: nat)
    requires AllPaired(ds) && k < |ds| && j < |ds[k].testX|
    ensures var c, p := ConcatSplits(ds), TotalLength(TestXs(ds)[..k]) + j;
      p < |c.testX| && p < |c.testY| && c.testX[p] == ds[k].testX[j] && c.testY[p] == ds[k].testY[j]
  {
    TotalLengthsAgree(TestXs(ds)[..k], TestYs(ds)[..k]);
    FlattenAt(TestXs(ds), k, j);
    FlattenAt(TestYs(ds), k, j);
  }


  /** The image fits a slot of a grey `(n, side, side)` array. */
  predicate GrayOfSide(img: Image, side: nat)
  {
    img.Gray? && |img.gray| == side && forall i :: 0 <= i < side ==> |img.gray[i]| == side
  }

  /** A black grey image of the given side, as `np.zeros((side, side))`. */
  function ZeroImage(side: nat): (r: Image)
    ensures GrayOfSide(r, side)
    ensures forall i, j :: 0 <= i < side && 0 <= j < side ==> r.gray[i][j] == 0
  {
    Gray(seq(side, _ => seq(side, _ => 0)))
  }

  /** Every image of every part fits the grey `(n, res, res)` arrays `ConcatDataset`
      allocates. */
  predicate FitsGrayArrays(parts: seq<Splits>, res: nat)
  {
    && (forall k, j :: 0 <= k < |parts| && 0 <= j < |parts[k].trainX| ==> GrayOfSide(parts[k].trainX[j], res))
    && (forall k, j :: 0 <= k < |parts| && 0 <= j < |parts[k].testX| ==> GrayOfSide(parts[k].testX[j], res))
  }

  /** The copy into grey `(n, res, res)` arrays: ValueError when an image of some part
      does not fit its slot (a colour image, or one of another side), the concatenation
      otherwise. */
  function ConcatChecked(parts: seq<Splits>, res: nat): (r: Result<Splits>)
    ensures r.Err? <==> !FitsGrayArrays(parts, res)
    ensures r.Err? ==> r.error == ValueError
    ensures r.Ok? ==> r.value == ConcatSplits(parts)
  {
    if FitsGrayArrays(parts, res) then Ok(ConcatSplits(parts)) else Err(ValueError)
  }

  /** A colour image anywhere in the parts makes the copy fail, and so does a grey image
      of another side. */
  lemma ConcatRejectsMisfit(parts: seq<Splits>, res: nat, k: nat, j: nat)
    requires k < |parts| && j < |parts[k].trainX|
    requires parts[k].trainX[j].Color? || (parts[k].trainX[j].Gray? && |parts[k].trainX[j].gray| != res)
    ensures ConcatChecked(parts, res) == Err(ValueError)
  {
    assert !GrayOfSide(parts[k].trainX[j], res);
  }

  /*** Filling preallocated arrays ***/

  /** The placeholder a freshly allocated image array holds before it is written. */
  const Unwritten: Image := Gray([])

  /** numpy slice assignment `a[off:off + len(src)] = src` where the slice fits. */
  method CopyInto<T>(a: array<T>, off: nat, src: seq<T>)
    requires off + |src| <= a.Length
    modifies a
    ensures a[..off] == old(a[..off])
    ensures a[off..off + |src|] == src
    ensures a[off + |src|..] == old(a[off + |src|..])
  {
    var j := 0;
    while j < |src|
      invariant 0 <= j <= |src|
      invariant a[..off] == old(a[..off])
      invariant a[off..off + j] == src[..j]
      invariant a[off + |src|..] == old(a[off + |src|..])
    {
      a[off + j] := src[j];
      assert a[off..off + j + 1] == a[off..off + j] + [a[off + j]];
      j := j + 1;
    }
  }

  /** A prefix followed by the next slice is the longer prefix. */
  lemma PrefixExtend<T>(s: seq<T>, base: nat, e: seq<T>, m: seq<T>)
    requires base + |m| <= |s| && s[..base] == e && s[base..base + |m|] == m
    ensures s[..base + |m|] == e + m
  {
    assert s[..base + |m|] == s[..base] + s[base..base + |m|];
  }

  lemma ExpandLength(xs: seq<Image>, seqs: seq<seq<Transform>>, keep: bool)
    ensures |Expand(xs, seqs, keep)| == |xs| * (KeepCount(keep) + |seqs|)
  {
    BlocksLength(xs, seqs);
    MulAddRight(|xs|, KeepCount(keep), |seqs|);
  }

  /** The blocks of a prefix of the transform sequences are a prefix of all blocks. */
  lemma {:induction false} BlocksPrefix(xs: seq<Image>, seqs: seq<seq<Transform>>, i: nat)
    requires i <= |seqs|
    ensures Blocks(xs, seqs[..i]) <= Blocks(xs, seqs)
  {
    if i < |seqs| {
      var init := seqs[..|seqs| - 1];
      assert init[..i] == seqs[..i];
      BlocksPrefix(xs, init, i);
    } else {
      assert seqs[..i] == seqs;
    }
  }

  /** One more transform sequence appends one more block. */
  lemma ExpandStep(xs: seq<Image>, seqs: seq<seq<Transform>>, keep: bool, i: nat)
    requires i < |seqs|
    ensures Expand(xs, seqs[..i + 1], keep) == Expand(xs, seqs[..i], keep) + MapCompose(seqs[i], xs)
    ensures Expand(xs, seqs[..i + 1], keep) <= Expand(xs, seqs, keep)
  {
    assert seqs[..i + 1][..i] == seqs[..i];
    BlocksPrefix(xs, seqs, i + 1);
  }

  /** The loop of `apply_transforms` for one split: a preallocated array of `n*(keep+k)`
      images, the originals copied to the front when `keep`, then block `keep+i` written
      with transform sequence `i` applied to each image. */
  method ExpandInto(xs: seq<Image>, seqs: seq<seq<Transform>>, keep: bool) returns (r: seq<Image>)
    ensures r == Expand(xs, seqs, keep)
  {
    var n := |xs|;
    var total := n * (KeepCount(keep) + |seqs|);
    ExpandLength(xs, seqs, keep);
    var a := new Image[total](_ => Unwritten);
    if keep {
      CopyInto(a, 0, xs);
    }
    var base := if keep then n else 0;
    assert a[..base] == Expand(xs, seqs[..0], keep);
    var i := 0;
    while i < |seqs|
      invariant 0 <= i <= |seqs|
      invariant a.Length == |Expand(xs, seqs, keep)|
      invariant base == |Expand(xs, seqs[..i], keep)| <= a.Length
      invariant a[..base] == Expand(xs, seqs[..i], keep)
    {
      ghost var done := Expand(xs, seqs[..i], keep);
      var block := MapCompose(seqs[i], xs);
      ExpandStep(xs, seqs, keep, i);
      CopyInto(a, base, block);
      PrefixExtend(a[..], base, done, block);
      base := base + |block|;
      i := i + 1;
    }
    assert seqs[..i] == seqs;
    r := a[..];
  }

  /** The copy loop of `ConcatDataset` for one of the four containers: every part is
      written at the running offset, in order. */
  method ConcatInto<T>(parts: seq<seq<T>>, fill: T) returns (r: seq<T>)
    ensures r == Flatten(parts)
  {
    FlattenLength(parts);
    var a := new T[TotalLength(parts)](_ => fill);
    var offset := 0;
    var k := 0;
    while k < |parts|
      invariant 0 <= k <= |parts|
      invariant offset == TotalLength(parts[..k]) <= a.Length
      invariant a[..offset] == Flatten(parts[..k])
    {
      assert parts[..k + 1][..k] == parts[..k];
      TotalLengthPrefix(parts, k + 1);
      CopyInto(a, offset, parts[k]);
      PrefixExtend(a[..], offset, Flatten(parts[..k]), parts[k]);
      offset := offset + |parts[k]|;
      k := k + 1;
    }
    assert parts[..k] == parts;
    r := a[..];
  }

  /*** The per-class index ***/

  /** The positions whose label satisfies `keep`, in increasing order: the shape of
      `np.flatnonzero(mask)` and of boolean-mask selection. */
  function Select(labels: seq<int>, keep: int -> bool): seq<int>
  {
    if labels == [] then []
    else Select(labels[..|labels| - 1], keep) + (if keep(labels[|labels| - 1]) then [|labels| - 1] else [])
  }

  /** The selected positions are exactly those whose label satisfies `keep`, each in
      range, in strictly increasing order. */
  lemma {:induction false} SelectSpec(labels: seq<int>, keep: int -> bool)
    ensures forall i :: 0 <= i < |Select(labels, keep)| ==>
      0 <= Select(labels, keep)[i] < |labels| && keep(labels[Select(labels, keep)[i]])
    ensures forall i, j :: 0 <= i < j < |Select(labels, keep)| ==>
      Select(labels, keep)[i] < Select(labels, keep)[j]
    ensures forall p :: 0 <= p < |labels| && keep(labels[p]) ==> p in Select(labels, keep)
  {
    SelectSound(labels, keep);
    SelectIncreasing(labels, keep);
    SelectComplete(labels, keep);
  }

  lemma {:induction false} SelectSound(labels: seq<int>, keep: int -> bool)
    ensures forall i :: 0 <= i < |Select(labels, keep)| ==>
      0 <= Select(labels, keep)[i] < |labels| && keep(labels[Select(labels, keep)[i]])
  {
    if labels != [] {
      var n := |labels| - 1;
      var init := labels[..n];
      var s, s0 := Select(labels, keep), Select(init, keep);
      SelectSound(init, keep);
      forall i | 0 <= i < |s|
        ensures 0 <= s[i] < |labels| && keep(labels[s[i]])
      {
        if i < |s0| {
          assert s[i] == s0[i] && init[s0[i]] == labels[s0[i]];
        }
      }
    }
  }

  lemma {:induction false} SelectIncreasing(labels: seq<int>, keep: int -> bool)
    ensures forall i, j :: 0 <= i < j < |Select(labels, keep)| ==>
      Select(labels, keep)[i] < Select(labels, keep)[j]
  {
    if labels != [] {
      var n := |labels| - 1;
      var init := labels[..n];
      var s, s0 := Select(labels, keep), Select(init, keep);
      SelectIncreasing(init, keep);
      SelectSound(init, keep);
      forall i, j | 0 <= i < j < |s|
        ensures s[i] < s[j]
      {
        assert s[i] == s0[i];
        if j < |s0| {
          assert s[j] == s0[j];
        }
      }
    }
  }

  lemma {:induction false} SelectComplete(labels: seq<int>, keep: int -> bool)
    ensures forall p :: 0 <= p < |labels| && keep(labels[p]) ==> p in Select(labels, keep)
  {
    if labels != [] {
      var n := |labels| - 1;
      var init := labels[..n];
      var s, s0 := Select(labels, keep), Select(init, keep);
      SelectComplete(init, keep);
      forall p | 0 <= p < |labels| && keep(labels[p])
        ensures p in s
      {
        if p < n {
          assert init[p] == labels[p];
          assert p in s0;
        }
      }
    }
  }

  lemma SelectAllBelow(labels: seq<int>, keep: int -> bool)
    ensures AllBelow(Select(labels, keep), |labels|)
  {
    SelectSpec(labels, keep);
  }

  /** `np.flatnonzero(labels == c)`. */
  function Positions(labels: seq<int>, c: int): seq<int>
  {
    Select(labels, y => y == c)
  }

  /** The positions of class `c` are exactly those holding `c`, in increasing order. */
  lemma PositionsSpec(labels: seq<int>, c: int)
    ensures forall i :: 0 <= i < |Positions(labels, c)| ==>
      0 <= Positions(labels, c)[i] < |labels| && labels[Positions(labels, c)[i]] == c
    ensures forall i, j :: 0 <= i < j < |Positions(labels, c)| ==>
      Positions(labels, c)[i] < Positions(labels, c)[j]
    ensures forall p :: 0 <= p < |labels| && labels[p] == c ==> p in Positions(labels, c)
  {
    SelectSpec(labels, y => y == c);
  }

  /** Relabelling commutes with selection when the two tests agree through the map. */
  lemma {:induction false} SelectRelabel(labels: seq<int>, f: int -> int, keep: int -> bool, keep2: int -> bool)
    requires forall y :: keep(f(y)) == keep2(y)
    ensures Select(MapLabels(labels, f), keep) == Select(labels, keep2)
  {
    if labels != [] {
      var n := |labels| - 1;
      assert MapLabels(labels, f)[..n] == MapLabels(labels[..n], f);
      SelectRelabel(labels[..n], f, keep, keep2);
    }
  }

  /** When a relabelling sends exactly the class `c` to `d`, the positions of `d` after it
      are the positions of `c` before it. */
  lemma PositionsRelabel(labels: seq<int>, f: int -> int, c: int, d: int)
    requires forall y :: f(y) == d <==> y == c
    ensures Positions(MapLabels(labels, f), d) == Positions(labels, c)
  {
    SelectRelabel(labels, f, y => y == d, y => y == c);
  }

  /** `{c: np.flatnonzero(labels == c) for c in classes}`. */
  function ClassIndex(labels: seq<int>, classes: set<int>): (m: map<int, seq<int>>)
    ensures m.Keys == classes
    ensures forall c :: c in classes ==> m[c] == Positions(labels, c)
  {
    map c | c in classes :: Positions(labels, c)
  }

  /** The classes `range(lo, hi)` as a set. */
  function ClassesInRange(lo: int, hi: int): (r: set<int>)
    ensures forall c :: c in r <==> lo <= c < hi
  {
    ClassSeqMembers(lo, hi);
    set c | c in ClassSeq(lo, hi)
  }

  /** `range(lo, hi)` as a sequence. */
  function ClassSeq(lo: int, hi: int): seq<int>
  {
    seq(if lo <= hi then hi - lo else 0, k => lo + k)
  }

  lemma ClassSeqMembers(lo: int, hi: int)
    ensures forall c :: c in ClassSeq(lo, hi) <==> lo <= c < hi
  {
    forall c | lo <= c < hi
      ensures c in ClassSeq(lo, hi)
    {
      assert ClassSeq(lo, hi)[c - lo] == c;
    }
  }

  /** `[np.flatnonzero(labels == c) for c in range(lo, hi)]`: the list form the digit
      module uses, where class `lo + k` sits at list position `k`. */
  function ClassIndexList(labels: seq<int>, lo: int, hi: int): (r: seq<seq<int>>)
    ensures |r| == if lo <= hi then hi - lo else 0
    ensures forall k :: 0 <= k < |r| ==> r[k] == Positions(labels, lo + k)
  {
    if lo < hi then seq(hi - lo, k requires 0 <= k < hi - lo => Positions(labels, lo + k)) else []
  }

  /** Python's `seq[index]` for an int index: negative subscripts count from the end. */
  function PyIndex(index: int, n: nat): (r: Option<nat>)
    ensures r.Some? <==> -(n as int) <= index < n
    ensures r.Some? ==> r.value < n && (index >= 0 ==> r.value == index)
    ensures r.Some? && index < 0 ==> r.value == index + n
  {
    if 0 <= index < n then Some(index) else if -(n as int) <= index < 0 then Some(index + n) else None
  }

  /** `train_x[positions[i]]` with numpy subscripts: IndexError when `i` or the position
      it selects is out of range. */
  function PickAt(trainX: seq<Image>, positions: seq<int>, i: int): (r: Result<Image>)
    ensures r.Ok? <==> PyIndex(i, |positions|).Some?
                       && PyIndex(positions[PyIndex(i, |positions|).value], |trainX|).Some?
    ensures r.Ok? ==> var p := positions[PyIndex(i, |positions|).value];
      r.value == trainX[PyIndex(p, |trainX|).value]
    ensures r.Err? ==> r.error == IndexError
  {
    var k := PyIndex(i, |positions|);
    if k.None? then Err(IndexError)
    else
      var p := PyIndex(positions[k.value], |trainX|);
      if p.None? then Err(IndexError) else Ok(trainX[p.value])
  }

  /** `get_ordered(digit, index)` with a dictionary index: an absent class raises
      KeyError, otherwise `PickAt` the class's positions. */
  function GetOrdered(trainX: seq<Image>, index: map<int, seq<int>>, digit: int, i: int): (r: Result<Image>)
    ensures digit !in index ==> r == Err(KeyError)
    ensures digit in index ==> r == PickAt(trainX, index[digit], i)
  {
    if digit !in index then Err(KeyError) else PickAt(trainX, index[digit], i)
  }

  /** With an index built from the train labels, ordered lookup of sample `i` of a listed
      class succeeds exactly for `-count <= i < count`, yields a sample of that class,
      and `i == count` raises IndexError. */
  lemma GetOrderedSpec(trainX: seq<Image>, trainY: seq<int>, classes: set<int>, digit: int, i: int)
    requires |trainX| == |trainY| && digit in classes
    ensures var idx, ps := ClassIndex(trainY, classes), Positions(trainY, digit);
      && (GetOrdered(trainX, idx, digit, i).Ok? <==> -|ps| <= i < |ps|)
      && GetOrdered(trainX, idx, digit, |ps|) == Err(IndexError)
      && (0 <= i < |ps| ==>
            0 <= ps[i] < |trainY| && GetOrdered(trainX, idx, digit, i) == Ok(trainX[ps[i]]) && trainY[ps[i]] == digit)
  {
    PositionsSpec(trainY, digit);
  }

  /** `np.random.choice(positions)` followed by `train_x[...]`: `draw` is the position
      in the list the choice picks. Choosing from an empty list raises ValueError. A
      draw past the end of the list cannot come out of `np.random.choice`; the model
      answers it with the same ValueError rather than constrain its callers' draws. */
  function PickRandom(trainX: seq<Image>, positions: seq<int>, draw: nat): (r: Result<Image>)
    ensures positions == [] ==> r == Err(ValueError)
    ensures positions != [] && draw < |positions| ==> r == PickAt(trainX, positions, draw)
  {
    if positions == [] then Err(ValueError)
    else if draw < |positions| then PickAt(trainX, positions, draw)
    else Err(ValueError)
  }

  /*** Label remaps ***/

  /** The positions `labels > 0` keeps. */
  function PositivePositions(labels: seq<int>): seq<int>
  {
    Select(labels, y => y > 0)
  }

  /** `x[y > 0]` applied to both containers of both splits; the boolean masks have the
      length of the images they index. */
  function DropNonPositive(d: Splits): Splits
    requires d.Paired()
  {
    SelectAllBelow(d.trainY, y => y > 0);
    SelectAllBelow(d.testY, y => y > 0);
    var tr, te := PositivePositions(d.trainY), PositivePositions(d.testY);
    Splits(Gather(d.trainX, tr), Gather(d.trainY, tr), Gather(d.testX, te), Gather(d.testY, te))
  }

  /** One split `(fx, fy)` after the zero filter of `(xs, ys)`: it holds exactly the
      samples with a positive label, in their relative order, each image still with its
      label. */
  predicate KeptPositive(xs: seq<Image>, ys: seq<int>, fx: seq<Image>, fy: seq<int>)
  {
    var ps := PositivePositions(ys);
    && |fx| == |ps| && |fy| == |ps|
    && (forall i :: 0 <= i < |fy| ==> fy[i] > 0)
    && (forall i :: 0 <= i < |ps| ==> 0 <= ps[i] < |ys| && ps[i] < |xs| && fx[i] == xs[ps[i]] && fy[i] == ys[ps[i]])
    && (forall i, j :: 0 <= i < j < |ps| ==> ps[i] < ps[j])
    && (forall p :: 0 <= p < |ys| && ys[p] > 0 ==> p in ps)
  }

  /** The zero filter treats train and test alike: each keeps exactly its
      positive-label samples, in order and with their labels. */
  lemma DropNonPositiveSpec(d: Splits)
    requires d.Paired()
    ensures var f := DropNonPositive(d);
      && f.Paired()
      && KeptPositive(d.trainX, d.trainY, f.trainX, f.trainY)
      && KeptPositive(d.testX, d.testY, f.testX, f.testY)
  {
    var f := DropNonPositive(d);
    SelectAllBelow(d.trainY, y => y > 0);
    SelectAllBelow(d.testY, y => y > 0);
    KeepPositiveSide(d.trainX, d.trainY, f.trainX, f.trainY);
    KeepPositiveSide(d.testX, d.testY, f.testX, f.testY);
  }

  lemma DropNonPositivePaired(d: Splits)
    requires d.Paired()
    ensures DropNonPositive(d).Paired()
  {
  }

  lemma KeepPositiveSide(xs: seq<Image>, ys: seq<int>, fx: seq<Image>, fy: seq<int>)
    requires |xs| == |ys| && AllBelow(PositivePositions(ys), |xs|)
    requires fx == Gather(xs, PositivePositions(ys)) && fy == Gather(ys, PositivePositions(ys))
    ensures KeptPositive(xs, ys, fx, fy)
  {
    SelectSpec(ys, y => y > 0);
  }

  function MapLabels(ys: seq<int>, f: int -> int): (r: seq<int>)
    ensures |r| == |ys| && forall i :: 0 <= i < |ys| ==> r[i] == f(ys[i])
  {
    seq(|ys|, i requires 0 <= i < |ys| => f(ys[i]))
  }

  function MapSplitLabels(d: Splits, f: int -> int): (r: Splits)
    ensures r.trainX == d.trainX && r.testX == d.testX
    ensures r.trainY == MapLabels(d.trainY, f) && r.testY == MapLabels(d.testY, f)
  {
    d.(trainY := MapLabels(d.trainY, f), testY := MapLabels(d.testY, f))
  }

  /** `ClassSeparateMNIST` on one label: first 0 becomes the scheme's OUT class, then every
      positive label gets 10 added. */
  function SeparateLabel(s: Scheme, y: int): int
  {
    var z := if y == 0 then ClassOut(s) else y;
    if z > 0 then z + 10 else z
  }

  /** Machine and handwritten digits are told apart: 1..9 become 11..19 in both modules.
      In the digit module 0 stays the OUT class 0; in the simulation module a 0 would pass
      through OUT (10) to 20, which cannot arise there because its zeros are filtered
      out first. */
  lemma SeparateLabelSpec(s: Scheme, y: int)
    ensures 1 <= y <= 9 ==> SeparateLabel(s, y) == y + 10
    ensures y == 0 ==> SeparateLabel(s, y) == (if s.DigitScheme? then ClassOut(s) else ClassOut(s) + 10)
    ensures y < 0 ==> SeparateLabel(s, y) == y
    ensures y > 0 ==> SeparateLabel(s, y) > 10
  {
  }

  /** The legacy label files swapped the meaning of 0 and 10. */
  function SwapOldScheme(y: int): int
  {
    if y == 10 then 0 else if y == 0 then 10 else y
  }

  /** The swap exchanges 0 and 10, leaves every other label alone, and undoes itself. */
  lemma SwapOldSchemeSpec(y: int)
    ensures (y == 0 <==> SwapOldScheme(y) == 10) && (y == 10 <==> SwapOldScheme(y) == 0)
    ensures y != 0 && y != 10 ==> SwapOldScheme(y) == y
    ensures SwapOldScheme(SwapOldScheme(y)) == y
  {
  }

  /** The label of pre-rendered image `i`: images are stored `count` per digit, in digit
      order. The simulation module counts digits from 1, the digit module from 0. */
  function PrerenderedLabel(s: Scheme, i: nat, count: nat): int
    requires count > 0
  {
    (if s.SimScheme? then 1 else 0) + i / count
  }

  function PrerenderedLabels(s: Scheme, count: nat): (r: seq<int>)
    ensures |r| == 9 * count
    ensures forall i :: 0 <= i < 9 * count ==> r[i] == PrerenderedLabel(s, i, count)
  {
    seq(9 * count, i requires 0 <= i < 9 * count => PrerenderedLabel(s, i, count))
  }

  /** The quotient of `i` by `c` is the `d` whose run `[d*c, (d+1)*c)` holds `i`. */
  lemma MulAtLeast(k: int, c: nat)
    requires k >= 1
    ensures k * c >= c
  {
    assert k * c == (k - 1) * c + c;
  }

  lemma DivRun(i: nat, c: nat, d: int)
    requires c > 0
    ensures i / c == d <==> 0 <= d && d * c <= i < d * c + c
  {
    var q, r := i / c, i % c;
    assert i == q * c + r && 0 <= r < c;
    if 0 <= d && d * c <= i < d * c + c {
      assert (q - d) * c == q * c - d * c;
      if q - d >= 1 {
        MulAtLeast(q - d, c);
      } else if d - q >= 1 {
        MulAtLeast(d - q, c);
      }
    }
  }

  /** Image `i` gets label `first + d` exactly when it lies in the `d`-th run of `count`
      images, so labels are 1..9 (simulation) or 0..8 (digit module). */
  lemma PrerenderedLabelSpec(s: Scheme, i: nat, count: nat, d: int)
    requires count > 0 && i < 9 * count
    ensures var first := if s.SimScheme? then 1 else 0;
      && first <= PrerenderedLabel(s, i, count) <= first + 8
      && (PrerenderedLabel(s, i, count) == first + d <==> 0 <= d && d * count <= i < d * count + count)
  {
    DivRun(i, count, d);
  }
}
