# SSEI datasets and augmentations in Dafny

This project models the integer and array logic of the SSEI data pipeline for digit and
character images:

- the `CharacterDataset` family in both copies of the dataset module. These are the
  simulation datasets and the older digit datasets. The model covers transform
  expansion with label tiling, the 90/10 split, resizing, concatenation at running
  offsets, the label remaps of the MNIST, curated, prerendered, empty and real variants,
  per-class lookup, and the byte-level pixel operations.
- the Keras batch generators over index cursors.
- the salt-and-pepper and canvas-embedding augmentations.
- the corner construction of the random perspective transforms and the camera matrix of
  the lens distortion.
- the perspective-digit recognition dataset and its generator.
- the sudoku grid transforms and the generator that grows a list of sudokus with them.

Randomness is passed in as arguments: shuffled permutations, `randint` and `choice`
draws. OpenCV and PIL numerics are also passed in, as function-typed parameters: resize,
colour conversion, warps, `getPerspectiveTransform`, `undistort` and the least-squares
solve. The datasets are classes whose methods reassign their containers. Each method's
postcondition ties the new state to a specification function on values. The
properties of the pipeline are proved as lemmas about those functions.

Modules:

- `Base`: results and errors, permutations, gathering, tiling, flattening, Python
  slices, one-hot rows.
- `Images`: images as gray or BGRA pixel rows, transforms as image functions, and the
  pixel operations.
- `DatasetCore`: what both dataset modules share. This is the class scheme, label
  functions, expansion, splitting, concatenation, class indices and label remaps.
- `SimDataset`: simulation/data/dataset.py.
- `DigitDataset`: digit/digit_dataset.py, the dataset class.
- `Generators`: digit/digit_dataset.py, the batch generators.
- `Noise`: simulation/transforms/noise.py.
- `Perspective`: simulation/transforms/perspective.py.
- `Recognition`: digit_recognition/digit_dataset.py.
- `SudokuTransforms`: transform.py.

The two dataset modules disagree on the class map. In simulation/data/dataset.py EMPTY
is 0 and OUT is 10; in digit/digit_dataset.py OUT is 0 and EMPTY is 10. The map is the
`Scheme` parameter of `DatasetCore`.

## Model

| member | source | states |
|---|---|---|
| DatasetCore.SchemesSwapEmptyAndOut | simulation/data/dataset.py:27-28 | The simulation scheme has EMPTY 0 and OUT 10, and the digit scheme swaps them. |
| DatasetCore.ArchiveExtsExclusive | simulation/data/dataset.py:31-49 | A path ends with at most one of ".zip", ".tar", ".tar.gz", so at most one suffix can be stripped. |
| DatasetCore.StripFileExt | simulation/data/dataset.py:31-49 | When the path ends with an archive suffix, the result plus that suffix is the path; otherwise the path comes back unchanged. |
| DatasetCore.GetLabel | simulation/data/dataset.py:52-65 | A code point of '1'..'9' gives its digit plus the digit offset; every other code point gives the scheme's OUT class. |
| DatasetCore.GetLabelSeparatesOut | simulation/data/dataset.py:130-144 | With an offset of 0 or 10, the label is OUT exactly when the character is not a valid digit, and digit labels lie in `offset+1..offset+9`. |
| DatasetCore.MapCompose | simulation/data/dataset.py:191-205 | Each image is passed through the whole transform sequence in order, and the count is kept. |
| DatasetCore.BlocksLength | simulation/data/dataset.py:187-208 | The transformed blocks hold one copy of the split per queued sequence. |
| DatasetCore.BlocksAt | simulation/data/dataset.py:207-208 | Cell `n*b + j` of the blocks is sequence `b` applied to image `j`. |
| DatasetCore.ExpandSplitsSpec | simulation/data/dataset.py:173-216 | Each split grows to `n*(keep+k)` samples and stays paired. With `keep` the first `n` images are the originals. Cell `n*(keep+b)+j` is sequence `b` applied to image `j`, carrying the label of image `j`. |
| DatasetCore.ExpandChecked | simulation/data/dataset.py:176-208 | With a non-empty queue, expansion raises ValueError exactly when a split is a colour stack or a queued sequence changes an image's shape; otherwise it is the expansion. |
| DatasetCore.ZeroImage | simulation/data/dataset.py:802 | The image is grey, of the given side, and every cell is 0. |
| DatasetCore.ConcatChecked | simulation/data/dataset.py:763-775 | Copying into grey `(n, res, res)` arrays raises ValueError exactly when some train or test image is not grey of side `res`; otherwise the result is the concatenation. |
| DatasetCore.ConcatRejectsMisfit | simulation/data/dataset.py:773 | A colour image, or a grey image of another side, in any input makes the concatenation raise ValueError. |
| DatasetCore.ColorSplitRaises | simulation/data/dataset.py:178-179 | A training split holding a colour image makes expansion raise ValueError, whatever the queue holds. |
| DatasetCore.GrayShapeKeepingExpands | simulation/data/dataset.py:176-208 | Grey splits under shape-keeping sequences expand without error, and the expansion is grey again. |
| DatasetCore.ExpandInto | simulation/data/dataset.py:182-208 | The loop that fills the preallocated array block by block yields exactly the expansion. |
| DatasetCore.TrainCount | simulation/data/dataset.py:454-474 | The train size `n*9/10` never exceeds `n`. |
| DatasetCore.SplitByOrderSpec | simulation/data/dataset.py:454-474 | Train holds `n*9/10` samples and train plus test hold `n`. Both stay paired. Train position `i` is sample `order[i]`, and test position `i-t` is sample `order[i]`. |
| DatasetCore.SplitUnshuffled | simulation/data/dataset.py:465-474 | With the identity order, train is the prefix and test the suffix of the data. |
| DatasetCore.SplitPrefix | simulation/data/dataset.py:806-811 | The empty dataset's split is the identity-order split, whatever `shuffle` says. |
| DatasetCore.SplitValidation | simulation/data/dataset.py:874-889 | The validation split leaves train empty and puts all data in test. |
| DatasetCore.TotalLengthsAgree | simulation/data/dataset.py:752-761 | Paired inputs give equal image and label totals. |
| DatasetCore.ConcatSplitsSpec | simulation/data/dataset.py:751-783 | The concatenation's sizes are the sums of the inputs' sizes. Sample `j` of input `k` sits, with its label, at the sum of the earlier inputs' sizes plus `j`. |
| DatasetCore.CopyInto | simulation/data/dataset.py:769-781 | A slice write changes exactly the target slice. |
| DatasetCore.ConcatInto | simulation/data/dataset.py:764-781 | Copying the parts at running offsets into a preallocated array gives their concatenation. |
| DatasetCore.SelectSpec | simulation/data/dataset.py:563-570 | The kept positions are in range, satisfy the filter, are strictly increasing, and include every position that satisfies it. |
| DatasetCore.PositionsSpec | simulation/data/dataset.py:551-552 | `np.flatnonzero(y == c)` lists every position of class `c`, and only those, in increasing order. |
| DatasetCore.PositionsRelabel | digit/digit_dataset.py:243-248 | When a relabelling sends exactly class `c` to `d`, the positions of `d` afterwards are those of `c` before. |
| DatasetCore.ClassIndex | simulation/data/dataset.py:551-552 | The class dictionary has exactly the requested keys, each mapped to that class's positions. |
| DatasetCore.ClassIndexList | digit/digit_dataset.py:196-200 | List entry `k` holds the positions of class `lo + k`. |
| DatasetCore.ClassSeqMembers | simulation/data/dataset.py:592-595 | The listed classes are exactly `lo..hi-1`. |
| DatasetCore.PyIndex | simulation/data/dataset.py:476-488 | A Python subscript is valid exactly for `-n <= i < n`, and negative subscripts count from the end. |
| DatasetCore.PickAt | simulation/data/dataset.py:476-488 | An indexed lookup into a position list fails with IndexError exactly when the subscript is out of range. |
| DatasetCore.GetOrdered | simulation/data/dataset.py:476-488 | A class missing from the index raises KeyError; otherwise the lookup goes through that class's positions. |
| DatasetCore.GetOrderedSpec | simulation/data/dataset.py:476-488 | For an indexed class, `get_ordered(c, i)` succeeds exactly for `-count <= i < count`. It fails at `count`, and for `0 <= i < count` it returns a sample labelled `c`. |
| DatasetCore.PickRandom | simulation/data/dataset.py:490-501 | A random pick from an empty class raises ValueError; otherwise it returns the drawn position's sample. |
| DatasetCore.DropNonPositiveSpec | simulation/data/dataset.py:563-570 | Train and test alike keep exactly their positive-label samples: the kept positions are every position with a positive label, strictly increasing, and kept sample `i` is the image and label at the `i`-th such position. |
| DatasetCore.MapSplitLabels | simulation/data/dataset.py:582-592 | A relabelling changes every label through the function and leaves the images untouched. |
| DatasetCore.SeparateLabelSpec | simulation/data/dataset.py:582-592 | The class-separate remap sends 1..9 to 11..19. 0 stays OUT in the digit module and ends at 20 in the simulation module, where zeros are filtered out beforehand. Negative labels are kept, and every positive label ends above 10. |
| DatasetCore.SwapOldSchemeSpec | simulation/data/dataset.py:858-862 | The old-scheme fix swaps 0 and 10, leaves every other label alone, and undoes itself. |
| DatasetCore.PrerenderedLabels | simulation/data/dataset.py:708-723 | There are `9*count` labels, and entry `i` is the prerendered label of image `i`. |
| DatasetCore.PrerenderedLabelSpec | simulation/data/dataset.py:721 | Image `i` is labelled `first + floor(i/count)`, which lies in `first..first+8`. `first` is 1 in the simulation module and 0 in the digit module. |
| Images.ComposeAppend | simulation/data/dataset.py:191-194 | Applying a sequence with one more transform applies that transform last. |
| Images.Invert | simulation/data/dataset.py:360-376 | Every channel value `v` becomes `255 - v`, and the shape is kept. |
| Images.InvertInvolution | simulation/data/dataset.py:349-376 | Inverting twice gives the image back. |
| Images.InvertAllInvolution | simulation/data/dataset.py:349-359 | Inverting a whole stack twice gives the stack back. |
| Images.GrayToBgra | simulation/data/dataset.py:314-327 | Only gray images convert. The shape is kept, B, G and R are the gray value, and alpha is `255 - gray`. |
| Images.GrayToBgraAgreesWithInvert | simulation/data/dataset.py:314-327 | The alpha of the conversion is the inverted gray image. |
| Images.ChromaKeyAlpha | simulation/data/dataset.py:434-443 | Only colour images qualify. Alpha becomes 0 where it equals the key and 255 elsewhere, swapped with `invert`; B, G and R are kept. |
| Images.ChromaKeyInvertIsNot | simulation/data/dataset.py:434-443 | The inverted chroma key is the bit-wise negation of the plain one, and alpha is two-valued. |
| Images.ChannelIndex | simulation/data/dataset.py:444-449 | A channel subscript is valid for `-4 <= c < 4` and picks the channel `c mod 4`. |
| Images.MaxOfChannels | simulation/data/dataset.py:444-449 | The result is the maximum of the selected channels. |
| Images.MaxChannelAlpha | simulation/data/dataset.py:444-449 | The max mode succeeds for colour images with valid, non-empty channel lists, and sets alpha to the channel maximum (negated with `invert`). |
| Images.SelectAlphaMode | simulation/data/dataset.py:402-452 | The average mode wins, then the chroma key, then the max; with none given the mode is a RuntimeError. |
| Images.InduceAlphaMode | simulation/data/dataset.py:397-400 | With no mode given, `induce_alpha` averages channels 0, 1, 2 and never raises RuntimeError. |
| Images.MapAll | simulation/data/dataset.py:314-327 | Mapping a fallible operation over a stack succeeds exactly when it succeeds on every image, and keeps the order. |
| SimDataset.ResizedAll | simulation/data/dataset.py:239-285 | Every image is resized with the chosen interpolation, and the count is kept. |
| SimDataset.GetResized | simulation/data/dataset.py:239-285 | Filling a fresh array image by image yields the resized stack. |
| SimDataset.ResizeState | simulation/data/dataset.py:221-237 | At the current resolution nothing changes. Otherwise labels and counts are kept, every image is resized (shrinking or enlarging interpolation by comparison), and the resolution becomes the target. |
| SimDataset.ResizeStateKeepsPairing | simulation/data/dataset.py:221-237 | Resizing keeps every image with its label. |
| SimDataset.Aligned | simulation/data/dataset.py:752-761 | The first input is kept as it is, and every later input is resized to its resolution. |
| SimDataset.ConcatDatasets | simulation/data/dataset.py:739-783 | An empty list fails the assertion. Otherwise the result is `ConcatChecked` of the aligned inputs at the first input's side: ValueError when an image does not fit the grey arrays, else the concatenation. |
| SimDataset.ConcatDatasetsSpec | simulation/data/dataset.py:751-783 | The concatenation is paired and its sizes are the sums of the resized inputs' sizes; input `k` keeps its sizes when resized. Sample `j` of input `k` sits at the running offset in argument order, with its label. |
| SimDataset.GetRandom | simulation/data/dataset.py:490-501 | A missing class raises KeyError; otherwise the draw picks from the class's positions. |
| SimDataset.FilteredGetRandomAsWrittenMisses | simulation/data/dataset.py:572-575 | As written, digit 1 raises KeyError and digit 2 returns a sample labelled 1. |
| SimDataset.FilteredGetRandom | simulation/data/dataset.py:572-575 | Digit 0 raises ValueError; every other digit is looked up under its own key. |
| SimDataset.FilteredGetRandomSpec | simulation/data/dataset.py:558-575 | With the filtered index, every digit 1..9 that has samples yields one of its own samples. |
| SimDataset.WithColorspace | simulation/data/dataset.py:302-347 | The GRAY2BGRA fast path converts every image. Every other mode fails on an empty stack and otherwise converts each image. |
| SimDataset.GetWithAlpha | simulation/data/dataset.py:402-452 | With no mode the result is a RuntimeError; with a chroma key every image gets the keyed alpha. |
| SimDataset.CharacterDataset.constructor | simulation/data/dataset.py:91-112 | Starts with empty containers, an index holding an empty class 0, an empty queue, and the interpolations `fast_resize` picks. |
| SimDataset.CharacterDataset.AddTransforms | simulation/data/dataset.py:146-159 | The sequence joins the end of the queue, and nothing else changes. |
| SimDataset.ConvertedStackRaises | simulation/data/dataset.py:178-179 | After the GRAY to BGRA fast path, a non-empty training stack makes `apply_transforms` raise ValueError. |
| SimDataset.CharacterDataset.ApplyTransforms | simulation/data/dataset.py:161-219 | With an empty queue nothing changes. A colour stack, or a transform that changes an image's shape, raises ValueError and leaves the dataset and the queue as they were. Otherwise both splits become their expansion, the labels are tiled, and the queue is cleared exactly when `clear`. |
| SimDataset.CharacterDataset.Resize | simulation/data/dataset.py:221-237 | The new state is `ResizeState` of the old one. |
| SimDataset.CharacterDataset.CvtColor | simulation/data/dataset.py:287-300 | Train is converted, then test. An error stops at the failing split, and the labels never change. |
| SimDataset.CharacterDataset.Invert | simulation/data/dataset.py:349-359 | Both image stacks are inverted, and everything else is kept. |
| SimDataset.CharacterDataset.InduceAlpha | simulation/data/dataset.py:378-400 | The default mode is chosen, then train and test are processed in turn. An error stops at the failing split. |
| SimDataset.CharacterDataset.Split | simulation/data/dataset.py:454-474 | The empty variant splits by prefix, the validation variant puts everything in test, and every other variant cuts the order at `n*9/10`. |
| SimDataset.CharacterDataset.BuildIndex | simulation/data/dataset.py:551-552 | Both indices map each requested class to its positions, and the data is unchanged. |
| SimDataset.CharacterDataset.LoadMnist | simulation/data/dataset.py:535-555 | The first 60000 ordered samples are train and the remaining 10000 test, with an index over 0..9. |
| SimDataset.CharacterDataset.DropZeros | simulation/data/dataset.py:558-570 | Label-0 samples are dropped from both splits, with an index over 1..9. |
| SimDataset.CharacterDataset.SeparateClasses | simulation/data/dataset.py:578-595 | Labels are remapped by the class-separate map, with an index over 11..19 and OUT. |
| SimDataset.CharacterDataset.LoadCurated | simulation/data/dataset.py:638-674 | Files are labelled from their directory's code point with the variant's offset and then split, with an index over the variant's classes and OUT. Resolution and transform queue are unchanged. |
| SimDataset.CharacterDataset.LoadPrerendered | simulation/data/dataset.py:708-723 | Images are labelled 1..9 in blocks of `count` and then split. Resolution, transform queue and indices are unchanged. |
| SimDataset.CharacterDataset.LoadEmpty | simulation/data/dataset.py:799-811 | `size` all-zero grey images of the dataset's side, labelled EMPTY, are split by prefix into `n*9/10` and the rest. Resolution, transform queue and indices are unchanged. |
| SimDataset.CharacterDataset.LoadReal | simulation/data/dataset.py:832-889 | With the old scheme, 0 and 10 are swapped before the variant's split. Resolution, transform queue and indices are unchanged. |
| SimDataset.CharacterDataset.LoadConcat | simulation/data/dataset.py:739-783 | Runs on the dataset `super().__init__(res)` builds: shuffling, fast interpolations, empty queue. Empty input fails the assertion, and an image that does not fit the grey arrays raises ValueError; in both cases data and resolution are unchanged. Otherwise the data is the concatenation at the first input's resolution, with an index over 0..19. The queue stays empty. |
| DigitDataset.ResizedAll | digit/digit_dataset.py:137-155 | Images already at the target side are untouched. Every other image is resized, shrinking or enlarging by comparison with its own side, and the count is kept. |
| DigitDataset.GetResized | digit/digit_dataset.py:137-155 | Filling a fresh array image by image yields the resized stack. |
| DigitDataset.ResizedAllAtSide | digit/digit_dataset.py:141-153 | A stack already at the target side comes back unchanged. |
| DigitDataset.ResizeState | digit/digit_dataset.py:130-135 | At the current resolution nothing changes; otherwise both stacks are resized and the labels are kept. |
| DigitDataset.ResizeStateKeepsPairing | digit/digit_dataset.py:130-155 | Resizing keeps counts and pairing. |
| DigitDataset.ClassPositions | digit/digit_dataset.py:202-216 | The index-list subscript succeeds exactly for `-len <= d < len`, and otherwise raises IndexError. |
| DigitDataset.GetOrdered | digit/digit_dataset.py:210-216 | The lookup goes through the class's position list. |
| DigitDataset.GetRandom | digit/digit_dataset.py:202-208 | The random pick goes through the class's position list. |
| DigitDataset.FilteredGetRandom | digit/digit_dataset.py:250-258 | Digit 0 raises ValueError; digit `d` is list entry `d - 1`. |
| DigitDataset.GetOrderedSpec | digit/digit_dataset.py:196-216 | For class `lo + k`, ordered lookup succeeds exactly for in-range `i`, and returns a sample of that class. |
| DigitDataset.FilteredIndexAfterShift | digit/digit_dataset.py:243-248 | After the labels are shifted down, entry `k` of the index built over 1..9 lists exactly the samples now labelled `k`. |
| DigitDataset.FilteredGetRandomSpec | digit/digit_dataset.py:233-258 | `get_random(d)` for a digit 1..9 with samples returns an image of digit `d`, now labelled `d - 1`. |
| DigitDataset.SeparateIndexStillValid | digit/digit_dataset.py:261-273 | The kept MNIST index stays right after relabelling: entry `d` lists the samples now labelled with the separated `d`. |
| DigitDataset.Aligned | digit/digit_dataset.py:396-408 | The first input is kept as it is, and later inputs are resized to its resolution. |
| DigitDataset.SliceAssign | digit/digit_dataset.py:417-420 | A numpy slice write keeps the array length. A source that fits is copied in; a longer source that is not a single row raises ValueError. |
| DigitDataset.ConcatAsWrittenPadsTest | digit/digit_dataset.py:409-424 | As written, one train sample and no test sample give a one-row test array. |
| DigitDataset.ConcatAsWrittenRejectsTest | digit/digit_dataset.py:409-424 | As written, two test samples and no train sample raise ValueError. |
| DigitDataset.ConcatDatasets | digit/digit_dataset.py:392-426 | Empty input fails the assertion. Otherwise the result is `ConcatChecked` of the aligned inputs at the first input's side, with each container sized by its own total: ValueError when an image does not fit the grey arrays, else the concatenation. |
| DigitDataset.ConcatDatasetsSpec | digit/digit_dataset.py:413-424 | The concatenation is paired and its sizes are the sums of the resized inputs' sizes; input `k` keeps its sizes when resized, and sample `j` of it sits at its running offset with its label. |
| DigitDataset.CharacterDataset.constructor | digit/digit_dataset.py:47-68 | Starts with empty containers, a one-entry index, an empty queue, and the interpolations `fast_resize` picks. |
| DigitDataset.CharacterDataset.AddTransforms | digit/digit_dataset.py:76-84 | The sequence joins the queue, and nothing else changes. |
| DigitDataset.CharacterDataset.ApplyTransforms | digit/digit_dataset.py:86-119 | With an empty queue nothing changes. A stack that is not three-dimensional, or a transform that changes an image's shape, raises ValueError and leaves the dataset as it was. Otherwise both splits become their expansion with tiled labels. The queue is kept in every case. |
| DigitDataset.CharacterDataset.Resize | digit/digit_dataset.py:130-135 | The new state is `ResizeState` of the old one. |
| DigitDataset.CharacterDataset.Split | digit/digit_dataset.py:157-172 | Train holds `n*9/10` samples of the order, test the rest, and both stay paired. |
| DigitDataset.CharacterDataset.LoadMnist | digit/digit_dataset.py:180-200 | Samples are split 60000/10000, with index lists over 0..9. |
| DigitDataset.CharacterDataset.FilterZeros | digit/digit_dataset.py:233-248 | Zeros are dropped, the index is built over 1..9, and then every label is reduced by one. |
| DigitDataset.CharacterDataset.SeparateClasses | digit/digit_dataset.py:261-273 | 0 stays OUT and 1..9 become 11..19; the index is kept. |
| DigitDataset.CharacterDataset.LoadCurated | digit/digit_dataset.py:324-351 | Files are labelled from their code point with the variant's offset and then split. Resolution, transform queue and indices are unchanged. |
| DigitDataset.CharacterDataset.LoadPrerendered | digit/digit_dataset.py:374-389 | Images are labelled `floor(i/count)`, 0..8, and then split. Resolution, transform queue and indices are unchanged. |
| DigitDataset.CharacterDataset.LoadConcat | digit/digit_dataset.py:392-426 | Runs on the dataset `super().__init__(res)` builds: shuffling, high-quality interpolations, empty queue, one-entry index. Empty input fails the assertion, and an image that does not fit the grey arrays raises ValueError; in both cases data and resolution are unchanged. Otherwise the data is the corrected concatenation at the first input's resolution. The index and the empty queue are kept. |
| Generators.BatchCount | digit/digit_dataset.py:447-449 | A zero batch size divides by zero. |
| Generators.BatchCountSpec | digit/digit_dataset.py:447-449 | `floor(n/b)` is the largest number of full batches that fit in `n`. |
| Generators.BalancedBatchCount | digit/digit_dataset.py:508-510 | A zero batch size divides by zero. |
| Generators.BalancedBatchCountSpec | digit/digit_dataset.py:508-510 | `ceil(2n/b)` batches cover `2n` samples, and one fewer would not. |
| Generators.MiniBatchSizesSpec | digit/digit_dataset.py:519-520 | `m + m + last = b` with `m <= last <= m + 2`, and the three are equal exactly when 3 divides `b`. |
| Generators.WindowSpec | digit/digit_dataset.py:454 | A window is the overlapping stretch of the cursor: never longer than the batch, full inside the cursor, empty past it. |
| Generators.FullWindows | digit/digit_dataset.py:447-454 | Every batch below `__len__` is full. |
| Generators.SliceAllBelow | digit/digit_dataset.py:454 | Any slice of a permutation cursor holds valid positions. |
| Generators.GenerateBatch | digit/digit_dataset.py:468-473 | The batch gathers the windowed images. It succeeds exactly when every selected label fits the one-hot width, and each row is that label's one-hot. |
| Generators.DigitDataGenerator.constructor | digit/digit_dataset.py:431-445 | The cursor is `0..n-1`, or the given permutation when shuffling. |
| Generators.DigitDataGenerator.GetItem | digit/digit_dataset.py:451-460 | The batch is the nine-class batch over window `index` of the cursor. |
| Generators.DigitDataGenerator.OnEpochEnd | digit/digit_dataset.py:462-466 | The cursor is rebuilt as a permutation of the train positions. |
| Generators.BalancedDataGenerator.constructor | digit/digit_dataset.py:477-506 | Never fails, and keeps `flatten` and `resolution`. Machine and handwritten cursors are permutations, identity unless shuffling, and the out cursor is `0..n-1`. |
| Generators.BalancedDataGenerator.GetItem | digit/digit_dataset.py:512-543 | Succeeds exactly when every label fits twenty classes, the three image arrays share one shape, and, with `flatten`, `resolution ** 2` is positive and divides the value count. A misfitting label gives IndexError and the other failures ValueError. Labels are the machine, handwritten and out rows in that order. Features are the stacked images, or their `Reshape` rows with `flatten`. |
| Generators.BalancedDataGenerator.MismatchedShapesRaise | digit/digit_dataset.py:532 | Once the labels fit, two batch images of different shapes make the batch raise ValueError. |
| Generators.BalancedDataGenerator.FlatBatchRows | digit/digit_dataset.py:538-539 | With `flatten`, a batch of grey images of side `resolution` gives one row per image holding that image's values, in order. |
| Generators.BalancedDataGenerator.FullBatch | digit/digit_dataset.py:519-533 | A batch whose windows lie inside their cursors holds exactly `batch_size` images and label rows. |
| Generators.Chunks | digit/digit_dataset.py:539 | `count` rows of `n` values each. |
| Generators.ChunksFlatten | digit/digit_dataset.py:539 | Reading the rows back in order gives the values they were cut from. |
| Generators.FlattenChunks | digit/digit_dataset.py:539 | Parts of one length `n` flatten to `count * n` values, and cutting those gives the parts back. |
| Generators.Reshape | digit/digit_dataset.py:538-539 | `reshape(-1, resolution ** 2)` succeeds exactly when the row length is positive and divides the value count, otherwise ValueError. Its rows have that length and read back to the stack's values. |
| Generators.GrayPixelCount | digit/digit_dataset.py:539 | A grey image of side `side` has `side * side` values. |
| Generators.ReshapeGrayRows | digit/digit_dataset.py:538-539 | For grey images of side `resolution`, the reshape gives each image as one row, in order. |
| Generators.BalancedDataGenerator.OnEpochEnd | digit/digit_dataset.py:545-550 | The machine and handwritten cursors are rebuilt; the out cursor is untouched. |
| Base.OneHot | digit/digit_dataset.py:561 | A label fits a width-`c` one-hot row exactly when `-c <= y < c`, and the row has a single 1 at position `y mod c`. |
| Base.PySliceWindow | digit/digit_dataset.py:522-524 | A Python slice is the clamped sub-sequence, with length `min(hi,n) - min(lo,n)`. |
| Base.TileAt | simulation/data/dataset.py:215-216 | Entry `n*b + j` of the tiled labels is label `j`. |
| Base.FlattenAt | simulation/data/dataset.py:769-781 | Entry `j` of part `k` sits at the running offset in the concatenation. |
| Noise.Ceil | simulation/transforms/noise.py:156-159 | `np.ceil` is the least integer at or above its argument. |
| Noise.PixelCountBounded | simulation/transforms/noise.py:156-157 | A fractional amount and ratio in [0, 1] draw at most one pixel per element. |
| Noise.PixelCountZero | simulation/transforms/noise.py:156-174 | A zero amount draws no pixel. |
| Noise.ChoiceCheck | simulation/transforms/noise.py:160-161 | `np.random.choice` fails exactly for a negative count or a positive count from an empty range. |
| Noise.PaintedTwice | simulation/transforms/noise.py:160-174 | A cell painted twice keeps the second value, and every undrawn cell keeps its own. |
| Noise.Paint | simulation/transforms/noise.py:162 | Writing the drawn cells sets exactly those cells, and leaves every other cell of the array as it was. |
| Noise.SaltAndPepperRows | simulation/transforms/noise.py:153-175 | The copy is painted white at the salt draws and, unless the ratio is 1.0, black at the pepper draws. |
| Noise.SaltAndPepper | simulation/transforms/noise.py:153-175 | Fails with ValueError exactly when a count cannot be drawn (the pepper count only matters when the ratio is not 1.0); otherwise returns the painted copy. |
| Noise.SaltAndPepperCells | simulation/transforms/noise.py:160-174 | The output keeps the shape. Pepper cells are black, salt cells not also peppered are white, and every other cell is unchanged. |
| Noise.SaltAndPepperZeroAmount | simulation/transforms/noise.py:153-175 | With nothing drawn the image comes back unchanged. |
| Noise.EmbedFits | simulation/transforms/noise.py:259-275 | With a positive inset the image fits on the canvas at its offset. |
| Noise.ExpandImage | simulation/transforms/noise.py:248-282 | With a positive inset the canvas is `int(d + inset*d)` per axis, the image sits at its offsets, and every cell outside that window is zero; otherwise the image is copied. |
| Noise.Crop | simulation/transforms/noise.py:300 | The crop has the requested shape, and cell `(i, j)` is grid cell `(x+i, y+j)`. |
| Noise.CropExpandRoundTrip | simulation/transforms/noise.py:248-282 | Cropping the canvas at the offsets gives the image back. |
| Noise.RandomCrop | simulation/transforms/noise.py:285-300 | Fails exactly when the slack on an axis is not positive; otherwise returns the requested shape at the drawn offsets. |
| Noise.Outlined | simulation/transforms/noise.py:239-241 | Drawing the outline keeps the canvas shape, paints the outline cells with the ink and leaves every other cell as it was. |
| Noise.EmbedInRectangle | simulation/transforms/noise.py:235-246 | With a positive inset it succeeds exactly when both slacks are positive and returns the input's shape. With a non-positive inset it succeeds exactly when both offsets are zero. |
| Noise.EmbedInRectangleCells | simulation/transforms/noise.py:235-246 | With a positive inset, result cell `(i, j)` is `ink` where the outline paints canvas cell `(dx+i, dy+j)`, and otherwise that canvas cell: the image at the offsets, zero around it. |
| Noise.EmbedInRectangleCellsUncropped | simulation/transforms/noise.py:235-246 | With a non-positive inset and zero offsets, result cell `(i, j)` is `ink` where the outline paints it and the input cell elsewhere. |
| Noise.CropMissesOutline | simulation/transforms/noise.py:238-243 | An outline that paints nothing in a window leaves the crop of that window unchanged. |
| Noise.OffsetWithinSlack | simulation/transforms/noise.py:259-299 | When the canvas is wider than the image on an axis, the embedding offset is a draw `random_crop` can make. |
| Noise.EmbedAtOffsetsKeepsImage | simulation/transforms/noise.py:235-246 | When the offsets are legal crop draws, the crop is drawn at them and the outline misses the image, the transform returns the input unchanged. |
| Noise.EmbedIsCrop | simulation/transforms/noise.py:235-244 | With a positive inset and legal draws, the transform is the crop of the outlined canvas at those draws. |
| Perspective.BorderModeFor | simulation/transforms/perspective.py:29-30 | The border mode is REPLICATE exactly when there is no background colour. |
| Perspective.Displacement | simulation/transforms/perspective.py:60-84 | Four draws in `[0, floor(dim*max_shift)]`, with ValueError exactly when that range is empty. |
| Perspective.AxisDisplacement | simulation/transforms/perspective.py:97-130 | An overridden axis is all zeros. |
| Perspective.Corners | simulation/transforms/perspective.py:38-58 | Succeeds exactly when every displaced axis has a non-empty range. The source corners are the TL, TR, BR, BL corners of the box reduced by one. |
| Perspective.MaxDisplacementBounded | simulation/transforms/perspective.py:71 | `floor(d*s)` lies in `[0, d]` for a shift in [0, 1]. |
| Perspective.CornersInsideBox | simulation/transforms/perspective.py:49-57 | With `0 <= max_shift <= 1` every destination corner lies inside the source box. |
| Perspective.SingleAxisKeepsOther | simulation/transforms/perspective.py:97-130 | The X variant keeps every second coordinate, and the Y variant every first. |
| Perspective.TransformMatrix | simulation/transforms/perspective.py:38-58 | The matrix is the solver applied to the corners, and any displacement error is passed on. |
| Perspective.CameraMatrix | simulation/transforms/perspective.py:160 | The camera matrix is 3 by 3. |
| Perspective.CameraMatrixSpec | simulation/transforms/perspective.py:151-160 | The matrix is `[[fx,0,cx],[0,fy,cy],[0,0,1]]`. The defaults are focal lengths 500, zero coefficients, and `c = floor(shape/2)`. |
| Recognition.GetLabelAsWrittenNeverRaises | digit_recognition/digit_dataset.py:49-52 | As written, the guard never fires: position `9*915` gets label 9 and position -1 gets label -1. |
| Recognition.GetLabel | digit_recognition/digit_dataset.py:49-52 | IndexError exactly outside `[0, 9*915)`; otherwise the label `d` in 0..8 satisfies `915d <= item < 915d + 915`. |
| Recognition.GetLabelAgreesInside | digit_recognition/digit_dataset.py:49-52 | Inside the dataset, the intended label equals the computed one. |
| Recognition.Flattened | digit_recognition/digit_dataset.py:135 | Point `k` becomes entries `2k` and `2k+1`. |
| Recognition.DltMatrix | digit_recognition/digit_dataset.py:129-132 | There are two rows per pair of `zip(pa, pb)`. |
| Recognition.CollectRows | digit_recognition/digit_dataset.py:129-132 | The append loop builds exactly the row matrix. |
| Recognition.RowsAreHomographyEquations | digit_recognition/digit_dataset.py:131-132 | The two rows of a correspondence are its homography equations, linearised. |
| Recognition.FindCoeffs | digit_recognition/digit_dataset.py:121-138 | The coefficients are the least-squares solution of the rows against the flattened target box. |
| Recognition.FindCoeffsLayout | digit_recognition/digit_dataset.py:128-135 | Four corners give eight rows, two per corner in order, and `B` is the flattened box. |
| Recognition.CornerListNearBox | digit_recognition/digit_dataset.py:96-97 | Every distorted corner stays inside the 128 box, within 32 of its box corner. |
| Recognition.PerspectiveTransform | digit_recognition/digit_dataset.py:107-118 | The warp uses the image's own dimensions and the coefficients found for the corners. |
| Recognition.WindowLength | digit_recognition/digit_dataset.py:73 | A window is never longer than the batch, even at a negative batch number. |
| Recognition.DigitDataGenerator.constructor | digit_recognition/digit_dataset.py:56-64 | Construction runs `on_epoch_end`, so the cursor is a permutation of the digits. |
| Recognition.DigitDataGenerator.LenServesFullBatches | digit_recognition/digit_dataset.py:66-73 | Every batch below `__len__` is full, and fewer than `batch_size` samples are left over. |
| Recognition.DigitDataGenerator.OnEpochEnd | digit_recognition/digit_dataset.py:80-84 | The cursor becomes `0..n-1`, shuffled into the given permutation when `shuffle`. |
| Recognition.DigitDataGenerator.DataGeneration | digit_recognition/digit_dataset.py:86-105 | Only the first `len(indices)` rows are filled, each with its warped digit and label in 0..8; the remaining rows keep what the buffers held. |
| Recognition.DigitDataGenerator.GetItem | digit_recognition/digit_dataset.py:70-78 | Produces a batch of `batch_size` rows over the window. The labels one-hot encode cleanly exactly when the window is full or the blank label fits nine classes. |
| SudokuTransforms.KeepValid | transform.py:17-19 | Exactly the valid grids are kept, and a test that accepts every grid keeps the whole list. |
| SudokuTransforms.KeepValidAppend | transform.py:17-19 | Filtering a concatenation filters each part and keeps the parts in order. |
| SudokuTransforms.KeepValidSingle | transform.py:17-19 | A single grid is kept exactly when it is valid. |
| SudokuTransforms.Rot90 | transform.py:17 | A quarter turn counter-clockwise: `r[i][j] = g[j][8-i]`. |
| SudokuTransforms.Rot90FourTimes | transform.py:17 | Four quarter turns give the grid back. |
| SudokuTransforms.RotationAsWrittenFails | transform.py:15-17 | As written, every sudoku raises IndexError, where the intended rotation returns three grids. |
| SudokuTransforms.RotationApply | transform.py:13-20 | The intended rotation yields exactly those of the one, two and three quarter turns of the sudoku that are valid. When every grid is valid it yields all three, in that order. |
| SudokuTransforms.Flip | transform.py:28 | `np.flip` over rows, columns or both. |
| SudokuTransforms.FlipInvolution | transform.py:28 | Each flip undoes itself. |
| SudokuTransforms.FlipBothComposes | transform.py:28 | Flipping both axes is the row flip of the column flip. |
| SudokuTransforms.FlipAsWrittenDropsFlips | transform.py:27-31 | As written, a flip yields one grid where three are valid. |
| SudokuTransforms.FlipApply | transform.py:23-31 | The intended flip yields exactly the valid flips over the three axis choices. When every grid is valid it yields all three, in the order rows, columns, both. |
| SudokuTransforms.NewMajorSwitch | transform.py:35-42 | ValueError unless both switches name exactly the bands 0, 1, 2. |
| SudokuTransforms.BandOrder | transform.py:40-41 | Entry `i` of the order is `3*switch[i/3] + i mod 3`. |
| SudokuTransforms.BandOrderPermutes | transform.py:36-41 | A three-band switch gives a permutation of 0..8 that keeps the order within each band. |
| SudokuTransforms.OriginInverts | transform.py:40-41 | The inverse order undoes the band order. |
| SudokuTransforms.SwitchedMovesCells | transform.py:44-51 | Cell `(r, c)` moves to `(row_order[r], column_order[c])`. |
| SudokuTransforms.SwitchApply | transform.py:44-56 | It succeeds exactly when the switch fits and the switched grid is valid; the result is then that switched grid alone. Otherwise it raises ValueError. |
| SudokuTransforms.IdentitySwitch | transform.py:35-56 | A switch whose two band orders are both the default `(0, 1, 2)` leaves every grid as it is. |
| SudokuTransforms.IdentityOrigin | transform.py:35-56 | The default band order moves no line. |
| SudokuTransforms.ScatterRows | transform.py:50 | Row `i` of the source lands in row `order[i]`. |
| SudokuTransforms.ScatterColumns | transform.py:47 | Column `j` of the source lands in column `order[j]`. |
| SudokuTransforms.ScatteredIsSwitched | transform.py:46-51 | Rows then columns, or columns then rows, give the same switched grid. |
| SudokuTransforms.ApplySwitch | transform.py:44-56 | The in-place scatter on the copied array yields the switched grid. |
| SudokuTransforms.TransformApply | transform.py:8-56 | Every output of a transform is a 9 by 9 grid. Rotation and flip are the corrected transforms of the Findings table. |
| SudokuTransforms.TransformApplyCount | transform.py:13-56 | When every grid is valid, the corrected rotation or flip yields three grids and a switch yields one. |
| SudokuTransforms.Outputs | transform.py:69-71 | One pass concatenates the outputs over the list in order, and every output is a grid. |
| SudokuTransforms.OutputsCount | transform.py:68-71 | When every grid is valid, a pass yields three outputs per sudoku for the corrected rotation or flip, and one for a switch. |
| SudokuTransforms.BuiltExtends | transform.py:67-72 | Building never loses a sudoku: the list before is a prefix of the list after. |
| SudokuTransforms.OutputsStep | transform.py:69-71 | From position `j` on, a pass yields the outputs of sudoku `j` followed by the rest, or stops at its error. |
| SudokuTransforms.PassAdvance | transform.py:69-71 | One step of the inner loop: an error from sudoku `j` is the result of the whole pass; otherwise its outputs join the collected list and the pass goes on from `j + 1`. |
| SudokuTransforms.RunPass | transform.py:69-71 | The inner loop of `build` computes exactly the pass outputs. |
| SudokuTransforms.BuildStep | transform.py:67-72 | One step of the outer loop: a failing pass leaves the list as it is and ends the build; otherwise its outputs join the list and the build goes on with the next transform. |
| SudokuTransforms.TransformSudokuGenerator.constructor | transform.py:60-62 | The generator starts with the given sudokus and no transforms. |
| SudokuTransforms.TransformSudokuGenerator.AddTransform | transform.py:64-65 | The transform joins the end of the list. |
| SudokuTransforms.TransformSudokuGenerator.Build | transform.py:67-72 | The new list is the specification `Built` of the old one: it works through the transforms in order and keeps the old list as a prefix. |

## Left out

- Loading is not modelled. This covers `fetch_openml`, archive extraction, `os.listdir`, `cv2.imread`, `imageio`, JSON manifests and plotting. The loaded arrays and code points are arguments of the `Load*` methods.
- Randomness is not modelled: `np.random.shuffle`, `randint` and `choice` results are arguments. Every transform is a fixed function `Image -> Image`, so its internal randomness is fixed per value.
- `p_map` and the progress bars are not modelled: `p_map` is an order-preserving sequential map, and the progress bars have no effect.
- The OpenCV and PIL numerics are function parameters. These are `cv2.resize`, generic `cvtColor`, `warpPerspective`, `getPerspectiveTransform`, `undistort`, `Image.transform` and the least-squares inverse of `find_coeffs`.
- SimDataset.ResizedAll: the result images are not proved to have the requested side, because the resizer is a parameter.
- SimDataset.WithAlpha: the float average mode of `induce_alpha` is a parameter, because it computes in floats.
- The float noise transforms, the JPEG round trip and the filters are not part of this model; they are float arithmetic or wrappers over OpenCV. The cv2 rectangle outline drawn by `EmbedInRectangle` is a parameter giving the painted cells.
- Noise.EmbedInRectangle: numpy broadcasting of a grid slice whose shape does not match is modelled only as the ValueError it raises when the offsets are non-zero. The channel axis of colour images is kept inside the pixel type.
- SimDataset.CharacterDataset.ApplyTransforms: a transformed image with a different shape is always a ValueError. numpy would broadcast one whose differing dimensions are 1, and the model does not follow that. An empty colour stack is not told apart from an empty grey one, so it does not raise.
- DigitDataset.CharacterDataset.ApplyTransforms: the same two simplifications as in the simulation module.
- SudokuTransforms.TransformApply: rotation and flip use the corrected `RotationApply` and `FlipApply` of the Findings table. So `Outputs`, `Built`, `RunPass` and `TransformSudokuGenerator.Build` describe the generator as intended. As written, a queued Rotation raises IndexError at the first sudoku, and a Flip adds at most one grid per sudoku.
- Noise.PixelCount: `amount * img.size * ratio` is exact real arithmetic, not float. With floats, amount 0.07 on 100 pixels gives 7.000000000000001 and numpy draws 8 pixels, where the model draws 7.
- Noise.CanvasSide: `int(d + inset * d)` is exact real arithmetic, so float rounding in the product is not modelled.
- Noise.EmbedOffset: `int(abs(offset * d))` is exact real arithmetic, so float rounding in the product is not modelled.
- Perspective.MaxDisplacement: `np.floor(dim * max_shift)` is exact real arithmetic, so float rounding in the product is not modelled.
- Memory left by `np.empty` is not modelled. Rows nobody writes are explicit blank arguments (`fillX`, `blankX`, `blankY`) or the `Unwritten` image.
- SimDataset.ConcatDatasets: an image that is not grey of the first input's side always raises ValueError. numpy would broadcast an image whose differing dimensions are 1, and the model does not follow that; an input whose empty split is a one-dimensional array is treated like an empty grey stack.
- DigitDataset.ConcatDatasets: the same simplification as `SimDataset.ConcatDatasets`.
- SimDataset.CharacterDataset.LoadConcat and DigitDataset.CharacterDataset.LoadConcat: `ConcatDataset` resizes the caller's dataset objects in place (`d.resize(res)`). The model works on snapshots of their states, so that aliasing is left out.
- Images.Image: a colour-space conversion result is either grey or four-channel BGRA. A three-channel result, such as one from `COLOR_GRAY2BGR`, cannot be expressed. So neither can the IndexError that `induce_alpha` then raises when it reads channel 3. This affects `SimDataset.WithColorspace` and `SimDataset.CharacterDataset.CvtColor`.
- Generators.BalancedDataGenerator.GetItem: the shape `np.vstack` sees for an empty window is read off the dataset's first train image. For an empty train array that shape is unknown, and no constraint is placed on it. The channel axis `x[:, :, :, np.newaxis]` adds without `flatten` only changes the array shape, so it is not modelled.
- Generators.BalancedDataGenerator.constructor: the warning for a batch size not divisible by three has no effect and is left out.
- The float casts and scaling to [0, 1] in the generators are not modelled. Batches hold the selected images, or with `flatten` their byte values as rows.
- DigitDataset.GetResized: the float dtype of the digit module's result array is not modelled.
- The per-image resize in the curated loaders is not modelled; the loaders receive images at the dataset resolution.
- `int(np.floor(n / b))` is exact integer division. Float precision for very large `n` is not modelled.
- `Sudoku.from_array` and `is_valid` come from sudoku_generator, which is not part of this model. They are the `valid` parameter, and sudokus are 9 by 9 grids.
- SudokuTransforms.SwitchApply: a switch whose length is not 3 but still covers the bands passes the constructor. That case is modelled as the ValueError numpy raises at the scatter.
- The module-level `transform_sudoku()` call and the `generate_composition` and `test_generator` helpers are not modelled; they are scripts.
- training.py and the Keras model construction are not modelled.
- The distinction between an empty one-dimensional numpy array and an empty image stack is not modelled.
- Recognition.DigitDataGenerator.Len: `__len__` has no contract of its own; its properties are in `LenServesFullBatches`.
- Perspective.LensApply: `LensDistortion.apply` only passes its arguments to `cv2.undistort`, so it carries no contract.

## Findings

| source | as written | input that shows it | evidently intended | confidence | as-written member | corrected member |
|---|---|---|---|---|---|---|
| simulation/data/dataset.py:572-575 | `FilteredMNIST.get_random(digit)` looks up `digit - 1` in a dictionary keyed by the digits 1..9 | `digit = 1` raises KeyError; `digit = 2` returns an image of a 1 | look up the digit under its own key | high, not executed | SimDataset.FilteredGetRandomAsWrittenMisses | SimDataset.FilteredGetRandomSpec |
| digit/digit_dataset.py:411-412 | the test arrays of `ConcatDataset` are allocated with the combined train size | one input with 1 train and 0 test samples gives a test array of one unwritten row; 0 train and 2 test samples raise ValueError | size the test arrays by the combined test size | high, not executed | DigitDataset.ConcatAsWrittenRejectsTest | DigitDataset.ConcatDatasetsSpec |
| digit_recognition/digit_dataset.py:50 | the guard `0 > item >= 9 * 915` can never hold | `item = 9 * 915` returns label 9 and `item = -1` returns -1 instead of raising IndexError | raise IndexError outside `0 <= item < 9 * 915` | high, not executed | Recognition.GetLabelAsWrittenNeverRaises | Recognition.GetLabel |
| transform.py:15-17 | `Rotation.apply` rotates `ret[i]` of the list it has just created empty | every sudoku raises IndexError | rotate the input sudoku by one, two and three quarter turns | high, not executed | SudokuTransforms.RotationAsWrittenFails | SudokuTransforms.RotationApply |
| transform.py:27-31 | the `return` of `Flip.apply` is inside the loop over the axes | a sudoku whose flips are all valid yields one flip, not three | return after all three axes | high, not executed | SudokuTransforms.FlipAsWrittenDropsFlips | SudokuTransforms.FlipApply |
