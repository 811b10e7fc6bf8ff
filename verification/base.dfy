/** Shared vocabulary: bytes, error results, and the numpy / Python sequence
    operations (arange, tile, fancy indexing, slicing, one-hot) the pipeline uses. */
module Base {

  /** An 8-bit unsigned sample, numpy's uint8. */
  type Byte = x: int | 0 <= x < 256

  datatype Option<+T> = None | Some(value: T)

  /** The Python exception kinds the modelled code raises. */
  datatype Error =
    | IndexError        // out-of-range subscript
    | KeyError          // missing dictionary key
    | ValueError        // numpy shape / argument errors, explicit `raise ValueError`
    | AssertionError    // a failed `assert`
    | RuntimeError      // an explicit `raise RuntimeError`
    | ZeroDivisionError // division by a zero batch size

  datatype Result<+T> = Ok(value: T) | Err(error: Error)

  function Min(a: int, b: int): int { if a <= b then a else b }

  /** `np.arange(n)`. */
  function Range(n: nat): (r: seq<int>)
    ensures |r| == n
    ensures forall i :: 0 <= i < n ==> r[i] == i
    ensures IsPermutation(r, n)
  {
    seq(n, i => i)
  }

  /** What `np.random.shuffle` leaves in an `np.arange(n)`: each of 0..n-1 exactly once. */
  predicate IsPermutation(p: seq<int>, n: nat)
  {
    && |p| == n
    && (forall i :: 0 <= i < n ==> 0 <= p[i] < n)
    && (forall i, j :: 0 <= i < j < n ==> p[i] != p[j])
  }

  /** Every entry of `idx` is a valid subscript of a sequence of length `n`. */
  predicate AllBelow(idx: seq<int>, n: nat)
  {
    forall i :: 0 <= i < |idx| ==> 0 <= idx[i] < n
  }

  /** numpy fancy indexing `s[idx]`. */
  function Gather<T>(s: seq<T>, idx: seq<int>): (r: seq<T>)
    requires AllBelow(idx, |s|)
    ensures |r| == |idx|
    ensures forall i :: 0 <= i < |idx| ==> r[i] == s[idx[i]]
  {
    seq(|idx|, i requires 0 <= i < |idx| => s[idx[i]])
  }

  /** Gathering with the identity order gives the sequence back. */
  lemma GatherRange<T>(s: seq<T>)
    ensures AllBelow(Range(|s|), |s|) && Gather(s, Range(|s|)) == s
  {
  }

  /** `np.tile(s, k)`: `k` copies of `s` one after another. */
  function Tile<T>(s: seq<T>, k: nat): (r: seq<T>)
  {
    if k == 0 then [] else Tile(s, k - 1) + s
  }

  lemma {:induction false} TileLength<T>(s: seq<T>, k: nat)
    ensures |Tile(s, k)| == |s| * k
  {
    if k > 0 {
      TileLength(s, k - 1);
      assert |s| * k == |s| * (k - 1) + |s|;
    }
  }

  /** Entry `j` of copy `b` of a tiled sequence is entry `j` of the original. */
  lemma {:induction false} TileAt<T>(s: seq<T>, k: nat, b: nat, j: nat)
    requires b < k && j < |s|
    ensures |s| * b + j < |Tile(s, k)| && Tile(s, k)[|s| * b + j] == s[j]
  {
    TileLength(s, k);
    TileLength(s, k - 1);
    assert |s| * k == |s| * (k - 1) + |s|;
    if b < k - 1 {
      TileAt(s, k - 1, b, j);
      assert |s| * b + j < |s| * (k - 1);
    } else {
      assert |s| * b == |s| * (k - 1);
    }
  }

  /** Concatenation of a sequence of sequences, in order. */
  function Flatten<T>(parts: seq<seq<T>>): seq<T>
  {
    if parts == [] then [] else Flatten(parts[..|parts| - 1]) + parts[|parts| - 1]
  }

  /** The sum of the lengths of `parts`. */
  function TotalLength<T>(parts: seq<seq<T>>): nat
  {
    if parts == [] then 0 else TotalLength(parts[..|parts| - 1]) + |parts[|parts| - 1]|
  }

  lemma {:induction false} FlattenLength<T>(parts: seq<seq<T>>)
    ensures |Flatten(parts)| == TotalLength(parts)
  {
    if parts != [] {
      FlattenLength(parts[..|parts| - 1]);
    }
  }

  /** Part `k` of a flattened sequence sits at the running offset `TotalLength(parts[..k])`. */
  lemma {:induction false} FlattenAt<T>(parts: seq<seq<T>>, k: nat, j: nat)
    requires k < |parts| && j < |parts[k]|
    ensures TotalLength(parts[..k]) + j < |Flatten(parts)|
    ensures Flatten(parts)[TotalLength(parts[..k]) + j] == parts[k][j]
  {
    var last := |parts| - 1;
    assert parts[..last + 1] == parts;
    FlattenLength(parts);
    FlattenLength(parts[..last]);
    if k < last {
      assert parts[..last][..k] == parts[..k];
      FlattenAt(parts[..last], k, j);
      TotalLengthPrefix(parts[..last], k);
    } else {
      assert parts[..k] == parts[..last];
    }
  }

  /** Running offsets never exceed the total. */
  lemma {:induction false} TotalLengthPrefix<T>(parts: seq<seq<T>>, k: nat)
    requires k <= |parts|
    ensures TotalLength(parts[..k]) <= TotalLength(parts)
  {
    if k < |parts| {
      var last := |parts| - 1;
      assert parts[..last][..k] == parts[..k];
      TotalLengthPrefix(parts[..last], k);
    } else {
      assert parts[..k] == parts;
    }
  }

  /** Python's normalisation of a slice bound against a length `n`. */
  function SliceBound(i: int, n: nat): (r: nat)
    ensures r <= n
  {
    if i < 0 then (if i + n < 0 then 0 else i + n) else if i > n then n else i
  }

  /** Python / numpy slicing `s[lo:hi]`: bounds are clamped, negative bounds count from the end. */
  function PySlice<T>(s: seq<T>, lo: int, hi: int): seq<T>
  {
    var a, b := SliceBound(lo, |s|), SliceBound(hi, |s|);
    if a <= b then s[a..b] else []
  }

  /** A window `[lo, hi)` with `0 <= lo <= hi` is the part of `s` it overlaps: it is
      truncated at the end of `s` and empty once `lo` is past the end. */
  lemma PySliceWindow<T>(s: seq<T>, lo: int, hi: int)
    requires 0 <= lo <= hi
    ensures PySlice(s, lo, hi) == s[Min(lo, |s|)..Min(hi, |s|)]
    ensures |PySlice(s, lo, hi)| == Min(hi, |s|) - Min(lo, |s|)
    ensures hi <= |s| ==> |PySlice(s, lo, hi)| == hi - lo
  {
  }

  /** `keras.utils.to_categorical` of one label: a 0/1 row of width `classes`. The label
      selects a column with numpy indexing, so a negative label counts from the end
      and a label outside `[-classes, classes)` raises IndexError. */
  function OneHot(y: int, classes: nat): (r: Result<seq<int>>)
    ensures r.Ok? <==> -(classes as int) <= y < classes
    ensures r.Ok? ==> |r.value| == classes
    ensures r.Ok? ==> forall c :: 0 <= c < classes ==>
      r.value[c] == (if c == (if y < 0 then y + classes else y) then 1 else 0)
  {
    if -(classes as int) <= y < classes then
      var hot := if y < 0 then y + classes else y;
      Ok(seq(classes, c => if c == hot then 1 else 0))
    else
      Err(IndexError)
  }

  /** One-hot encoding of a whole label vector; the first bad label raises. */
  function OneHotAll(ys: seq<int>, classes: nat): (r: Result<seq<seq<int>>>)
    ensures r.Ok? <==> forall i :: 0 <= i < |ys| ==> -(classes as int) <= ys[i] < classes
    ensures r.Ok? ==> |r.value| == |ys|
    ensures r.Ok? ==> forall i :: 0 <= i < |ys| ==> OneHot(ys[i], classes) == Ok(r.value[i])
  {
    if ys == [] then Ok([])
    else
      var head := OneHot(ys[0], classes);
      var tail := OneHotAll(ys[1..], classes);
      if head.Err? then Err(head.error)
      else if tail.Err? then Err(tail.error)
      else
        assert forall i :: 1 <= i < |ys| ==> ys[i] == ys[1..][i - 1];
        Ok([head.value] + tail.value)
  }
}
