/** Images as the datasets store them, the transform capability, and the bulk
    byte-level pixel operations of simulation/data/dataset.py (bit-wise inversion, the
    GRAY to BGRA fast path and alpha induction). */
module Images {
  import opened Base

  /** One pixel of a four-channel image, in OpenCV's channel order. */
  datatype Bgra = Bgra(b: Byte, g: Byte, r: Byte, a: Byte)

  /** A single-channel image or a four-channel BGRA image, as rows of pixels. */
  datatype Image = Gray(gray: seq<seq<Byte>>) | Color(color: seq<seq<Bgra>>)

  /** The side length (`img.shape[0]`). */
  function Side(img: Image): nat
  {
    if img.Gray? then |img.gray| else |img.color|
  }

  /** An `ImageTransform.apply`, as a function of the image. The randomness a transform
      draws on each call is folded into the function value. */
  type Transform = Image -> Image

  /** A transform sequence applied in order: the first transform sees the input image. */
  function Compose(ts: seq<Transform>, img: Image): Image
  {
    if ts == [] then img else Compose(ts[1..], ts[0](img))
  }

  lemma {:induction false} ComposeAppend(ts: seq<Transform>, t: Transform, img: Image)
    ensures Compose(ts + [t], img) == t(Compose(ts, img))
  {
    if ts != [] {
      assert (ts + [t])[1..] == ts[1..] + [t];
      ComposeAppend(ts[1..], t, ts[0](img));
    }
  }

  predicate SameShape<A, B>(x: seq<seq<A>>, y: seq<seq<B>>)
  {
    |x| == |y| && forall i :: 0 <= i < |x| ==> |x[i]| == |y[i]|
  }

  /** `cv2.bitwise_not` on one uint8 sample. */
  function Not(v: Byte): Byte { 255 - v }

  function NotPixel(p: Bgra): Bgra { Bgra(Not(p.b), Not(p.g), Not(p.r), Not(p.a)) }

  /** `cv2.bitwise_not` of a whole image: every sample of every channel (alpha included)
      becomes 255 minus itself; the shape and the kind of image are kept. */
  function Invert(img: Image): (r: Image)
    ensures r.Gray? == img.Gray?
    ensures r.Gray? ==> SameShape(r.gray, img.gray)
    ensures r.Gray? ==> forall i, j :: 0 <= i < |img.gray| && 0 <= j < |img.gray[i]| ==>
      r.gray[i][j] == 255 - img.gray[i][j]
    ensures r.Color? ==> SameShape(r.color, img.color)
    ensures r.Color? ==> forall i, j :: 0 <= i < |img.color| && 0 <= j < |img.color[i]| ==>
      r.color[i][j] == NotPixel(img.color[i][j])
  {
    match img
    case Gray(px) => Gray(seq(|px|, i requires 0 <= i < |px| =>
                          seq(|px[i]|, j requires 0 <= j < |px[i]| => Not(px[i][j]))))
    case Color(px) => Color(seq(|px|, i requires 0 <= i < |px| =>
                          seq(|px[i]|, j requires 0 <= j < |px[i]| => NotPixel(px[i][j]))))
  }

  /** Inverting twice gives the image back. */
  lemma InvertInvolution(img: Image)
    ensures Invert(Invert(img)) == img
  {
    var r := Invert(Invert(img));
    match img
    case Gray(px) =>
      assert |r.gray| == |px|;
      forall i | 0 <= i < |px| ensures r.gray[i] == px[i] {
        assert |r.gray[i]| == |px[i]|;
      }
    case Color(px) =>
      assert |r.color| == |px|;
      forall i | 0 <= i < |px| ensures r.color[i] == px[i] {
        assert |r.color[i]| == |px[i]|;
      }
  }

  /** The GRAY2BGRA fast path for one image: each gray value `v` becomes the pixel
      `(v, v, v, 255 - v)`. The path reshapes the array to four channels, which fails
      with a ValueError for an image that already has four. */
  function GrayToBgra(img: Image): (r: Result<Image>)
    ensures r.Ok? <==> img.Gray?
    ensures r.Ok? ==> r.value.Color? && SameShape(r.value.color, img.gray)
    ensures r.Ok? ==> forall i, j :: 0 <= i < |img.gray| && 0 <= j < |img.gray[i]| ==>
      var p, v := r.value.color[i][j], img.gray[i][j];
      p.b == v && p.g == v && p.r == v && p.a == 255 - v
  {
    match img
    case Gray(px) => Ok(Color(seq(|px|, i requires 0 <= i < |px| =>
                        seq(|px[i]|, j requires 0 <= j < |px[i]| =>
                          Bgra(px[i][j], px[i][j], px[i][j], Not(px[i][j]))))))
    case Color(_) => Err(ValueError)
  }

  /** The gray value can be read back from the colour channels, and the alpha channel is
      the inverted image: the fast path loses nothing and agrees with `Invert`. */
  lemma GrayToBgraAgreesWithInvert(img: Image, i: nat, j: nat)
    requires img.Gray? && i < |img.gray| && j < |img.gray[i]|
    ensures GrayToBgra(img).Ok?
    ensures GrayToBgra(img).value.color[i][j].b == img.gray[i][j]
    ensures GrayToBgra(img).value.color[i][j].a == Invert(img).gray[i][j]
  {
  }

  /** The alpha a chroma key assigns: 0 where alpha equals the key and 255 elsewhere,
      and the other way round when `invert`. */
  function KeyedAlpha(a: Byte, key: int, invert: bool): Byte
  {
    if a == key then (if invert then 255 else 0) else (if invert then 0 else 255)
  }

  /** Alpha induction from a chroma-key value on one image. Only the alpha channel changes.
      A single-channel image has no channel 3: IndexError. */
  function ChromaKeyAlpha(img: Image, key: int, invert: bool): (r: Result<Image>)
    ensures r.Ok? <==> img.Color?
    ensures r.Ok? ==> r.value.Color? && SameShape(r.value.color, img.color)
    ensures r.Ok? ==> forall i, j :: 0 <= i < |img.color| && 0 <= j < |img.color[i]| ==>
      var p, q := img.color[i][j], r.value.color[i][j];
      q.b == p.b && q.g == p.g && q.r == p.r
      && q.a == (if p.a == key then (if invert then 255 else 0) else (if invert then 0 else 255))
  {
    match img
    case Gray(_) => Err(IndexError)
    case Color(px) => Ok(Color(seq(|px|, i requires 0 <= i < |px| =>
                         seq(|px[i]|, j requires 0 <= j < |px[i]| =>
                           px[i][j].(a := KeyedAlpha(px[i][j].a, key, invert))))))
  }

  /** After chroma keying, alpha is two-valued, and flipping `invert` inverts it. */
  lemma ChromaKeyInvertIsNot(img: Image, key: int, i: nat, j: nat)
    requires img.Color? && i < |img.color| && j < |img.color[i]|
    ensures ChromaKeyAlpha(img, key, false).Ok? && ChromaKeyAlpha(img, key, true).Ok?
    ensures ChromaKeyAlpha(img, key, true).value.color[i][j].a
         == Not(ChromaKeyAlpha(img, key, false).value.color[i][j].a)
    ensures ChromaKeyAlpha(img, key, false).value.color[i][j].a in {0, 255}
  {
  }

  /** Sample `c` of a BGRA pixel. */
  function Channel(p: Bgra, c: nat): Byte
    requires c < 4
  {
    if c == 0 then p.b else if c == 1 then p.g else if c == 2 then p.r else p.a
  }

  /** The numpy index of a channel subscript (negative subscripts count from the end). */
  function ChannelIndex(c: int): (r: Option<nat>)
    ensures r.Some? <==> -4 <= c < 4
    ensures r.Some? ==> r.value < 4 && r.value % 4 == c % 4
  {
    if 0 <= c < 4 then Some(c) else if -4 <= c < 0 then Some(c + 4) else None
  }

  function MaxOfChannels(p: Bgra, cs: seq<nat>): (m: Byte)
    requires |cs| > 0 && forall k :: 0 <= k < |cs| ==> cs[k] < 4
    ensures forall k :: 0 <= k < |cs| ==> Channel(p, cs[k]) <= m
    ensures exists k :: 0 <= k < |cs| && Channel(p, cs[k]) == m
  {
    if |cs| == 1 then Channel(p, cs[0])
    else
      var rest := MaxOfChannels(p, cs[1..]);
      assert forall k :: 1 <= k < |cs| ==> cs[k] == cs[1..][k - 1];
      if Channel(p, cs[0]) >= rest then Channel(p, cs[0]) else rest
  }

  /** Normalises every channel subscript, or None when one is out of range. */
  function ChannelIndices(cs: seq<int>): (r: Option<seq<nat>>)
    ensures r.Some? <==> forall k :: 0 <= k < |cs| ==> -4 <= cs[k] < 4
    ensures r.Some? ==> |r.value| == |cs|
    ensures r.Some? ==> forall k :: 0 <= k < |cs| ==> ChannelIndex(cs[k]) == Some(r.value[k])
  {
    if cs == [] then Some([])
    else
      var rest := ChannelIndices(cs[1..]);
      assert forall k :: 1 <= k < |cs| ==> cs[k] == cs[1..][k - 1];
      if ChannelIndex(cs[0]).None? || rest.None? then None
      else Some([ChannelIndex(cs[0]).value] + rest.value)
  }

  /** Alpha induction from the maximum of selected channels on one image: alpha becomes
      that maximum, inverted when `invert`. Subscripts outside -4..3, or a single-channel
      image, raise IndexError; an empty channel list makes `np.max` raise ValueError. */
  function MaxChannelAlpha(img: Image, channels: seq<int>, invert: bool): (r: Result<Image>)
    ensures r.Ok? <==> img.Color? && ChannelIndices(channels).Some? && |channels| > 0
    ensures r.Ok? ==> r.value.Color? && SameShape(r.value.color, img.color)
    ensures r.Ok? ==> forall i, j :: 0 <= i < |img.color| && 0 <= j < |img.color[i]| ==>
      var p, q, m := img.color[i][j], r.value.color[i][j],
                     MaxOfChannels(img.color[i][j], ChannelIndices(channels).value);
      q.b == p.b && q.g == p.g && q.r == p.r && q.a == (if invert then 255 - m else m)
  {
    if img.Gray? then Err(IndexError)
    else if ChannelIndices(channels).None? then Err(IndexError)
    else if |channels| == 0 then Err(ValueError)
    else
      var cs := ChannelIndices(channels).value;
      var px := img.color;
      Ok(Color(seq(|px|, i requires 0 <= i < |px| =>
        seq(|px[i]|, j requires 0 <= j < |px[i]| =>
          var m := MaxOfChannels(px[i][j], cs);
          px[i][j].(a := if invert then Not(m) else m)))))
  }

  /** The three mutually exclusive alpha-induction modes, in the order they are tried. */
  datatype AlphaMode = AverageOf(avgChannels: seq<int>) | ZeroValue(key: int) | MaxOf(maxChannels: seq<int>)

  /** The mode `_get_with_alpha` takes: the average if given, else the chroma key if
      given, else the maximum if given; with none of the three it raises RuntimeError. */
  function SelectAlphaMode(average: Option<seq<int>>, zeroValue: Option<int>, maxOf: Option<seq<int>>)
    : (r: Result<AlphaMode>)
    ensures r.Err? <==> average.None? && zeroValue.None? && maxOf.None?
    ensures r.Ok? && r.value.ZeroValue? ==> average.None? && zeroValue == Some(r.value.key)
    ensures r.Ok? && r.value.MaxOf? ==> average.None? && zeroValue.None?
    ensures average.Some? ==> r == Ok(AverageOf(average.value))
  {
    if average.Some? then Ok(AverageOf(average.value))
    else if zeroValue.Some? then Ok(ZeroValue(zeroValue.value))
    else if maxOf.Some? then Ok(MaxOf(maxOf.value))
    else Err(RuntimeError)
  }

  /** `induce_alpha` falls back to averaging channels (0, 1, 2) when no mode is given,
      so its selection never fails. */
  function InduceAlphaMode(average: Option<seq<int>>, zeroValue: Option<int>, maxOf: Option<seq<int>>)
    : (r: AlphaMode)
    ensures average.None? && zeroValue.None? && maxOf.None? ==> r == AverageOf([0, 1, 2])
    ensures !(average.None? && zeroValue.None? && maxOf.None?) ==>
      Ok(r) == SelectAlphaMode(average, zeroValue, maxOf)
  {
    var avg := if average.None? && zeroValue.None? && maxOf.None? then Some([0, 1, 2]) else average;
    SelectAlphaMode(avg, zeroValue, maxOf).value
  }

  /** A per-image operation applied to a whole stack of images; the stack fails when any
      image does, with that image's error. */
  function MapAll(xs: seq<Image>, f: Image -> Result<Image>): (r: Result<seq<Image>>)
    ensures r.Ok? <==> forall i :: 0 <= i < |xs| ==> f(xs[i]).Ok?
    ensures r.Ok? ==> |r.value| == |xs| && forall i :: 0 <= i < |xs| ==> f(xs[i]) == Ok(r.value[i])
    ensures r.Err? ==> exists i :: 0 <= i < |xs| && f(xs[i]) == Err(r.error)
  {
    if xs == [] then Ok([])
    else
      var head, tail := f(xs[0]), MapAll(xs[1..], f);
      assert forall i :: 1 <= i < |xs| ==> xs[i] == xs[1..][i - 1];
      if head.Err? then Err(head.error)
      else if tail.Err? then
        var i :| 0 <= i < |xs[1..]| && f(xs[1..][i]) == Err(tail.error);
        assert f(xs[i + 1]) == Err(tail.error);
        Err(tail.error)
      else Ok([head.value] + tail.value)
  }

  /** `cv2.bitwise_not` over a whole stack of images. */
  function InvertAll(xs: seq<Image>): (r: seq<Image>)
    ensures |r| == |xs| && forall i :: 0 <= i < |xs| ==> r[i] == Invert(xs[i])
  {
    seq(|xs|, i requires 0 <= i < |xs| => Invert(xs[i]))
  }

  /** Inverting a stack twice gives it back. */
  lemma InvertAllInvolution(xs: seq<Image>)
    ensures InvertAll(InvertAll(xs)) == xs
  {
    forall i | 0 <= i < |xs| ensures InvertAll(InvertAll(xs))[i] == xs[i] {
      InvertInvolution(xs[i]);
    }
  }
}
