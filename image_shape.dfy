/**
 * The per-image decision logic of `ComfyUIPixtral.process`: an image is
 * known here only by its shape. A torch tensor is squeezed (every size-1
 * axis removed), a 3-D shape whose first axis looks like a channel count is
 * rotated from (C, H, W) to (H, W, C), and the result is dispatched to a
 * pixel mode or to one of the two shape errors.
 */
module ImageShape {
  import opened Common
  import Text

  type Shape = seq<nat>

  /** An input image: its shape, whether it is a torch tensor, and its (unmodelled) pixels. */
  datatype RawImage<P> = RawImage(shape: Shape, isTensor: bool, pixels: P)

  /** The layout a channel-last shape is read as. */
  datatype Layout = Gray2D | GrayChannel | RgbChannels | RgbaChannels

  /** The mode of the PIL image that gets encoded; RGBA is always converted to RGB. */
  datatype Mode = Luminance | Rgb

  /** The PIL image handed to the encoder: mode, height (axis 0), width (axis 1). */
  datatype Canonical<P> = Canonical(mode: Mode, height: nat, width: nat, pixels: P)

  datatype ShapeError = UnexpectedChannels(channels: nat) | UnexpectedShape(shape: Shape)

  predicate IsChannelCount(c: nat) {
    c == 1 || c == 3 || c == 4
  }

  /** The number of elements an array of this shape holds. */
  function Product(s: Shape): nat {
    if s == [] then 1 else s[0] * Product(s[1..])
  }

  /** `tensor.squeeze()`: every axis of size 1 removed, the others kept in order. */
  function Squeeze(s: Shape): (r: Shape)
    ensures forall i :: 0 <= i < |r| ==> r[i] != 1
    ensures |r| <= |s|
  {
    if s == [] then []
    else if s[0] == 1 then Squeeze(s[1..])
    else [s[0]] + Squeeze(s[1..])
  }

  /** The channel-first heuristic: a 3-D shape whose first axis is 1, 3 or 4 is read as (C, H, W). */
  predicate LooksChannelFirst(s: Shape) {
    |s| == 3 && IsChannelCount(s[0])
  }

  /** `image.transpose(1, 2, 0)` when the heuristic fires; otherwise the shape as it is. */
  function ToChannelLast(s: Shape): (r: Shape)
    ensures |r| == |s| && multiset(r) == multiset(s)
    ensures LooksChannelFirst(s) ==> r[2] == s[0] && r[..2] == s[1..]
  {
    if LooksChannelFirst(s) then
      assert s == [s[0]] + [s[1], s[2]];
      [s[1], s[2], s[0]]
    else s
  }

  /** The shape after the tensor-only squeeze. */
  function Prepared<P>(img: RawImage<P>): (t: Shape)
    ensures !img.isTensor ==> t == img.shape
    ensures img.isTensor ==> |t| <= |img.shape| && forall i :: 0 <= i < |t| ==> t[i] != 1
  {
    if img.isTensor then Squeeze(img.shape) else img.shape
  }

  /** The shape that the mode dispatch looks at. */
  function Oriented<P>(img: RawImage<P>): Shape {
    ToChannelLast(Prepared(img))
  }

  /** The dispatch on a channel-last shape (lines 124-136 of the node). */
  function ClassifyLayout(s: Shape): (r: Result<Layout, ShapeError>)
    ensures r.Success? ==> |s| == 2 || |s| == 3
  {
    if |s| == 2 then Success(Gray2D)
    else if |s| == 3 then
      if s[2] == 1 then Success(GrayChannel)
      else if s[2] == 3 then Success(RgbChannels)
      else if s[2] == 4 then Success(RgbaChannels)
      else Failure(UnexpectedChannels(s[2]))
    else Failure(UnexpectedShape(s))
  }

  function ModeOf(l: Layout): Mode {
    match l
    case Gray2D => Luminance
    case GrayChannel => Luminance
    case RgbChannels => Rgb
    case RgbaChannels => Rgb
  }

  /** One image through squeeze, rotation and dispatch: the PIL image it becomes, or the error raised. */
  function Normalize<P>(img: RawImage<P>): (r: Result<Canonical<P>, ShapeError>)
    ensures r.Success? ==> r.value.pixels == img.pixels && |Oriented(img)| >= 2 && [r.value.height, r.value.width] == Oriented(img)[..2]
  {
    var s := Oriented(img);
    match ClassifyLayout(s)
    case Failure(e) => Failure(e)
    case Success(l) => Success(Canonical(ModeOf(l), s[0], s[1], img.pixels))
  }

  /** `str(e)` of the ValueError raised for a shape error. */
  function ShapeErrorMessage(e: ShapeError): (m: string)
    ensures e.UnexpectedChannels? ==> |m| > 31 && m[..31] == "Unexpected number of channels: "
    ensures e.UnexpectedShape? ==> |m| > 25 && m[..24] == "Unexpected image shape: "
  {
    match e
    case UnexpectedChannels(c) => "Unexpected number of channels: " + Text.NatToString(c)
    case UnexpectedShape(s) => "Unexpected image shape: " + Text.TupleToString(s)
  }

  // ---------------------------------------------------------------------
  // Squeeze

  /** Squeezing a concatenation squeezes each part: size-1 axes go, the rest stay in order. */
  lemma {:induction false} SqueezeAppend(a: Shape, b: Shape)
    ensures Squeeze(a + b) == Squeeze(a) + Squeeze(b)
  {
    if a == [] {
      assert a + b == b;
    } else {
      assert (a + b)[0] == a[0] && (a + b)[1..] == a[1..] + b;
      SqueezeAppend(a[1..], b);
    }
  }

  /** Squeezing removes every size-1 axis and keeps every other axis size as often as it occurred. */
  lemma {:induction false} SqueezeMultiset(s: Shape)
    ensures multiset(Squeeze(s)) == multiset(s)[1 := 0]
  {
    if s != [] {
      assert s == [s[0]] + s[1..];
      SqueezeMultiset(s[1..]);
    }
  }

  /** A shape with no size-1 axis is left alone, so squeezing twice is squeezing once. */
  lemma {:induction false} SqueezeKeepsNonUnit(s: Shape)
    requires forall i :: 0 <= i < |s| ==> s[i] != 1
    ensures Squeeze(s) == s
  {
    if s != [] {
      SqueezeKeepsNonUnit(s[1..]);
    }
  }

  lemma SqueezeIdempotent(s: Shape)
    ensures Squeeze(Squeeze(s)) == Squeeze(s)
  {
    SqueezeKeepsNonUnit(Squeeze(s));
  }

  /** Squeezing never changes the number of elements of the array. */
  lemma {:induction false} SqueezeKeepsProduct(s: Shape)
    ensures Product(Squeeze(s)) == Product(s)
  {
    if s != [] {
      SqueezeKeepsProduct(s[1..]);
      if s[0] != 1 {
        assert ([s[0]] + Squeeze(s[1..]))[1..] == Squeeze(s[1..]);
      }
    }
  }

  // ---------------------------------------------------------------------
  // Layout heuristic and mode dispatch

  /** The rotation: a 3-D shape with first axis in {1, 3, 4} becomes (s1, s2, s0); every other shape is unchanged. */
  lemma LayoutHeuristic<P>(img: RawImage<P>)
    ensures var t := Prepared(img);
      && (|t| == 3 && IsChannelCount(t[0]) ==> Oriented(img) == [t[1], t[2], t[0]])
      && (!(|t| == 3 && IsChannelCount(t[0])) ==> Oriented(img) == t)
    ensures !img.isTensor ==> Prepared(img) == img.shape
    ensures img.isTensor ==> Prepared(img) == Squeeze(img.shape)
  {
  }

  /** The mode table: the result follows the rotated shape, with H x W its first two axes; RGBA is never kept. */
  lemma ModeDispatch<P>(img: RawImage<P>)
    ensures var s := Oriented(img); var r := Normalize(img);
      && (r.Success? <==> |s| == 2 || (|s| == 3 && IsChannelCount(s[2])))
      && (r.Success? ==> r.value.height == s[0] && r.value.width == s[1] && r.value.pixels == img.pixels)
      && (r.Success? ==> (r.value.mode == Luminance <==> |s| == 2 || s[2] == 1))
      && (r.Success? ==> (r.value.mode == Rgb <==> |s| == 3 && (s[2] == 3 || s[2] == 4)))
  {
  }

  /** The errors: a 3-D shape with a bad last axis names that axis; any other rank names the shape; nothing else fails. */
  lemma ShapeErrors<P>(img: RawImage<P>)
    ensures var s := Oriented(img); var r := Normalize(img);
      && (|s| == 3 && !IsChannelCount(s[2]) ==> r == Failure(UnexpectedChannels(s[2])))
      && (|s| != 2 && |s| != 3 ==> r == Failure(UnexpectedShape(s)))
      && (r.Failure? ==> (|s| == 3 && !IsChannelCount(s[2])) || (|s| != 2 && |s| != 3))
  {
  }

  /**
   * In terms of the shape before rotation: a 2-D shape never fails, and a
   * 3-D one fails exactly when neither its first nor its last axis is a
   * plausible channel count, and then it reports the last axis.
   */
  lemma FailsExactly<P>(img: RawImage<P>)
    ensures var t := Prepared(img); var r := Normalize(img);
      && (r.Failure? <==> (|t| != 2 && |t| != 3) || (|t| == 3 && !IsChannelCount(t[0]) && !IsChannelCount(t[2])))
      && (|t| == 3 && !IsChannelCount(t[0]) && !IsChannelCount(t[2]) ==> r == Failure(UnexpectedChannels(t[2])))
      && (|t| != 2 && |t| != 3 ==> r == Failure(UnexpectedShape(t)))
  {
  }

  // ---------------------------------------------------------------------
  // What the heuristic recovers, against an independent description of layouts

  /** How an image is meant to be laid out, independently of the heuristic. */
  datatype Intended = Plain(h: nat, w: nat) | ChannelsLast(h: nat, w: nat, c: nat) | ChannelsFirst(c: nat, h: nat, w: nat)

  function IntendedShape(i: Intended): Shape {
    match i
    case Plain(h, w) => [h, w]
    case ChannelsLast(h, w, c) => [h, w, c]
    case ChannelsFirst(c, h, w) => [c, h, w]
  }

  function IntendedMode(i: Intended): Mode {
    if i.Plain? || i.c == 1 then Luminance else Rgb
  }

  /**
   * The layouts the heuristic reads correctly: a channel-last image whose
   * height is not itself 1, 3 or 4, any channel-first image, and for a
   * tensor, no spatial axis of size 1 (the squeeze would remove it).
   */
  predicate Unambiguous(i: Intended, isTensor: bool) {
    && (i.Plain? || IsChannelCount(i.c))
    && (i.ChannelsLast? ==> !IsChannelCount(i.h))
    && (isTensor ==> i.h != 1 && i.w != 1)
  }

  /** Dispatch of an already channel-last shape. */
  lemma NormalizeOriented<P>(img: RawImage<P>, h: nat, w: nat, c: nat)
    requires Oriented(img) == [h, w] || (Oriented(img) == [h, w, c] && IsChannelCount(c))
    ensures Normalize(img) == Success(Canonical(if |Oriented(img)| == 2 || c == 1 then Luminance else Rgb, h, w, img.pixels))
  {
  }

  /** Every unambiguous image becomes the PIL image its layout describes: its mode, H x W. */
  lemma NormalizeRecovers<P>(i: Intended, isTensor: bool, p: P)
    requires Unambiguous(i, isTensor)
    ensures Normalize(RawImage(IntendedShape(i), isTensor, p)) == Success(Canonical(IntendedMode(i), i.h, i.w, p))
  {
    var img := RawImage(IntendedShape(i), isTensor, p);
    match i
    case Plain(h, w) =>
      OrientedPlain(img, h, w);
      NormalizeOriented(img, h, w, 0);
    case ChannelsLast(h, w, c) =>
      OrientedChannelsLast(img, h, w, c);
      NormalizeOriented(img, h, w, c);
    case ChannelsFirst(c, h, w) =>
      OrientedChannelsFirst(img, c, h, w);
      NormalizeOriented(img, h, w, c);
  }

  lemma OrientedPlain<P>(img: RawImage<P>, h: nat, w: nat)
    requires img.shape == [h, w] && (img.isTensor ==> h != 1 && w != 1)
    ensures Oriented(img) == [h, w]
  {
    if img.isTensor {
      SqueezeKeepsNonUnit([h, w]);
    }
  }

  lemma OrientedChannelsLast<P>(img: RawImage<P>, h: nat, w: nat, c: nat)
    requires img.shape == [h, w, c] && IsChannelCount(c) && !IsChannelCount(h)
    requires img.isTensor ==> w != 1
    ensures Oriented(img) == if img.isTensor && c == 1 then [h, w] else [h, w, c]
  {
    if img.isTensor {
      assert [h, w, c] == [h, w] + [c];
      SqueezeAppend([h, w], [c]);
      SqueezeKeepsNonUnit([h, w]);
      if c != 1 {
        SqueezeKeepsNonUnit([c]);
      }
    }
  }

  lemma OrientedChannelsFirst<P>(img: RawImage<P>, c: nat, h: nat, w: nat)
    requires img.shape == [c, h, w] && IsChannelCount(c)
    requires img.isTensor ==> h != 1 && w != 1
    ensures Oriented(img) == if img.isTensor && c == 1 then [h, w] else [h, w, c]
  {
    var t := if img.isTensor && c == 1 then [h, w] else [c, h, w];
    if img.isTensor {
      SqueezeChannelsFirst(c, h, w);
    }
    assert Prepared(img) == t;
  }

  lemma SqueezeChannelsFirst(c: nat, h: nat, w: nat)
    requires h != 1 && w != 1
    ensures Squeeze([c, h, w]) == if c == 1 then [h, w] else [c, h, w]
  {
    assert [c, h, w] == [c] + [h, w];
    SqueezeAppend([c], [h, w]);
    SqueezeKeepsNonUnit([h, w]);
    SqueezeSingle(c);
  }

  lemma SqueezeSingle(c: nat)
    ensures Squeeze([c]) == if c == 1 then [] else [c]
  {
    assert [c][1..] == [];
  }

  /**
   * The known ambiguity: a channel-last (H, W, C) array whose height H is
   * 1, 3 or 4 is rotated as if channel-first, and is read as a W x C image
   * whose mode follows H. A 5-pixel-wide RGB image of height 3 comes out
   * 5 x 3.
   */
  lemma ChannelLastMisread<P>(h: nat, w: nat, c: nat, p: P)
    requires IsChannelCount(h)
    ensures Normalize(RawImage([h, w, c], false, p))
         == Success(Canonical(if h == 1 then Luminance else Rgb, w, c, p))
  {
  }

  lemma HeightThreeRgbTransposed<P>(p: P)
    ensures Normalize(RawImage([3, 5, 3], false, p)) == Success(Canonical(Rgb, 5, 3, p))
    ensures Normalize(RawImage([3, 5, 3], false, p)) != Success(Canonical(Rgb, 3, 5, p))
  {
    ChannelLastMisread(3, 5, 3, p);
  }

  /**
   * A tensor one pixel high loses its height to the squeeze: a (1, W, C)
   * tensor with W, C other than 1 is read as a W x C luminance image.
   */
  lemma {:induction false} OneRowTensorMisread<P>(w: nat, c: nat, p: P)
    requires w != 1 && c != 1
    ensures Normalize(RawImage([1, w, c], true, p)) == Success(Canonical(Luminance, w, c, p))
  {
    var img := RawImage([1, w, c], true, p);
    assert [1, w, c] == [1] + [w, c];
    SqueezeAppend([1], [w, c]);
    SqueezeKeepsNonUnit([w, c]);
    assert Prepared(img) == [w, c];
    assert Oriented(img) == [w, c];
    NormalizeOriented(img, w, c, 0);
  }

  /** Both shape errors can be read back: the channel count, or every axis of the shape. */
  lemma ShapeErrorReadBack(e: ShapeError)
    ensures e.UnexpectedChannels? ==>
      var m := ShapeErrorMessage(e); var k := |"Unexpected number of channels: "|;
      Text.AllDigits(m[k..]) && Text.DigitsValue(m[k..]) == e.channels
    ensures e.UnexpectedShape? ==>
      var m := ShapeErrorMessage(e); var k := |"Unexpected image shape: "|;
      Text.ParseTuple(m[k..]) == Some(e.shape)
  {
    var m := ShapeErrorMessage(e);
    match e
    case UnexpectedChannels(c) =>
      var k := |"Unexpected number of channels: "|;
      assert m[k..] == Text.NatToString(c);
      Text.DigitsValueOfNatToString(c);
    case UnexpectedShape(sh) =>
      var k := |"Unexpected image shape: "|;
      assert m[k..] == Text.TupleToString(sh);
      Text.TupleRoundTrip(sh);
  }
}
