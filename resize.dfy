/** Width normalisation: the last stage of the pipeline. */
module Resize {
  import opened Errors
  import opened Images

  /** Python's `int(x)` on a number: truncation toward zero. */
  function Trunc(x: real): (r: int)
    ensures x >= 0.0 ==> r as real <= x < r as real + 1.0
    ensures x < 0.0 ==> r as real - 1.0 < x <= r as real
  {
    if x >= 0.0 then x.Floor else -((-x).Floor)
  }

  /** The height `resize_to_ocr` asks for when scaling width `w` to `target`. */
  function NewHeight(h: int, w: int, target: int): int
    requires w != 0
  {
    Trunc(h as real * (target as real / w as real))
  }

  /** Cubic interpolation when the scale factor exceeds 1, area interpolation otherwise. */
  function InterpolationFor(w: int, target: int): Interpolation
    requires w != 0
  {
    if target as real / w as real > 1.0 then InterCubic else InterArea
  }

  /** The output size `cv2.resize` accepts: both sides positive. */
  predicate ValidOutputSize(h: int, w: int, target: int)
    requires w != 0
  {
    target > 0 && NewHeight(h, w, target) > 0
  }

  /** `resize_to_ocr(image, target_width)`: the shape guards; an image already at the target
      width is returned unchanged; a zero width divides by zero; an output size with a side
      that is not positive makes `cv2.resize` raise; otherwise the image is resized to the
      target width and the proportional, truncated height. */
  function ResizeToOcr(arg: ImageArg, target: int): (r: Result<Image>)
    ensures RequireTwoD(ResizeStage, arg).Err? ==> r == RequireTwoD(ResizeStage, arg)
    ensures r.Ok? <==>
      arg.Array? && |ShapeOf(arg.img)| == 2 &&
      (ShapeOf(arg.img)[1] == target ||
       (ShapeOf(arg.img)[1] != 0 && ValidOutputSize(ShapeOf(arg.img)[0], ShapeOf(arg.img)[1], target)))
    ensures arg.Array? && |ShapeOf(arg.img)| == 2 && ShapeOf(arg.img)[1] != target && ShapeOf(arg.img)[1] != 0 &&
            !ValidOutputSize(ShapeOf(arg.img)[0], ShapeOf(arg.img)[1], target) ==>
              r == Err(CvError(ResizeStage))
    ensures r.Ok? ==> arg.Array? && |ShapeOf(arg.img)| == 2
    ensures r.Ok? ==> |ShapeOf(r.value)| == 2 && ShapeOf(r.value)[1] == target
    ensures r.Ok? && ShapeOf(arg.img)[1] != target ==> ShapeOf(r.value)[0] > 0
    ensures r.Ok? && ShapeOf(arg.img)[1] != target ==>
              ShapeOf(arg.img)[1] != 0 &&
              ShapeOf(r.value)[0] == NewHeight(ShapeOf(arg.img)[0], ShapeOf(arg.img)[1], target) &&
              r.value == Resized(arg.img, (target, ShapeOf(r.value)[0]), InterpolationFor(ShapeOf(arg.img)[1], target))
    ensures arg.Array? && |ShapeOf(arg.img)| == 2 && ShapeOf(arg.img)[1] == target ==> r == Ok(arg.img)
    ensures arg.Array? && |ShapeOf(arg.img)| == 2 && ShapeOf(arg.img)[1] == 0 && target != 0 ==>
              r == Err(ZeroDivision(ResizeStage))
  {
    var img :- RequireTwoD(ResizeStage, arg);
    var h, w := ShapeOf(img)[0], ShapeOf(img)[1];
    if w == target then Ok(img)
    else if w == 0 then Err(ZeroDivision(ResizeStage))
    else if !ValidOutputSize(h, w, target) then Err(CvError(ResizeStage))
    else Ok(Resized(img, (target, NewHeight(h, w, target)), InterpolationFor(w, target)))
  }

  /** Resizing an already resized image changes nothing. */
  lemma ResizeIdempotent(arg: ImageArg, target: int)
    requires ResizeToOcr(arg, target).Ok?
    ensures ResizeToOcr(Array(ResizeToOcr(arg, target).value), target) == ResizeToOcr(arg, target)
  {
  }

  /** For non-negative sizes the float expression `int(h * (target / w))` is, in exact
      arithmetic, the floor division `h * target // w`. */
  lemma {:induction false} NewHeightIsFloorDivision(h: nat, w: nat, target: nat)
    requires w > 0
    ensures NewHeight(h, w, target) == (h * target) / w
  {
    var q, rem := (h * target) / w, (h * target) % w;
    assert h * target == q * w + rem;
    var x := h as real * (target as real / w as real);
    assert x == (h * target) as real / w as real;
    assert x == q as real + rem as real / w as real;
    assert 0.0 <= rem as real / w as real < 1.0;
  }

  /** Downscaling never increases the height. */
  lemma {:induction false} DownscaleShrinksHeight(h: nat, w: nat, target: nat)
    requires 0 < target < w
    ensures 0 <= NewHeight(h, w, target) <= h
  {
    NewHeightIsFloorDivision(h, w, target);
    var q := (h * target) / w;
    assert q * w <= h * target;
    MulMonotone(h, target, w);
    if q > h {
      MulMonotone(w, h + 1, q);
      assert false;
    }
  }

  lemma MulMonotone(a: nat, b: nat, c: nat)
    requires b <= c
    ensures a * b <= a * c
  {
  }

  /** Cubic interpolation is chosen exactly when the image is upscaled. */
  lemma {:induction false} CubicIffUpscaling(w: nat, target: int)
    requires w > 0
    ensures InterpolationFor(w, target) == InterCubic <==> target > w
  {
    var s := target as real / w as real;
    assert s * w as real == target as real;
    if s > 1.0 {
      assert s * w as real > 1.0 * w as real;
    } else {
      assert s * w as real <= 1.0 * w as real;
    }
  }
}
