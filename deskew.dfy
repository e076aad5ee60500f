/** Rotation correction: the fifth stage of the pipeline. */
module Deskew {
  import opened Errors
  import opened Images

  /** The correction applied for the angle cv2.minAreaRect reports: angles below -45
      degrees belong to the other orientation of the rectangle. */
  function CorrectionAngle(angle: real): (r: real)
    ensures angle < -45.0 ==> r == -(90.0 + angle)
    ensures angle >= -45.0 ==> r == -angle
  {
    if angle < -45.0 then -(90.0 + angle) else -angle
  }

  /** For a reported angle in [-90, 0] (OpenCV before 4.5.1) the correction lies in (-45, 45];
      for one in (0, 90] (OpenCV 4.5.1 and later) it is the negated angle, in [-90, 0). */
  lemma CorrectionInRange(angle: real)
    ensures -90.0 <= angle <= 0.0 ==> -45.0 < CorrectionAngle(angle) <= 45.0
    ensures 0.0 < angle <= 90.0 ==> CorrectionAngle(angle) == -angle && -90.0 <= CorrectionAngle(angle) < 0.0
  {
  }

  /** `deskew(image)`: the shape guards; a page with no pixel above 0 is returned as it is;
      otherwise the image is rotated about (w // 2, h // 2) into an output of the same size. */
  function Deskew(arg: ImageArg, vision: Vision): (r: Result<Image>)
    ensures r.Ok? <==> arg.Array? && |ShapeOf(arg.img)| == 2
    ensures RequireTwoD(DeskewStage, arg).Err? ==> r == RequireTwoD(DeskewStage, arg)
    ensures r.Ok? ==> ShapeOf(r.value) == ShapeOf(arg.img)
    ensures r.Ok? && !vision.hasForeground(arg.img) ==> r.value == arg.img
    ensures r.Ok? && vision.hasForeground(arg.img) ==>
      var s := ShapeOf(arg.img);
      r.value == Rotated(arg.img, (s[1] / 2, s[0] / 2), CorrectionAngle(vision.rectAngle(arg.img)), (s[1], s[0]))
  {
    var img :- RequireTwoD(DeskewStage, arg);
    if !vision.hasForeground(img) then Ok(img)
    else
      var angle := CorrectionAngle(vision.rectAngle(img));
      var h, w := ShapeOf(img)[0], ShapeOf(img)[1];
      Ok(Rotated(img, (FloorDiv(w, 2), FloorDiv(h, 2)), angle, (w, h)))
  }

  /** Python's `//` rounds toward negative infinity. */
  function FloorDiv(a: int, b: int): (q: int)
    requires b > 0
    ensures q * b <= a < q * b + b
  {
    a / b
  }
}
