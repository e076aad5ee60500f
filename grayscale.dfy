/** Grayscale normalisation: the first stage of the pipeline. */
module Grayscale {
  import opened Errors
  import opened Images

  /** `grayscale(image)`: a 2-D array is returned as it is, a 3-D array with three channels
      is converted from BGR, and every other input is rejected. */
  function ToGray(arg: ImageArg): (r: Result<Image>)
    ensures arg == NoneArg ==> r == Err(ImageIsNone(GrayscaleStage))
    ensures arg == NotArray ==> r == Err(NotAnArray(GrayscaleStage))
    ensures r.Ok? ==> arg.Array? && |ShapeOf(r.value)| == 2 && |ShapeOf(arg.img)| >= 2
    ensures r.Ok? ==> ShapeOf(r.value) == ShapeOf(arg.img)[..2]
    ensures arg.Array? && |ShapeOf(arg.img)| == 2 ==> r == Ok(arg.img)
    ensures arg.Array? ==> (r.Ok? <==> |ShapeOf(arg.img)| == 2 || (|ShapeOf(arg.img)| == 3 && ShapeOf(arg.img)[2] == 3))
    ensures arg.Array? && r.Err? ==> r.error == UnsupportedShape(GrayscaleStage, ShapeOf(arg.img))
  {
    match arg
    case NoneArg => Err(ImageIsNone(GrayscaleStage))
    case NotArray => Err(NotAnArray(GrayscaleStage))
    case Array(img) =>
      var s := ShapeOf(img);
      if |s| == 2 then Ok(img)
      else if |s| == 3 && s[2] == 3 then Ok(BgrToGray(img))
      else Err(UnsupportedShape(GrayscaleStage, s))
  }

  /** Converting twice is the same as converting once. */
  lemma ToGrayIdempotent(arg: ImageArg)
    requires ToGray(arg).Ok?
    ensures ToGray(Array(ToGray(arg).value)) == ToGray(arg)
  {
  }

  /** Colour images with 1 or 4 channels, and 1-D arrays, are rejected. */
  lemma ToGrayRejectsOtherShapes(id: nat, h: nat, w: nat)
    ensures ToGray(Array(Raw(id, [h, w, 1]))).Err?
    ensures ToGray(Array(Raw(id, [h, w, 4]))).Err?
    ensures ToGray(Array(Raw(id, [w]))).Err?
    ensures ToGray(Array(Raw(id, [h, w, 3]))) == Ok(BgrToGray(Raw(id, [h, w, 3])))
  {
  }
}
