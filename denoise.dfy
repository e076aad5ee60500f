/** Median denoising: the second stage of the pipeline. */
module Denoise {
  import opened Errors
  import opened Images

  /** The kernel sizes `median_denoise` accepts: odd and at least 3. */
  predicate ValidKernel(ksize: int) {
    ksize >= 3 && ksize % 2 == 1
  }

  /** `median_denoise(image, ksize)`: the shape guards first, then the kernel check,
      then a median blur with that kernel. */
  function MedianDenoise(arg: ImageArg, ksize: int): (r: Result<Image>)
    ensures r.Ok? <==> arg.Array? && |ShapeOf(arg.img)| == 2 && ValidKernel(ksize)
    ensures r.Ok? ==> r.value == MedianBlurred(arg.img, ksize) && ShapeOf(r.value) == ShapeOf(arg.img)
    ensures RequireTwoD(DenoiseStage, arg).Err? ==> r == RequireTwoD(DenoiseStage, arg)
    ensures RequireTwoD(DenoiseStage, arg).Ok? && !ValidKernel(ksize) ==> r == Err(BadKernelSize(ksize))
  {
    var img :- RequireTwoD(DenoiseStage, arg);
    if !ValidKernel(ksize) then Err(BadKernelSize(ksize))
    else Ok(MedianBlurred(img, ksize))
  }

  /** 3, 5 and 7 are accepted; 1, 2 and 4 are not. */
  lemma KernelExamples()
    ensures ValidKernel(3) && ValidKernel(5) && ValidKernel(7)
    ensures !ValidKernel(1) && !ValidKernel(2) && !ValidKernel(4)
  {
  }

  /** A colour image with a bad kernel reports the shape, not the kernel. */
  lemma ShapeCheckedBeforeKernel(id: nat, h: nat, w: nat, ksize: int)
    ensures MedianDenoise(Array(Raw(id, [h, w, 3])), ksize) == Err(UnsupportedShape(DenoiseStage, [h, w, 3]))
  {
  }
}
