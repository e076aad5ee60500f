/** Adaptive binarisation: the fourth stage of the pipeline. */
module Threshold {
  import opened Errors
  import opened Images

  /** The block sizes `adaptive_threshold` accepts: odd and at least 11. */
  predicate ValidBlockSize(blockSize: int) {
    !(blockSize < 11 || blockSize % 2 == 0)
  }

  /** The value written for pixels above the local threshold (cv2.THRESH_BINARY). */
  const MaxValue := 255

  /** `adaptive_threshold(image, block_size, C)`: the shape guards, then the block size;
      C is not constrained. */
  function AdaptiveThreshold(arg: ImageArg, blockSize: int, c: int): (r: Result<Image>)
    ensures r.Ok? <==> arg.Array? && |ShapeOf(arg.img)| == 2 && ValidBlockSize(blockSize)
    ensures r.Ok? ==> r.value == Thresholded(arg.img, MaxValue, blockSize, c) && ShapeOf(r.value) == ShapeOf(arg.img)
    ensures RequireTwoD(ThresholdStage, arg).Err? ==> r == RequireTwoD(ThresholdStage, arg)
    ensures RequireTwoD(ThresholdStage, arg).Ok? && !ValidBlockSize(blockSize) ==> r == Err(BadBlockSize(blockSize))
  {
    var img :- RequireTwoD(ThresholdStage, arg);
    if blockSize < 11 || blockSize % 2 == 0 then Err(BadBlockSize(blockSize))
    else Ok(Thresholded(img, MaxValue, blockSize, c))
  }

  /** A valid block size is odd and at least 11: 11 and 13 pass, 9 and 12 do not. */
  lemma BlockSizeExamples()
    ensures ValidBlockSize(11) && ValidBlockSize(13)
    ensures !ValidBlockSize(9) && !ValidBlockSize(12)
  {
  }

  /** Any constant C is accepted once the image and the block size are valid. */
  lemma AnyConstantAccepted(img: Image, blockSize: int, c: int, c': int)
    requires AdaptiveThreshold(Array(img), blockSize, c).Ok?
    ensures AdaptiveThreshold(Array(img), blockSize, c').Ok?
  {
  }
}
