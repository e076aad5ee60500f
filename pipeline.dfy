/** `preprocess_for_ocr`: the six stages in their fixed order. */
module Pipeline {
  import opened Errors
  import opened Images
  import Grayscale
  import Denoise
  import EnhanceContrast
  import Threshold
  import Deskew
  import Resize

  /** The keyword arguments of `preprocess_for_ocr`. */
  datatype Params = Params(
    denoiseKsize: int,
    claheClipLimit: real,
    claheTileGridSize: (int, int),
    thresholdBlockSize: int,
    thresholdC: int,
    targetWidth: int)

  /** The defaults of its signature. */
  const DefaultParams := Params(3, 2.0, (8, 8), 11, 2, 2480)

  /** A dict of keyword arguments passed with `**`: a key that is present overrides the default. */
  datatype Overrides = Overrides(
    denoiseKsize: Option<int>,
    claheClipLimit: Option<real>,
    claheTileGridSize: Option<(int, int)>,
    thresholdBlockSize: Option<int>,
    thresholdC: Option<int>,
    targetWidth: Option<int>)

  function Pick<T>(given: Option<T>, default: T): T {
    if given.Some? then given.value else default
  }

  /** The parameters a call `preprocess_for_ocr(image, **overrides)` runs with. */
  function Resolve(o: Overrides): (p: Params)
    ensures o.denoiseKsize.None? ==> p.denoiseKsize == DefaultParams.denoiseKsize
    ensures o.denoiseKsize.Some? ==> p.denoiseKsize == o.denoiseKsize.value
    ensures o.claheClipLimit.None? ==> p.claheClipLimit == DefaultParams.claheClipLimit
    ensures o.claheClipLimit.Some? ==> p.claheClipLimit == o.claheClipLimit.value
    ensures o.claheTileGridSize.None? ==> p.claheTileGridSize == DefaultParams.claheTileGridSize
    ensures o.claheTileGridSize.Some? ==> p.claheTileGridSize == o.claheTileGridSize.value
    ensures o.thresholdBlockSize.None? ==> p.thresholdBlockSize == DefaultParams.thresholdBlockSize
    ensures o.thresholdBlockSize.Some? ==> p.thresholdBlockSize == o.thresholdBlockSize.value
    ensures o.thresholdC.None? ==> p.thresholdC == DefaultParams.thresholdC
    ensures o.thresholdC.Some? ==> p.thresholdC == o.thresholdC.value
    ensures o.targetWidth.None? ==> p.targetWidth == DefaultParams.targetWidth
    ensures o.targetWidth.Some? ==> p.targetWidth == o.targetWidth.value
  {
    Params(
      Pick(o.denoiseKsize, DefaultParams.denoiseKsize),
      Pick(o.claheClipLimit, DefaultParams.claheClipLimit),
      Pick(o.claheTileGridSize, DefaultParams.claheTileGridSize),
      Pick(o.thresholdBlockSize, DefaultParams.thresholdBlockSize),
      Pick(o.thresholdC, DefaultParams.thresholdC),
      Pick(o.targetWidth, DefaultParams.targetWidth))
  }

  /** grayscale, median denoise, contrast, threshold, deskew, resize; the first stage that
      raises ends the pipeline with its error. */
  function Preprocess(arg: ImageArg, p: Params, vision: Vision): Result<Image> {
    var gray :- Grayscale.ToGray(arg);
    var denoised :- Denoise.MedianDenoise(Array(gray), p.denoiseKsize);
    var contrasted :- EnhanceContrast.EnhanceContrast(Array(denoised), p.claheClipLimit, p.claheTileGridSize);
    var binary :- Threshold.AdaptiveThreshold(Array(contrasted), p.thresholdBlockSize, p.thresholdC);
    var deskewed :- Deskew.Deskew(Array(binary), vision);
    Resize.ResizeToOcr(Array(deskewed), p.targetWidth)
  }

  /** The image before the resize stage, when the stage resized it. */
  function BeforeResize(img: Image): Image {
    if img.Resized? then img.src else img
  }

  /** The image before the deskew stage, when the stage rotated it. */
  function BeforeDeskew(img: Image): Image {
    if img.Rotated? then img.src else img
  }

  /** A successful output is, from the outside in: an optional resize to the target width,
      an optional rotation, the threshold with the profile's block size and C, CLAHE with
      its clip limit and tile grid, the median blur with its kernel, and the input itself
      or its BGR-to-gray conversion. */
  lemma {:induction false} PipelineStageOrder(arg: ImageArg, p: Params, vision: Vision)
    requires Preprocess(arg, p, vision).Ok?
    ensures arg.Array?
    ensures var out := Preprocess(arg, p, vision).value;
      var g := Grayscale.ToGray(arg).value;
      (g == arg.img || g == BgrToGray(arg.img)) &&
      BeforeDeskew(BeforeResize(out)) ==
        Thresholded(Clahe(MedianBlurred(g, p.denoiseKsize), p.claheClipLimit, p.claheTileGridSize),
                    Threshold.MaxValue, p.thresholdBlockSize, p.thresholdC)
  {
    var g := Grayscale.ToGray(arg).value;
    var d := Denoise.MedianDenoise(Array(g), p.denoiseKsize).value;
    var c := EnhanceContrast.EnhanceContrast(Array(d), p.claheClipLimit, p.claheTileGridSize).value;
    var b := Threshold.AdaptiveThreshold(Array(c), p.thresholdBlockSize, p.thresholdC).value;
    var k := Deskew.Deskew(Array(b), vision).value;
    assert BeforeDeskew(k) == b;
    assert BeforeResize(Resize.ResizeToOcr(Array(k), p.targetWidth).value) == k;
  }

  /** A successful output is two-dimensional and exactly `target_width` wide. */
  lemma PipelineOutputShape(arg: ImageArg, p: Params, vision: Vision)
    requires Preprocess(arg, p, vision).Ok?
    ensures var s := ShapeOf(Preprocess(arg, p, vision).value); |s| == 2 && s[1] == p.targetWidth
  {
  }

  /** An input grayscale rejects fails with grayscale's error, whatever the parameters. */
  lemma GrayscaleErrorFirst(arg: ImageArg, p: Params, vision: Vision)
    requires Grayscale.ToGray(arg).Err?
    ensures Preprocess(arg, p, vision) == Grayscale.ToGray(arg)
  {
  }

  /** A bad kernel is reported only once grayscale succeeded, and before any later parameter. */
  lemma KernelCheckedAfterGrayscale(arg: ImageArg, p: Params, vision: Vision)
    requires Grayscale.ToGray(arg).Ok? && !Denoise.ValidKernel(p.denoiseKsize)
    ensures Preprocess(arg, p, vision) == Err(BadKernelSize(p.denoiseKsize))
  {
  }

  /** Example: a four-channel image with an even kernel fails in grayscale. */
  lemma FourChannelsFailInGrayscale(id: nat, h: nat, w: nat, vision: Vision)
    ensures Preprocess(Array(Raw(id, [h, w, 4])), DefaultParams.(denoiseKsize := 4), vision)
            == Err(UnsupportedShape(GrayscaleStage, [h, w, 4]))
  {
  }

  /** Parameters of a later stage are not checked when an earlier one already failed:
      a bad clip limit and a bad block size never hide a bad kernel; with all three valid,
      only resize can still raise. */
  lemma {:induction false} StageErrorsInOrder(arg: ImageArg, p: Params, vision: Vision)
    requires Grayscale.ToGray(arg).Ok?
    ensures Denoise.ValidKernel(p.denoiseKsize) && p.claheClipLimit <= 0.0 ==>
              Preprocess(arg, p, vision) == Err(BadClipLimit(p.claheClipLimit))
    ensures Denoise.ValidKernel(p.denoiseKsize) && p.claheClipLimit > 0.0 && !Threshold.ValidBlockSize(p.thresholdBlockSize) ==>
              Preprocess(arg, p, vision) == Err(BadBlockSize(p.thresholdBlockSize))
    ensures Denoise.ValidKernel(p.denoiseKsize) && p.claheClipLimit > 0.0 && Threshold.ValidBlockSize(p.thresholdBlockSize) ==>
              Preprocess(arg, p, vision).Ok? || Preprocess(arg, p, vision) == Err(ZeroDivision(ResizeStage))
              || Preprocess(arg, p, vision) == Err(CvError(ResizeStage))
  {
  }
}
