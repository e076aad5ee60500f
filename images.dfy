/** Abstract page images. OpenCV's calls are not modelled pixel by pixel: each call the
    preprocessing stages make is a constructor that records its input and its arguments,
    and `Shape` gives the array shape OpenCV documents for the call's result.
    Facts that depend on pixel values come from a `Vision` record supplied by the caller. */
module Images {
  import opened Errors

  /** A NumPy shape: (H, W) for grayscale, (H, W, C) for colour, anything for other arrays. */
  type Shape = seq<int>

  datatype Interpolation = InterCubic | InterArea

  datatype Image =
    | Raw(id: nat, dims: seq<nat>)                                        // a page as loaded
    | BgrToGray(src: Image)                                               // cv2.cvtColor(src, COLOR_BGR2GRAY)
    | MedianBlurred(src: Image, ksize: int)                               // cv2.medianBlur
    | Clahe(src: Image, clipLimit: real, tileGrid: (int, int))            // cv2.createCLAHE(...).apply
    | Thresholded(src: Image, maxValue: int, blockSize: int, c: int)      // cv2.adaptiveThreshold, Gaussian, THRESH_BINARY
    | Rotated(src: Image, centre: (int, int), angle: real, dsize: (int, int)) // getRotationMatrix2D + warpAffine, scale 1.0
    | Resized(src: Image, dsize: (int, int), interpolation: Interpolation)    // cv2.resize

  /** The shape of an image; dsize arguments are (width, height), as in OpenCV. */
  function ShapeOf(img: Image): Shape {
    match img
    case Raw(_, dims) => dims
    case BgrToGray(src) => var s := ShapeOf(src); if |s| >= 2 then s[..2] else s
    case MedianBlurred(src, _) => ShapeOf(src)
    case Clahe(src, _, _) => ShapeOf(src)
    case Thresholded(src, _, _, _) => ShapeOf(src)
    case Rotated(_, _, _, dsize) => [dsize.1, dsize.0]
    case Resized(_, dsize, _) => [dsize.1, dsize.0]
  }

  /** What a stage receives: Python's None, some non-ndarray object, or an ndarray. */
  datatype ImageArg = NoneArg | NotArray | Array(img: Image)

  /** Statistics OpenCV and NumPy compute from pixel values. */
  datatype Measurements = Measurements(
    foregroundPixels: nat,        // np.count_nonzero
    componentAreas: seq<nat>,     // CC_STAT_AREA of every connected component except the background
    laplacianVariance: real)      // cv2.Laplacian(img, CV_64F).var()

  /** Pixel-dependent answers about an image. */
  datatype Vision = Vision(
    hasForeground: Image -> bool, // some pixel is > 0
    rectAngle: Image -> real,     // the angle cv2.minAreaRect reports for the foreground pixels
    measure: Image -> Measurements)

  /** The guard every stage after grayscale begins with: not None, an ndarray, two-dimensional. */
  function RequireTwoD(stage: Stage, arg: ImageArg): (r: Result<Image>)
    ensures r.Ok? <==> arg.Array? && |ShapeOf(arg.img)| == 2
    ensures r.Ok? ==> r.value == arg.img
    ensures arg == NoneArg ==> r == Err(ImageIsNone(stage))
    ensures arg == NotArray ==> r == Err(NotAnArray(stage))
    ensures arg.Array? && |ShapeOf(arg.img)| != 2 ==> r == Err(UnsupportedShape(stage, ShapeOf(arg.img)))
  {
    match arg
    case NoneArg => Err(ImageIsNone(stage))
    case NotArray => Err(NotAnArray(stage))
    case Array(img) =>
      if |ShapeOf(img)| != 2 then Err(UnsupportedShape(stage, ShapeOf(img))) else Ok(img)
  }
}
