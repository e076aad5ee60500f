/** CLAHE contrast enhancement: the third stage of the pipeline. */
module EnhanceContrast {
  import opened Errors
  import opened Images

  /** `enhance_contrast(image, clip_limit, tile_grid_size)`: the shape guards, then
      `clip_limit > 0`; the tile grid is passed to OpenCV unchecked. */
  function EnhanceContrast(arg: ImageArg, clipLimit: real, tileGrid: (int, int)): (r: Result<Image>)
    ensures r.Ok? <==> arg.Array? && |ShapeOf(arg.img)| == 2 && clipLimit > 0.0
    ensures r.Ok? ==> r.value == Clahe(arg.img, clipLimit, tileGrid) && ShapeOf(r.value) == ShapeOf(arg.img)
    ensures RequireTwoD(ContrastStage, arg).Err? ==> r == RequireTwoD(ContrastStage, arg)
    ensures RequireTwoD(ContrastStage, arg).Ok? && clipLimit <= 0.0 ==> r == Err(BadClipLimit(clipLimit))
  {
    var img :- RequireTwoD(ContrastStage, arg);
    if clipLimit <= 0.0 then Err(BadClipLimit(clipLimit))
    else Ok(Clahe(img, clipLimit, tileGrid))
  }
}
