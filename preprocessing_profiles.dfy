/** `PREPROCESSING_PROFILES`: the keyword-argument dicts the retry loop tries, in order. */
module PreprocessingProfiles {
  import opened Errors
  import opened Pipeline
  import Denoise
  import Threshold

  /** A profile that sets the kernel size, the threshold constant and the clip limit only. */
  function Profile(ksize: int, c: int, clipLimit: real): Overrides {
    Overrides(Some(ksize), Some(clipLimit), None, None, Some(c), None)
  }

  const DefaultProfile := Profile(3, 2, 2.0)
  const StrongerContrast := Profile(3, 1, 3.0)
  const StrongerDenoise := Profile(5, 3, 2.5)

  const Profiles: seq<Overrides> := [DefaultProfile, StrongerContrast, StrongerDenoise]

  /** Three profiles, in retry order; each one passes the kernel and clip-limit checks, and
      the block size, tile grid and target width it runs with are the pipeline's defaults. */
  lemma {:induction false} ProfilesAreValid()
    ensures |Profiles| == 3
    ensures Profiles == [DefaultProfile, StrongerContrast, StrongerDenoise]
    ensures forall i :: 0 <= i < |Profiles| ==>
      var p := Resolve(Profiles[i]);
      && Denoise.ValidKernel(p.denoiseKsize)
      && p.claheClipLimit > 0.0
      && Threshold.ValidBlockSize(p.thresholdBlockSize)
      && p.thresholdBlockSize == 11
      && p.claheTileGridSize == (8, 8)
      && p.targetWidth == 2480
  {
    forall i | 0 <= i < |Profiles|
      ensures var p := Resolve(Profiles[i]);
        && Denoise.ValidKernel(p.denoiseKsize) && p.claheClipLimit > 0.0
        && Threshold.ValidBlockSize(p.thresholdBlockSize) && p.thresholdBlockSize == 11
        && p.claheTileGridSize == (8, 8) && p.targetWidth == 2480
    {
      assert i == 0 || i == 1 || i == 2;
    }
  }

  /** The list is non-empty, which the retry loop requires. */
  lemma ProfilesNonEmpty()
    ensures |Profiles| > 0
  {
  }

  /** The resolved parameters of the three profiles. */
  lemma ResolvedProfiles()
    ensures Resolve(DefaultProfile) == Params(3, 2.0, (8, 8), 11, 2, 2480)
    ensures Resolve(StrongerContrast) == Params(3, 3.0, (8, 8), 11, 1, 2480)
    ensures Resolve(StrongerDenoise) == Params(5, 2.5, (8, 8), 11, 3, 2480)
  {
  }
}
