/** `compute_quality_score`: four threshold sub-scores, a weighted sum, and a pass/warn/fail
    classification. Scores are kept in exact integer hundredths; ratios and averages are
    exact reals. */
module QualityScore {
  import opened Errors
  import opened Images

  datatype Status = Pass | Warn | Fail

  datatype Metrics = Metrics(
    foregroundRatio: real,
    componentCount: nat,
    avgComponentArea: real,
    laplacianVariance: real)

  /** The dict the scorer returns; `score` is in hundredths. */
  datatype QualityReport = QualityReport(score: int, status: Status, metrics: Metrics)

  datatype SubScores = SubScores(foreground: bool, components: bool, area: bool, blur: bool)

  function Sum(s: seq<nat>): nat {
    if s == [] then 0 else s[0] + Sum(s[1..])
  }

  /** `component_areas.mean() if component_count > 0 else 0`. */
  function MeanArea(areas: seq<nat>): (r: real)
    ensures areas == [] ==> r == 0.0
    ensures areas != [] ==> r * |areas| as real == Sum(areas) as real
  {
    if areas == [] then 0.0 else Sum(areas) as real / |areas| as real
  }

  /** The four sub-scores: foreground ratio in [0.02, 0.35] (both ends included), at least
      30 components, mean component area at least 15, Laplacian variance at least 50. */
  function SubScoresOf(m: Metrics): SubScores {
    SubScores(
      0.02 <= m.foregroundRatio <= 0.35,
      m.componentCount >= 30,
      m.avgComponentArea >= 15.0,
      m.laplacianVariance >= 50.0)
  }

  function Unit(b: bool): nat { if b then 1 else 0 }

  /** 0.35·fg + 0.25·cc + 0.20·area + 0.20·blur, in hundredths. */
  function WeightedScore(s: SubScores): (r: int)
    ensures 0 <= r <= 100
    ensures r == 100 <==> s.foreground && s.components && s.area && s.blur
    ensures r == 0 <==> !s.foreground && !s.components && !s.area && !s.blur
  {
    35 * Unit(s.foreground) + 25 * Unit(s.components) + 20 * Unit(s.area) + 20 * Unit(s.blur)
  }

  /** At least 0.75 passes, at least 0.45 warns, anything lower fails. */
  function Classify(score: int): (r: Status)
    ensures r == Pass <==> score >= 75
    ensures r == Fail <==> score < 45
  {
    if score >= 75 then Pass else if score >= 45 then Warn else Fail
  }

  /** `compute_quality_score(binary_image)`: rejects None and non-2-D input, divides the
      foreground count by the pixel count, and classifies the weighted score. */
  function ComputeQualityScore(arg: ImageArg, vision: Vision): (r: Result<QualityReport>)
    ensures arg == NoneArg ==> r == Err(ImageIsNone(QualityStage))
    ensures arg.Array? && |ShapeOf(arg.img)| != 2 ==> r == Err(UnsupportedShape(QualityStage, ShapeOf(arg.img)))
    ensures arg.Array? && |ShapeOf(arg.img)| == 2 && ShapeOf(arg.img)[0] * ShapeOf(arg.img)[1] == 0 ==>
              r == Err(ZeroDivision(QualityStage))
    ensures arg == NotArray ==> r == Err(NotAnArray(QualityStage))
    ensures r.Ok? <==> arg.Array? && |ShapeOf(arg.img)| == 2 && ShapeOf(arg.img)[0] * ShapeOf(arg.img)[1] != 0
    ensures r.Ok? ==>
      var m := vision.measure(arg.img);
      var total := ShapeOf(arg.img)[0] * ShapeOf(arg.img)[1];
      && total != 0
      && r.value.metrics == Metrics(m.foregroundPixels as real / total as real, |m.componentAreas|,
                                    MeanArea(m.componentAreas), m.laplacianVariance)
      && r.value.score == WeightedScore(SubScoresOf(r.value.metrics))
      && r.value.status == Classify(r.value.score)
      && 0 <= r.value.score <= 100
  {
    match arg
    case NoneArg => Err(ImageIsNone(QualityStage))
    case NotArray => Err(NotAnArray(QualityStage))
    case Array(img) =>
      if |ShapeOf(img)| != 2 then Err(UnsupportedShape(QualityStage, ShapeOf(img)))
      else
        var total := ShapeOf(img)[0] * ShapeOf(img)[1];
        if total == 0 then Err(ZeroDivision(QualityStage))
        else
          var stats := vision.measure(img);
          var metrics := Metrics(stats.foregroundPixels as real / total as real, |stats.componentAreas|,
                                 MeanArea(stats.componentAreas), stats.laplacianVariance);
          var score := WeightedScore(SubScoresOf(metrics));
          Ok(QualityReport(score, Classify(score), metrics))
  }

  /** The foreground ratio lies in [0, 1] when at most every pixel is foreground. */
  lemma {:induction false} ForegroundRatioInUnitInterval(foreground: nat, total: int)
    requires total > 0 && foreground <= total
    ensures 0.0 <= foreground as real / total as real <= 1.0
  {
    var q := foreground as real / total as real;
    ScaleByPositive(q, 1.0, total as real);
  }

  lemma ScaleByPositive(a: real, b: real, t: real)
    requires t > 0.0
    ensures a <= b <==> a * t <= b * t
  {
  }

  /** The ratio test is the cross-multiplied integer test 2·total <= 100·fg <= 35·total. */
  lemma {:induction false} RatioTestByCrossMultiplication(foreground: nat, total: int)
    requires total > 0
    ensures (0.02 <= foreground as real / total as real <= 0.35) <==>
            (2 * total <= 100 * foreground && 100 * foreground <= 35 * total)
  {
    var q := foreground as real / total as real;
    var t := total as real;
    var f := foreground as real;
    assert q * t == f;
    CompareToRatio(0.02, q, t, f);
    CompareToRatio(0.35, q, t, f);
    ScaleByPositive(0.02 * t, f, 100.0);
    ScaleByPositive(f, 0.35 * t, 100.0);
    assert 0.02 * t <= f <==> 2.0 * t <= 100.0 * f;
    assert f <= 0.35 * t <==> 100.0 * f <= 35.0 * t;
    assert 2.0 * t <= 100.0 * f <==> 2 * total <= 100 * foreground;
    assert 100.0 * f <= 35.0 * t <==> 100 * foreground <= 35 * total;
  }

  /** Comparing a bound with the ratio `q = f / t` is comparing the scaled bound with `f`. */
  lemma CompareToRatio(a: real, q: real, t: real, f: real)
    requires t > 0.0 && q * t == f
    ensures a <= q <==> a * t <= f
    ensures q <= a <==> f <= a * t
  {
    ScaleByPositive(a, q, t);
    ScaleByPositive(q, a, t);
  }

  /** With no components the mean area is 0, so the area sub-score is 0. */
  lemma NoComponentsNoAreaScore(m: Metrics, areas: seq<nat>)
    requires areas == [] && m.avgComponentArea == MeanArea(areas)
    ensures !SubScoresOf(m).area
  {
  }

  /** The classification table: pass exactly when the foreground sub-score and at least two
      of the others are 1; fail exactly when at most one sub-score is 1 or the two that are
      1 are area and blur; warn otherwise. */
  lemma {:induction false} StatusTable(s: SubScores)
    ensures Classify(WeightedScore(s)) == Pass <==>
      s.foreground && Unit(s.components) + Unit(s.area) + Unit(s.blur) >= 2
    ensures Classify(WeightedScore(s)) == Fail <==>
      Unit(s.foreground) + Unit(s.components) + Unit(s.area) + Unit(s.blur) <= 1
      || s == SubScores(false, false, true, true)
  {
    var fg, cc, ar, bl := s.foreground, s.components, s.area, s.blur;
    if fg { if cc { if ar { } else { } } else { if ar { } else { } } }
    else { if cc { if ar { } else { } } else { if ar { } else { } } }
  }

  function AtLeast(s: SubScores, t: SubScores): bool {
    (t.foreground ==> s.foreground) && (t.components ==> s.components)
    && (t.area ==> s.area) && (t.blur ==> s.blur)
  }

  function Rank(st: Status): nat {
    match st case Fail => 0 case Warn => 1 case Pass => 2
  }

  /** Turning any sub-score from 0 to 1 never worsens the status. */
  lemma {:induction false} StatusMonotone(s: SubScores, t: SubScores)
    requires AtLeast(s, t)
    ensures WeightedScore(s) >= WeightedScore(t)
    ensures Rank(Classify(WeightedScore(s))) >= Rank(Classify(WeightedScore(t)))
  {
  }
}
