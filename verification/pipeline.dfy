/**
 * The report pipeline (`generate_report`): fit scores first, then the draft
 * projection and the NIL estimate, both fed the ROUNDED overall score from the
 * fit scores, then the pitch.
 */
module Pipeline {
  import opened ScoutTypes
  import opened Numeric
  import opened Normalizer
  import opened FitEvaluator
  import opened DraftProjector
  import opened NilEstimator
  import opened PitchComposer

  datatype Report = Report(
    player: Player,
    fitScores: FitScores,
    draftProjection: DraftProjection,
    nilEstimate: NilEstimate,
    report: string)

  /** The one way the pipeline fails: an explicit null marketability. */
  datatype ReportError = MarketabilityMissing

  /**
   * The report for a player. It fails exactly when marketability is null;
   * otherwise it echoes the player, the draft projection and NIL estimate
   * are those of the published (rounded) overall score, and the report text
   * is the pitch built from the player and the fit scores.
   */
  function GenerateReport(p: Player, showReal: real -> string): (r: Result<Report, ReportError>)
    ensures r.Err? <==> p.marketability.None?
    ensures r.Ok? ==> r.value.player == p
    ensures r.Ok? ==> r.value.fitScores == ComputeFitScores(p)
    ensures r.Ok? ==> r.value.fitScores.overallScore == Round2(OverallScore(p.stats))
    ensures r.Ok? ==> r.value.draftProjection == Project(r.value.fitScores.overallScore)
    ensures r.Ok? ==> r.value.nilEstimate == Estimate(p, r.value.fitScores.overallScore)
    ensures r.Ok? ==> |r.value.nilEstimate.brandSuggestions| == 1
    ensures r.Ok? ==> r.value.report == BuildPitch(p, r.value.fitScores, showReal)
  {
    if p.marketability.None? then Err(MarketabilityMissing)
    else
      var fit := ComputeFitScores(p);
      var draft := Project(fit.overallScore);
      var nilEst := Estimate(p, fit.overallScore);
      var pitch := BuildPitch(p, fit, showReal);
      Ok(Report(p, fit, draft, nilEst, pitch))
  }

  /**
   * For a player in the scoring range every number of the report is in its
   * documented range.
   */
  lemma ReportBounds(p: Player, showReal: real -> string)
    requires InScoringRange(p)
    ensures GenerateReport(p, showReal).Ok?
    ensures var r := GenerateReport(p, showReal).value;
      && 0.0 <= r.fitScores.overallScore <= 100.0
      && 0.0 <= r.fitScores.teamFit <= 100.0
      && 0.0 <= r.fitScores.agencyFit <= 100.0
      && 0.0 <= r.fitScores.opportunityScore <= 100.0
      && 1 <= r.draftProjection.projectedRound <= 3
      && 0.0 < r.draftProjection.draftProbability < 1.0
      && (r.draftProjection.pickEstimate.Some? ==> 1 <= r.draftProjection.pickEstimate.value <= 65)
      && 0 <= r.nilEstimate.currentEstimatedNil <= r.nilEstimate.projected12mNil <= 440000
  {
    FitBounds(p);
    var fit := ComputeFitScores(p);
    PickBounds(fit.overallScore);
    Amounts(p, fit.overallScore);
  }

  /** The position changes nothing in the report but the echoed player and the pitch text. */
  lemma PositionIrrelevantToScores(p: Player, position: string, showReal: real -> string)
    requires p.marketability.Some?
    ensures var r, q := GenerateReport(p, showReal).value, GenerateReport(p.(position := position), showReal).value;
      && q.fitScores == r.fitScores
      && q.draftProjection == r.draftProjection
      && q.nilEstimate == r.nilEstimate
  {
    var q := p.(position := position);
    var fp, fq := ComputeFitScores(p), ComputeFitScores(q);
    assert fq.overallScore == fp.overallScore && fq.teamFit == fp.teamFit;
    assert fq.agencyFit == fp.agencyFit && fq.opportunityScore == fp.opportunityScore;
    assert fq == fp;
    ReadsOnlyMarketability(p, q, fp.overallScore);
  }

  /**
   * The draft stage sees the rounded score: a raw mean of 84.996, below the
   * top bucket, is published as 85.0 and projected as a top-bucket pick.
   */
  lemma RoundedScoreDecidesDraft(showReal: real -> string)
    ensures var p := Player("Sam Lee", "Center", 21, [Stat("ppg", 84.996)], Some(0.5), None);
      && OverallScore(p.stats) < 85.0
      && GenerateReport(p, showReal).Ok?
      && GenerateReport(p, showReal).value.fitScores.overallScore == 85.0
      && GenerateReport(p, showReal).value.draftProjection == DraftProjection(1, Some(30), 0.95)
  {
  }

  /** The player of the worked examples below. */
  function AlexChenPlayer(): Player
  {
    Player("Alex Chen", "Guard", 20, [Stat("ppg", 90.0), Stat("apg", 80.0)], Some(0.9), Some(["All-conference"]))
  }

  /**
   * A worked example: guard Alex Chen, age 20, stats 90 and 80, marketability
   * 0.9, one highlight. The score is 85.0, the projection round 1 with pick 30
   * at probability 0.95, and the NIL values 170,000 and 355,300 with the
   * national brand suggestion.
   */
  lemma AlexChen(showReal: real -> string)
    ensures var p := AlexChenPlayer();
      && GenerateReport(p, showReal).Ok?
      && var r := GenerateReport(p, showReal).value;
      && r.fitScores.overallScore == 85.0
      && r.draftProjection == DraftProjection(1, Some(30), 0.95)
      && r.nilEstimate == NilEstimate(170000, 355300, [NationalBrands])
  {
    var p := AlexChenPlayer();
    assert Mean(p.stats) == 85.0;
    assert OverallScore(p.stats) == 85.0;
    Round2Exact(8500);
    assert Round2(85.0) == 85.0;
    assert ComputeFitScores(p).overallScore == 85.0;
    assert Project(85.0) == DraftProjection(1, Some(30), 0.95);
    assert Estimate(p, 85.0) == NilEstimate(170000, 355300, [NationalBrands]);
  }

  /** The report text holds the key-strengths line right after the body of the pitch. */
  lemma ReportStrengths(p: Player, showReal: real -> string)
    requires p.marketability.Some?
    ensures GenerateReport(p, showReal).Ok?
    ensures var r := GenerateReport(p, showReal).value;
      var b, n := |Body(p, r.fitScores, showReal)|, |StrengthsLine(p)|;
      b + n <= |r.report| && r.report[b..b + n] == "- Key strengths: " + HighlightsText(p.highlights) + "\n\n"
  {
    var fit := ComputeFitScores(p);
    var pitch := BuildPitch(p, fit, showReal);
    assert GenerateReport(p, showReal).value.report == pitch
        && GenerateReport(p, showReal).value.fitScores == fit;
  }

  /**
   * The highlight of the worked example in the report text: for Alex Chen, and
   * for any player whose one highlight is "All-conference", the line right
   * after the body of the pitch names it.
   */
  lemma AlexChenPitch(p: Player, showReal: real -> string)
    requires p.marketability.Some? && p.highlights == Some(["All-conference"])
    ensures GenerateReport(p, showReal).Ok?
    ensures var r := GenerateReport(p, showReal).value;
      var b := |Body(p, r.fitScores, showReal)|;
      && b + 33 <= |r.report|
      && r.report[b..b + 33] == "- Key strengths: All-conference\n\n"
  {
    ReportStrengths(p, showReal);
    SingleHighlight("All-conference");
    var line := "- Key strengths: " + HighlightsText(p.highlights) + "\n\n";
    assert line == "- Key strengths: All-conference\n\n";
    assert |StrengthsLine(p)| == |line| == 33;
  }
}
