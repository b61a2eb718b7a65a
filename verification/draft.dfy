/**
 * The draft projector (`draft_projection`): a four-bucket step function from
 * the overall score to a round, an optional pick estimate and a probability.
 */
module DraftProjector {
  import opened ScoutTypes
  import opened Numeric

  datatype DraftProjection = DraftProjection(
    projectedRound: int,
    pickEstimate: Option<int>,
    draftProbability: real)

  /** The pick estimate of the top bucket before the floor of 1 is applied. */
  function TopPick(score: real): int
  {
    Trunc(30.0 - (score - 85.0))
  }

  /**
   * The projection for any real score. Only scores below 55 lack a pick
   * estimate, and every estimate is at least 1.
   */
  function Project(score: real): (d: DraftProjection)
    ensures d.projectedRound == 1 || d.projectedRound == 2 || d.projectedRound == 3
    ensures d.pickEstimate.None? <==> score < 55.0
    ensures d.pickEstimate.Some? ==> d.pickEstimate.value >= 1
    ensures 0.0 < d.draftProbability < 1.0
  {
    if score >= 85.0 then
      DraftProjection(1, Some(if 1 >= TopPick(score) then 1 else TopPick(score)), Round2(0.95))
    else if score >= 70.0 then
      DraftProjection(1, Some(Trunc(30.0 + (85.0 - score))), Round2(0.75))
    else if score >= 55.0 then
      DraftProjection(2, Some(Trunc(50.0 + (70.0 - score))), Round2(0.45))
    else
      DraftProjection(3, None, Round2(0.12))
  }

  /** The published probabilities keep their two decimals through rounding. */
  lemma Probabilities()
    ensures Round2(0.95) == 0.95 && Round2(0.75) == 0.75
    ensures Round2(0.45) == 0.45 && Round2(0.12) == 0.12
  {
  }

  /**
   * The bucket table: each range of the score and the round and probability it
   * gets. The boundaries belong to the bucket above (85 is in the top bucket).
   */
  lemma Buckets(score: real)
    ensures var d := Project(score);
      && (score >= 85.0 ==> d.projectedRound == 1 && d.draftProbability == 0.95)
      && (70.0 <= score < 85.0 ==> d.projectedRound == 1 && d.draftProbability == 0.75)
      && (55.0 <= score < 70.0 ==> d.projectedRound == 2 && d.draftProbability == 0.45)
      && (score < 55.0 ==> d.projectedRound == 3 && d.pickEstimate == None && d.draftProbability == 0.12)
    ensures Project(score).projectedRound == 1 <==> score >= 70.0
    ensures Project(score).projectedRound == 3 <==> score < 55.0
  {
  }

  /**
   * For a score in [0, 100] the pick estimates of the three buckets lie in
   * [15, 30], [30, 45] and [50, 65]; the floor of 1 in the top bucket binds
   * only for scores above 114, so never here.
   */
  lemma PickBounds(score: real)
    requires 0.0 <= score <= 100.0
    ensures score >= 85.0 ==> Project(score).pickEstimate == Some(TopPick(score))
    ensures score >= 85.0 ==> 15 <= TopPick(score) <= 30
    ensures 70.0 <= score < 85.0 ==> 30 <= Project(score).pickEstimate.value <= 45
    ensures 55.0 <= score < 70.0 ==> 50 <= Project(score).pickEstimate.value <= 65
  {
  }

  /** The floor of 1 on the top-bucket pick changes it exactly for scores above 114. */
  lemma TopPickFloorBinds(score: real)
    requires score >= 85.0
    ensures TopPick(score) < 1 <==> score > 114.0
  {
  }

  /**
   * A better score never projects a later round, a lower probability, or a
   * later pick, and never loses its pick estimate.
   */
  lemma Monotone(lower: real, higher: real)
    requires lower <= higher
    ensures Project(higher).projectedRound <= Project(lower).projectedRound
    ensures Project(lower).draftProbability <= Project(higher).draftProbability
    ensures Project(lower).pickEstimate.Some? ==> Project(higher).pickEstimate.Some?
    ensures Project(lower).pickEstimate.Some? ==>
      Project(higher).pickEstimate.value <= Project(lower).pickEstimate.value
  {
  }

  /** The boundary cases of the bucket table. */
  lemma BoundaryExamples()
    ensures Project(85.0) == DraftProjection(1, Some(30), 0.95)
    ensures Project(84.999) == DraftProjection(1, Some(30), 0.75)
    ensures Project(70.0) == DraftProjection(1, Some(45), 0.75)
    ensures Project(55.0) == DraftProjection(2, Some(65), 0.45)
    ensures Project(54.999) == DraftProjection(3, None, 0.12)
  {
  }
}
