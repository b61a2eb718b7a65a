/**
 * The fit evaluator (`compute_fit_scores`): the overall score, an age factor
 * and marketability blended into a team fit, an agency fit and their mean,
 * the opportunity score.
 */
module FitEvaluator {
  import opened ScoutTypes
  import opened Numeric
  import opened Normalizer
  import opened Text

  /** The four published numbers; the three fits are on a 0..100 scale. */
  datatype FitScores = FitScores(
    overallScore: real,
    teamFit: real,
    agencyFit: real,
    opportunityScore: real)

  /** Younger players score higher: 1 at age 0, falling to 0 at age 30 and beyond. */
  function AgeFactor(age: int): (f: real)
    ensures 0 <= age ==> 0.0 <= f <= 1.0
    ensures age == 0 ==> f == 1.0
    ensures 30 <= age ==> f == 0.0
    ensures age < 0 ==> f > 1.0
  {
    (if 30 - age > 0 then 30 - age else 0) as real / 30.0
  }

  lemma AgeFactorNonIncreasing(younger: int, older: int)
    requires younger <= older
    ensures AgeFactor(older) <= AgeFactor(younger)
  {
  }

  /** The position names the team-fit heuristic recognises, in lower case. */
  const KnownPositions: seq<string> := ["guard", "forward", "center", "midfielder", "forward"]

  /**
   * The position factor: 1.0 for a recognised position, whatever its letter
   * case, 0.8 otherwise. It is computed but no score uses it.
   */
  function PositionFactor(position: string): (f: real)
    ensures f == 1.0 <==> Lower(position) in KnownPositions
    ensures f == 0.8 <==> Lower(position) !in KnownPositions
  {
    if Lower(position) in KnownPositions then 1.0 else 0.8
  }

  /** The position test ignores letter case. */
  lemma PositionFactorIgnoresCase(position: string)
    ensures PositionFactor(Lower(position)) == PositionFactor(position)
    ensures PositionFactor("Guard") == 1.0 && PositionFactor("CENTER") == 1.0
  {
    LowerIdempotent(position);
    assert Lower("Guard") == "guard";
    assert Lower("CENTER") == "center";
  }

  /** Team fit as a fraction: 60% performance, 20% youth, 20% marketability. */
  function TeamFit(overall: real, ageFactor: real, market: real): real
  {
    (overall / 100.0) * 0.6 + ageFactor * 0.2 + market * 0.2
  }

  /** Agency fit as a fraction: 60% marketability, 40% performance. */
  function AgencyFit(overall: real, market: real): real
  {
    market * 0.6 + (overall / 100.0) * 0.4
  }

  /** The opportunity score as a fraction: the mean of the two fits. */
  function Opportunity(teamFit: real, agencyFit: real): (o: real)
    ensures Min(teamFit, agencyFit) <= o <= Max(teamFit, agencyFit)
  {
    (teamFit + agencyFit) / 2.0
  }

  /**
   * The fit scores of a player. Marketability must be present: with an
   * explicit null the blend fails before any score is produced. The published
   * overall score is the normaliser's output rounded to two decimals, and each
   * fit is its fraction scaled to 0..100 and rounded to two decimals. The
   * position plays no part.
   */
  function ComputeFitScores(p: Player): (fit: FitScores)
    requires p.marketability.Some?
    ensures fit.overallScore == Round2(OverallScore(p.stats))
    ensures var o, a, m := OverallScore(p.stats), AgeFactor(p.age), p.marketability.value;
      && fit.teamFit == Round2(TeamFit(o, a, m) * 100.0)
      && fit.agencyFit == Round2(AgencyFit(o, m) * 100.0)
      && fit.opportunityScore == Round2(Opportunity(TeamFit(o, a, m), AgencyFit(o, m)) * 100.0)
  {
    var overall := OverallScore(p.stats);
    var ageFactor := AgeFactor(p.age);
    var positionFactor := PositionFactor(p.position);
    var market := p.marketability.value;
    var teamFit := TeamFit(overall, ageFactor, market);
    var agencyFit := AgencyFit(overall, market);
    var opportunity := Opportunity(teamFit, agencyFit);
    FitScores(Round2(overall), Round2(teamFit * 100.0), Round2(agencyFit * 100.0), Round2(opportunity * 100.0))
  }

  /**
   * With performance in [0, 100] and age factor and marketability in [0, 1],
   * both fits are fractions in [0, 1] and the opportunity lies between them.
   */
  lemma FractionBounds(overall: real, ageFactor: real, market: real)
    requires 0.0 <= overall <= 100.0 && 0.0 <= ageFactor <= 1.0 && 0.0 <= market <= 1.0
    ensures 0.0 <= TeamFit(overall, ageFactor, market) <= 1.0
    ensures 0.0 <= AgencyFit(overall, market) <= 1.0
    ensures var t, g := TeamFit(overall, ageFactor, market), AgencyFit(overall, market);
      0.0 <= Min(t, g) <= Opportunity(t, g) <= Max(t, g) <= 1.0
  {
  }

  /**
   * For a valid player every published number is in [0, 100] and the
   * published opportunity still lies between the two published fits.
   */
  lemma FitBounds(p: Player)
    requires InScoringRange(p)
    ensures var fit := ComputeFitScores(p);
      && 0.0 <= fit.overallScore <= 100.0
      && 0.0 <= fit.teamFit <= 100.0
      && 0.0 <= fit.agencyFit <= 100.0
      && 0.0 <= fit.opportunityScore <= 100.0
      && Min(fit.teamFit, fit.agencyFit) <= fit.opportunityScore <= Max(fit.teamFit, fit.agencyFit)
  {
    var o, a, m := OverallScore(p.stats), AgeFactor(p.age), p.marketability.value;
    FractionBounds(o, a, m);
    RoundedBounds(o, TeamFit(o, a, m), AgencyFit(o, m));
  }

  /**
   * Scaling to a percentage and rounding keeps fractions in [0, 100] and keeps
   * the opportunity between the two fits.
   */
  lemma RoundedBounds(overall: real, teamFit: real, agencyFit: real)
    requires 0.0 <= overall <= 100.0 && 0.0 <= teamFit <= 1.0 && 0.0 <= agencyFit <= 1.0
    ensures 0.0 <= Round2(overall) <= 100.0
    ensures 0.0 <= Round2(teamFit * 100.0) <= 100.0
    ensures 0.0 <= Round2(agencyFit * 100.0) <= 100.0
    ensures var t, g, o := Round2(teamFit * 100.0), Round2(agencyFit * 100.0),
                           Round2(Opportunity(teamFit, agencyFit) * 100.0);
      0.0 <= o <= 100.0 && Min(t, g) <= o <= Max(t, g)
  {
    var op := Opportunity(teamFit, agencyFit);
    Round2Within(overall, 0, 10000);
    Round2Within(teamFit * 100.0, 0, 10000);
    Round2Within(agencyFit * 100.0, 0, 10000);
    Round2Within(op * 100.0, 0, 10000);
    if teamFit <= agencyFit {
      Round2Monotone(teamFit * 100.0, op * 100.0);
      Round2Monotone(op * 100.0, agencyFit * 100.0);
    } else {
      Round2Monotone(agencyFit * 100.0, op * 100.0);
      Round2Monotone(op * 100.0, teamFit * 100.0);
    }
  }

  /** The position is read, but no published number depends on it. */
  lemma PositionIrrelevant(p: Player, position: string)
    requires p.marketability.Some?
    ensures ComputeFitScores(p.(position := position)) == ComputeFitScores(p)
  {
  }
}
