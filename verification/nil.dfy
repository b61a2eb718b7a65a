/**
 * The NIL (name, image and likeness) estimator (`nil_value_estimate`): a
 * current and a 12-month monetary value, truncated to whole currency units,
 * and one brand suggestion chosen by marketability.
 */
module NilEstimator {
  import opened ScoutTypes
  import opened Numeric

  const NationalBrands: string := "National brand endorsements; social-first campaigns"
  const RegionalBrands: string := "Regional brands, niche sponsors"
  const LocalBrands: string := "Local sponsorships, community partnerships"

  datatype NilEstimate = NilEstimate(
    currentEstimatedNil: int,
    projected12mNil: int,
    brandSuggestions: seq<string>)

  /** The base annual value: the score as a share of 200,000. */
  function BaseValue(score: real): real
  {
    (score / 100.0) * 200000.0
  }

  /** The 12-month projection: base times (1 + marketability) times 1.1. */
  function Projection12m(score: real, market: real): real
  {
    BaseValue(score) * (1.0 + market) * 1.1
  }

  /** The one brand suggestion for a marketability score. */
  function BrandSuggestion(market: real): string
  {
    if market > 0.8 then NationalBrands
    else if market > 0.5 then RegionalBrands
    else LocalBrands
  }

  /**
   * The estimate for a player and a score. Marketability must be present:
   * with an explicit null the multiplier cannot be formed. Exactly one brand
   * suggestion is produced.
   */
  function Estimate(p: Player, score: real): (e: NilEstimate)
    requires p.marketability.Some?
    ensures |e.brandSuggestions| == 1
    ensures e.brandSuggestions[0] in {NationalBrands, RegionalBrands, LocalBrands}
  {
    var market := p.marketability.value;
    NilEstimate(Trunc(BaseValue(score)), Trunc(Projection12m(score, market)), [BrandSuggestion(market)])
  }

  /**
   * For a score in [0, 100] and marketability in [0, 1] the current value is
   * the floor of score * 2000, between 0 and 200,000, and the 12-month value
   * is at least the current value and at most 440,000.
   */
  lemma Amounts(p: Player, score: real)
    requires p.marketability.Some? && 0.0 <= p.marketability.value <= 1.0
    requires 0.0 <= score <= 100.0
    ensures var e := Estimate(p, score);
      && e.currentEstimatedNil == (score * 2000.0).Floor
      && 0 <= e.currentEstimatedNil <= 200000
      && e.currentEstimatedNil <= e.projected12mNil <= 440000
  {
    var m := p.marketability.value;
    var base := BaseValue(score);
    assert Projection12m(score, m) == base * (1.0 + m) * 1.1;
    assert base == score * 2000.0;
    assert 0.0 <= base <= 200000.0;
    var factor := (1.0 + m) * 1.1;
    assert 1.0 <= factor <= 2.2;
    assert base * (1.0 + m) * 1.1 == base * factor;
    assert base <= base * factor <= 440000.0 by {
      assert base * factor - base == base * (factor - 1.0);
      assert base * factor <= 200000.0 * factor;
    }
    TruncOfNonNegative(base);
    TruncMonotone(base, base * factor);
    TruncMonotone(base * factor, 440000.0);
  }

  /** The brand thresholds: above 0.8 national, above 0.5 up to 0.8 regional, else local. */
  lemma BrandThresholds(p: Player, score: real)
    requires p.marketability.Some?
    ensures var s, m := Estimate(p, score).brandSuggestions[0], p.marketability.value;
      && (s == NationalBrands <==> m > 0.8)
      && (s == RegionalBrands <==> 0.5 < m <= 0.8)
      && (s == LocalBrands <==> m <= 0.5)
  {
  }

  /** Of the player, only the marketability is read. */
  lemma ReadsOnlyMarketability(p: Player, q: Player, score: real)
    requires p.marketability.Some? && q.marketability == p.marketability
    ensures Estimate(q, score) == Estimate(p, score)
  {
  }

  /** The top of the scale: a perfect score and full marketability. */
  lemma TopOfScale(p: Player)
    requires p.marketability == Some(1.0)
    ensures Estimate(p, 100.0).currentEstimatedNil == 200000
    ensures Estimate(p, 100.0).projected12mNil == 440000
  {
  }
}
