/**
 * The score normaliser: the list of raw statistics becomes one performance
 * score between 0 and 100 (`compute_overall_score`).
 */
module Normalizer {
  import opened ScoutTypes
  import opened Numeric

  /** The sum of every stat value, duplicates included. */
  function SumValues(stats: seq<Stat>): real
  {
    if stats == [] then 0.0 else stats[0].value + SumValues(stats[1..])
  }

  /** The unweighted arithmetic mean of the stat values. */
  function Mean(stats: seq<Stat>): real
    requires stats != []
  {
    SumValues(stats) / |stats| as real
  }

  /** The score with no data at all: a neutral median, not zero. */
  const NeutralScore: real := 50.0

  /**
   * The overall score: the neutral default for an empty list, otherwise the
   * mean clamped into [0, 100].
   */
  function OverallScore(stats: seq<Stat>): (score: real)
    ensures 0.0 <= score <= 100.0
    ensures stats == [] ==> score == NeutralScore
    ensures stats != [] && 0.0 <= Mean(stats) <= 100.0 ==> score == Mean(stats)
    ensures stats != [] && Mean(stats) < 0.0 ==> score == 0.0
    ensures stats != [] && Mean(stats) > 100.0 ==> score == 100.0
  {
    if stats == [] then NeutralScore
    else Max(0.0, Min(100.0, Mean(stats)))
  }

  lemma {:induction false} SumAppend(a: seq<Stat>, b: seq<Stat>)
    ensures SumValues(a + b) == SumValues(a) + SumValues(b)
  {
    if a != [] {
      assert (a + b)[1..] == a[1..] + b;
      SumAppend(a[1..], b);
    } else {
      assert a + b == b;
    }
  }

  /** Values all within [lo, hi] sum to between n * lo and n * hi. */
  lemma {:induction false} SumWithin(stats: seq<Stat>, lo: real, hi: real)
    requires forall i :: 0 <= i < |stats| ==> lo <= stats[i].value <= hi
    ensures |stats| as real * lo <= SumValues(stats) <= |stats| as real * hi
  {
    if stats != [] {
      SumWithin(stats[1..], lo, hi);
      assert |stats| as real * lo == (|stats| - 1) as real * lo + lo;
      assert |stats| as real * hi == (|stats| - 1) as real * hi + hi;
    }
  }

  /** The mean lies between any bounds on the individual values. */
  lemma MeanWithin(stats: seq<Stat>, lo: real, hi: real)
    requires stats != []
    requires forall i :: 0 <= i < |stats| ==> lo <= stats[i].value <= hi
    ensures lo <= Mean(stats) <= hi
  {
    SumWithin(stats, lo, hi);
    var n := |stats| as real;
    assert Mean(stats) * n == SumValues(stats);
  }

  /** When every value is already in [lo, hi] within [0, 100], no clamping happens. */
  lemma InRangeScoreIsMean(stats: seq<Stat>, lo: real, hi: real)
    requires stats != [] && 0.0 <= lo && hi <= 100.0
    requires forall i :: 0 <= i < |stats| ==> lo <= stats[i].value <= hi
    ensures OverallScore(stats) == Mean(stats)
    ensures lo <= OverallScore(stats) <= hi
  {
    MeanWithin(stats, lo, hi);
  }

  /** Stats all equal to v, a value in [0, 100], score exactly v. */
  lemma UniformStats(stats: seq<Stat>, v: real)
    requires stats != [] && 0.0 <= v <= 100.0
    requires forall i :: 0 <= i < |stats| ==> stats[i].value == v
    ensures OverallScore(stats) == v
  {
    InRangeScoreIsMean(stats, v, v);
  }

  /** The order of the stats does not matter. */
  lemma OrderIndependent(a: seq<Stat>, b: seq<Stat>)
    ensures OverallScore(a + b) == OverallScore(b + a)
  {
    SumAppend(a, b);
    SumAppend(b, a);
  }

  /** The stat names play no part: only the values are averaged. */
  lemma {:induction false} NamesIgnored(a: seq<Stat>, b: seq<Stat>)
    requires |a| == |b|
    requires forall i :: 0 <= i < |a| ==> a[i].value == b[i].value
    ensures SumValues(a) == SumValues(b)
    ensures OverallScore(a) == OverallScore(b)
  {
    if a != [] {
      NamesIgnored(a[1..], b[1..]);
    }
  }
}
