# Scouting report pipeline, modelled in Dafny

This project models the scoring pipeline of a small scouting service. The
service takes a player record and returns a report. The record holds a name,
a position, an age, a list of named statistics, a marketability score and
highlight notes. The report holds:

- a normalised performance score between 0 and 100;
- a team fit, an agency fit and an opportunity score (their mean);
- a draft projection: a round, an optional pick estimate and a probability;
- an NIL (name, image and likeness) value estimate: a current and a 12-month
  value in whole currency units, and one brand suggestion;
- a pitch text built from a fixed template.

Every stage is a pure function, so the model is made of datatypes, functions
and lemmas, one module per stage:

| file | module | stage |
|---|---|---|
| `numeric.dfy` | `Numeric` | `int(x)` as truncation toward zero, `round(x, 2)` as round-half-to-even at the hundredths, clamps |
| `scout_types.dfy` | `ScoutTypes` | `Stat`, `Player`, `Option`, `Result` |
| `normalizer.dfy` | `Normalizer` | overall score: mean of the stat values clamped to [0, 100], or 50 with no stats |
| `fit.dfy` | `FitEvaluator` | age factor, the unused position factor, team/agency fit, opportunity |
| `draft.dfy` | `DraftProjector` | four-bucket step function from the score |
| `nil.dfy` | `NilEstimator` | base and 12-month values, brand suggestion |
| `text.dfy` | `Text` | `"; ".join`, ASCII `lower()`, `str()` of an int |
| `pitch.dfy` | `PitchComposer` | the pitch template and its highlights branch |
| `pipeline.dfy` | `Pipeline` | `generate_report`: the stages chained in order |

Modelling choices:

- Numbers are exact `real`s. Python's `int(x)` becomes `Numeric.Trunc`, which
  truncates toward zero. The draft projector accepts any real score, so this
  differs from the floor for negative arguments. Python's `round(x, 2)` becomes
  `Numeric.Round2`. It is an explicit definition: round to the nearest
  hundredth, with an exact tie going to the even neighbour, as Python rounds
  an exact value.
- `marketability_score` and `highlights` are optional fields, and the request
  may send an explicit null for either. The model follows the code:
  - a null marketability makes the fit stage fail on arithmetic with `None`,
    so `Pipeline.GenerateReport` returns `Err(MarketabilityMissing)`;
  - a null highlights list is falsy and renders as `N/A`, like an empty one.
- The documented ranges hold for marketability in [0, 1] and age >= 0
  (`ScoutTypes.InScoringRange`). The request schema enforces the first
  condition. The code does not enforce the second. So these conditions are
  hypotheses of the bounds lemmas, not preconditions of the stage functions.
- The draft projection and the NIL estimate are fed the ROUNDED overall score
  from the fit scores, not the raw mean. `Pipeline.RoundedScoreDecidesDraft`
  shows where this matters: a raw mean of 84.996 is projected in the top
  bucket.
- The position factor is computed as the code computes it: a case-insensitive
  test against a fixed list of positions. No output reads it. This is stated
  as a lemma (`FitEvaluator.PositionIrrelevant`) and not corrected.
- The pitch renders floating-point numbers through a parameter
  `showReal: real -> string`, which stands for Python's float-to-text
  conversion. The age is an int, and its text is modelled exactly.

## Model

| member | source | states |
|---|---|---|
| `Numeric.Max` | main.py:30 | the result is one of the two arguments and at least both |
| `Numeric.Min` | main.py:30 | the result is one of the two arguments and at most both |
| `Numeric.Trunc` | main.py:81 | `int(x)`: the integer part toward zero, with 0 <= n <= x < n+1 for x >= 0 and n-1 < x <= n <= 0 for x < 0 |
| `Numeric.TruncMonotone` | main.py:53 | truncation never decreases as its argument grows |
| `Numeric.TruncOfNonNegative` | main.py:81 | on non-negative values truncation is the floor |
| `Numeric.RoundHalfEven` | main.py:43-46 | the result is within 1/2 of x, and an exact tie goes to the even integer |
| `Numeric.RoundHalfEvenNearest` | main.py:43-46 | no integer is strictly closer to x than the rounded value |
| `Numeric.RoundHalfEvenMonotone` | main.py:43-46 | rounding to an integer is monotone |
| `Numeric.Round2` | main.py:43-46 | `round(x, 2)` is a whole number of hundredths, within half a hundredth of x, and on an exact tie the even hundredth; these determine it |
| `Numeric.Round2Nearest` | main.py:43-46 | no whole number of hundredths is strictly closer to x than `round(x, 2)` |
| `Numeric.Round2Exact` | main.py:67 | a value with at most two decimals is unchanged by `round(x, 2)` |
| `Numeric.Round2Monotone` | main.py:43-46 | `round(x, 2)` is monotone |
| `Numeric.Round2Within` | main.py:43-46 | rounding keeps a value inside any range whose ends are hundredths |
| `Normalizer.SumValues` | main.py:27-28 | `sum(vals)`: its properties are stated by `Normalizer.SumAppend` and `Normalizer.SumWithin` |
| `Normalizer.Mean` | main.py:28 | `sum(vals)/len(vals)` for a non-empty list: its bounds are stated by `Normalizer.MeanWithin` |
| `Normalizer.OverallScore` | main.py:23-31 | always in [0, 100]; exactly 50.0 for no stats; otherwise the mean when the mean is in [0, 100], 0 below, 100 above |
| `Normalizer.SumAppend` | main.py:28 | the sum of two concatenated stat lists is the sum of their sums |
| `Normalizer.SumWithin` | main.py:27-28 | n values within [lo, hi] sum to between n*lo and n*hi |
| `Normalizer.MeanWithin` | main.py:27-28 | the mean lies between any bounds on the individual values |
| `Normalizer.InRangeScoreIsMean` | main.py:27-31 | when all values lie in [lo, hi] within [0, 100], the score is the unclamped mean and lies in [lo, hi] |
| `Normalizer.UniformStats` | main.py:27-31 | stats all equal to v in [0, 100] give a score of exactly v |
| `Normalizer.OrderIndependent` | main.py:27-28 | the score of a + b equals the score of b + a |
| `Normalizer.NamesIgnored` | main.py:27 | two stat lists with the same values in the same positions have the same sum and score, whatever the names |
| `FitEvaluator.AgeFactor` | main.py:36 | in [0, 1] for age >= 0, 1 at age 0, 0 from age 30, above 1 for a negative age |
| `FitEvaluator.AgeFactorNonIncreasing` | main.py:36 | a younger player never has a lower age factor |
| `FitEvaluator.PositionFactor` | main.py:37 | 1.0 exactly when the lower-cased position is a known position, 0.8 exactly otherwise |
| `FitEvaluator.PositionFactorIgnoresCase` | main.py:37 | the factor is the same for a position and its lower-case form; "Guard" and "CENTER" are recognised |
| `FitEvaluator.Opportunity` | main.py:41 | the opportunity lies between the smaller and the larger fit |
| `FitEvaluator.TeamFit` | main.py:39 | 0.6 of the score fraction, 0.2 of the age factor, 0.2 of marketability: its range is stated by `FitEvaluator.FractionBounds` |
| `FitEvaluator.AgencyFit` | main.py:40 | 0.6 of marketability and 0.4 of the score fraction: its range is stated by `FitEvaluator.FractionBounds` |
| `FitEvaluator.ComputeFitScores` | main.py:33-47 | the published overall score is the normaliser's score rounded to 2 decimals, and each published fit is its fraction (team, agency, opportunity) times 100 rounded to 2 decimals |
| `FitEvaluator.FractionBounds` | main.py:39-41 | with score in [0, 100] and age factor and marketability in [0, 1], team and agency fit are in [0, 1] and the opportunity lies between them |
| `FitEvaluator.RoundedBounds` | main.py:43-46 | after scaling and rounding, all four numbers are in [0, 100] and the opportunity still lies between the two fits |
| `FitEvaluator.FitBounds` | main.py:33-47 | for a player in range, all four published fit numbers are in [0, 100] and the opportunity lies between team and agency fit |
| `FitEvaluator.PositionIrrelevant` | main.py:36-46 | changing the position changes no fit score: the position factor is never read |
| `DraftProjector.TopPick` | main.py:53 | `int(30 - (score - 85))`: its range is stated by `DraftProjector.PickBounds` and `DraftProjector.TopPickFloorBinds` |
| `DraftProjector.Project` | main.py:49-67 | for every real score: round 1, 2 or 3; pick absent exactly when score < 55; every pick >= 1; probability strictly between 0 and 1 |
| `DraftProjector.Probabilities` | main.py:54-67 | 0.95, 0.75, 0.45 and 0.12 survive `round(prob, 2)` unchanged |
| `DraftProjector.Buckets` | main.py:51-66 | >= 85: round 1, 0.95; [70, 85): round 1, 0.75; [55, 70): round 2, 0.45; < 55: round 3, no pick, 0.12; round 1 iff score >= 70; round 3 iff score < 55 |
| `DraftProjector.PickBounds` | main.py:53-61 | for a score in [0, 100], the picks lie in [15, 30], [30, 45] and [50, 65] by bucket, and the top bucket's max(1, ...) does not bind |
| `DraftProjector.TopPickFloorBinds` | main.py:53 | in the top bucket the max(1, ...) changes the pick exactly when the score is above 114 |
| `DraftProjector.Monotone` | main.py:51-66 | a higher score never gives a later round, a lower probability, a later pick, or a missing pick where the lower score had one |
| `DraftProjector.BoundaryExamples` | main.py:51-67 | 85 gives (1, 30, 0.95); 84.999 gives (1, 30, 0.75); 70 gives (1, 45, 0.75); 55 gives (2, 65, 0.45); 54.999 gives (3, none, 0.12) |
| `NilEstimator.BaseValue` | main.py:71 | the score as a share of 200,000: its range is stated by `NilEstimator.Amounts` |
| `NilEstimator.Projection12m` | main.py:72-73 | base times (1 + marketability) times 1.1: its range is stated by `NilEstimator.Amounts` |
| `NilEstimator.BrandSuggestion` | main.py:74-80 | the threshold choice of the brand message: stated by `NilEstimator.BrandThresholds` |
| `NilEstimator.Estimate` | main.py:69-81 | exactly one brand suggestion, one of the three fixed messages |
| `NilEstimator.Amounts` | main.py:71-81 | for score in [0, 100] and marketability in [0, 1]: current value = floor(score * 2000), in [0, 200000], and current <= 12-month <= 440000 |
| `NilEstimator.BrandThresholds` | main.py:74-80 | national iff marketability > 0.8; regional iff in (0.5, 0.8]; local iff <= 0.5 |
| `NilEstimator.ReadsOnlyMarketability` | main.py:69-81 | two players with the same marketability get the same estimate |
| `NilEstimator.TopOfScale` | main.py:71-81 | score 100 with marketability 1 gives 200000 and 440000 |
| `Text.Join` | main.py:92 | `sep.join(parts)`: its contents are stated by `Text.JoinAt` and `Text.JoinLength` |
| `Text.JoinAt` | main.py:92 | every part appears unchanged at its offset in the joined text, in order, with the separator between neighbours |
| `Text.JoinLength` | main.py:92 | the joined text ends right after the last part |
| `Text.LowerChar` | main.py:37 | an upper-case ASCII letter becomes the lower-case letter at the same place in the alphabet; every other character is unchanged |
| `Text.Lower` | main.py:37 | same length, every character lowered |
| `Text.LowerIdempotent` | main.py:37 | lowering twice is lowering once |
| `Text.DigitChar` | main.py:84 | a digit character whose code is '0' plus the digit |
| `Text.NatToString` | main.py:84 | non-empty, only digits, no leading zero for a positive number, and a leading '0' only in the text "0" itself |
| `Text.IntToString` | main.py:84 | non-empty; starts with '-' exactly for a negative number; the digits are those of the number (of its absolute value after a '-') |
| `Text.NatToStringRoundTrip` | main.py:84 | reading the rendered digits back gives the original number |
| `Text.IntToStringRoundTrip` | main.py:84 | reading back the digits after any '-' gives the rendered int, negated when the sign is there |
| `PitchComposer.HighlightsText` | main.py:92 | "N/A" for no highlights (null or empty); otherwise the highlights joined with "; " |
| `PitchComposer.HighlightsInOrder` | main.py:92 | the rendered highlights hold every highlight in original order, each but the last followed by "; ", and nothing after the last |
| `PitchComposer.SingleHighlight` | main.py:92 | one highlight renders as itself, with no separator |
| `PitchComposer.MarketabilityText` | main.py:91 | the marketability rendered as its number, or "None" for a null: placed by `PitchComposer.BuildPitch` |
| `PitchComposer.Heading` | main.py:84 | the "Pitch for <name> (<position>, age <age>)" line: placed by `PitchComposer.BuildPitch` |
| `PitchComposer.Details` | main.py:85-91 | the score lines and the "Why sign" block: placed by `PitchComposer.BuildPitch` |
| `PitchComposer.Body` | main.py:84-91 | the heading followed by the details: placed by `PitchComposer.BuildPitch` |
| `PitchComposer.StrengthsLine` | main.py:92-93 | the key-strengths line and the blank line after it: placed by `PitchComposer.BuildPitch` |
| `PitchComposer.BuildPitch` | main.py:83-99 | the pitch is the heading, then the score and "Why sign" details, then the key-strengths line, then the fixed next-steps block, each read back at its offset, and its length is the sum of theirs, so nothing else is in it |
| `PitchComposer.NullHighlightsAsEmpty` | main.py:92 | a null highlights list and an empty one give the same pitch |
| `PitchComposer.StatsOnlyThroughFit` | main.py:83-99 | the pitch does not read the stats directly |
| `Pipeline.GenerateReport` | main.py:110-121 | fails exactly for a null marketability; otherwise echoes the player, uses the fit scores, feeds the rounded overall score to the draft and NIL stages, and the report text is the pitch built from the player and those fit scores |
| `Pipeline.ReportBounds` | main.py:110-121 | for a player in range, every fit number is in [0, 100], the round is 1-3, the probability is in (0, 1), any pick is in [1, 65], and 0 <= current NIL <= 12-month NIL <= 440000 |
| `Pipeline.PositionIrrelevantToScores` | main.py:110-113 | changing the position changes no fit score, no draft projection and no NIL estimate |
| `Pipeline.RoundedScoreDecidesDraft` | main.py:111-112 | a raw mean of 84.996 (below 85) is published as 85.0 and projected as round 1, pick 30, probability 0.95 |
| `Pipeline.ReportStrengths` | main.py:110-121 | the report text holds "- Key strengths: " and the rendered highlights right after the body of the pitch |
| `Pipeline.AlexChen` | main.py:110-121 | the worked example: score 85.0, draft (1, 30, 0.95), NIL 170000 and 355300 with the national suggestion |
| `Pipeline.AlexChenPitch` | main.py:110-121 | the worked example's report text has "- Key strengths: All-conference" and a blank line right after the body of the pitch, for any player with that one highlight |

## Left out

- The web layer is not modelled: the FastAPI application, the route decorators, the response schema and the `/health` endpoint (main.py:7, 102-109, 123-125). It is transport, not logic.
- Request validation and the schema's defaults are not modelled (main.py:10-20). These are marketability 0.5 when absent, and empty stats and highlights. The marketability range [0, 1] appears as a hypothesis (`ScoutTypes.InScoringRange`).
- IEEE-754 floating point is not modelled. Every quantity is an exact real. Python's float results can differ in the last bit, and truncation can then give a value one lower (for example in the 12-month NIL value). NaN and infinite stat values do not exist in the model.
- Numeric.Round2: models `round(x, 2)` on the exact real value, not on the binary float nearest to it; for 2.675 the model gives 2.68 while Python, rounding the float just below it, gives 2.67.
- Python's conversion of a float to text inside the pitch is not modelled. It is the parameter `showReal` of `PitchComposer.BuildPitch` and `Pipeline.GenerateReport`.
- Text.Lower: lowers ASCII letters only, whereas Python's `str.lower()` also lowers other Unicode letters; the position list it is compared against is ASCII.
- FitEvaluator.FitBounds: the bounds assume age >= 0. The code accepts negative ages, and then the age factor exceeds 1 (stated in `FitEvaluator.AgeFactor`).
