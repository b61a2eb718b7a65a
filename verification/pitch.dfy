/**
 * The pitch composer (`build_pitch`): a fixed multi-line template filled with
 * the player's fields and the fit scores. Its only branch chooses between the
 * joined highlights and the placeholder "N/A".
 */
module PitchComposer {
  import opened ScoutTypes
  import opened Text
  import opened FitEvaluator

  const Placeholder: string := "N/A"
  const HighlightSeparator: string := "; "

  /** The closing block of every pitch, independent of the player. */
  const NextSteps: string :=
    "Recommended next steps:\n"
    + "1. Shortlist for targeted tryout.\n"
    + "2. Produce highlight reel and social push.\n"
    + "3. Introduce to 2-3 regional brands for initial NIL deals.\n"

  /**
   * The key-strengths text: the placeholder when there are no highlights
   * (an empty list or an explicit null), otherwise the highlights joined by
   * "; " in their original order.
   */
  function HighlightsText(highlights: Option<seq<string>>): (t: string)
    ensures highlights == None || highlights == Some([]) ==> t == Placeholder
    ensures highlights.Some? && highlights.value != [] ==>
      t == Join(HighlightSeparator, highlights.value)
  {
    if highlights.Some? && highlights.value != [] then Join(HighlightSeparator, highlights.value)
    else Placeholder
  }

  /**
   * Rendered highlights keep every highlight, in order, each but the last
   * followed by "; ", and nothing more.
   */
  lemma HighlightsInOrder(highlights: seq<string>, i: nat)
    requires i < |highlights|
    ensures var t, o := HighlightsText(Some(highlights)), Offset(HighlightSeparator, highlights, i);
      && o + |highlights[i]| <= |t|
      && t[o..o + |highlights[i]|] == highlights[i]
      && (i + 1 < |highlights| ==>
            Offset(HighlightSeparator, highlights, i + 1) == o + |highlights[i]| + |HighlightSeparator| &&
            Offset(HighlightSeparator, highlights, i + 1) <= |t| &&
            t[o + |highlights[i]|..Offset(HighlightSeparator, highlights, i + 1)] == HighlightSeparator)
      && (i + 1 == |highlights| ==> |t| == o + |highlights[i]|)
  {
    JoinAt(HighlightSeparator, highlights, i);
    JoinLength(HighlightSeparator, highlights);
  }

  /** A single highlight is rendered as itself, with no separator. */
  lemma SingleHighlight(h: string)
    ensures HighlightsText(Some([h])) == h
  {
  }

  /** How the marketability field is rendered: its number, or "None" for a null. */
  function MarketabilityText(market: Option<real>, showReal: real -> string): string
  {
    match market
    case Some(m) => showReal(m)
    case None => "None"
  }

  /** The first line: who the pitch is for. */
  function Heading(p: Player): string
  {
    "Pitch for " + p.fullName + " (" + p.position + ", age " + IntToString(p.age) + ")\n"
  }

  /**
   * Everything from the heading to the marketability line. Numbers other than
   * the age are rendered by `showReal`, which stands for Python's float to text
   * conversion.
   */
  function Body(p: Player, fit: FitScores, showReal: real -> string): string
  {
    Heading(p) + Details(p, fit, showReal)
  }

  /** The score lines and the "Why sign" block up to the marketability line. */
  function Details(p: Player, fit: FitScores, showReal: real -> string): string
  {
    "Overall Score: " + showReal(fit.overallScore) + "\n"
    + "Team Fit: " + showReal(fit.teamFit) + " | Agency Fit: " + showReal(fit.agencyFit) + "\n"
    + "Opportunity: " + showReal(fit.opportunityScore) + "\n"
    + "\n"
    + "Why sign:\n"
    + "- Plays " + p.position + " with consistent metrics.\n"
    + "- Marketability: " + MarketabilityText(p.marketability, showReal) + "\n"
  }

  /** The key-strengths line, followed by the blank line before the next steps. */
  function StrengthsLine(p: Player): string
  {
    "- Key strengths: " + HighlightsText(p.highlights) + "\n" + "\n"
  }

  /**
   * The pitch: the heading, then the score and "Why sign" lines, then the
   * key-strengths line, then the fixed next-steps block, and nothing else.
   */
  function BuildPitch(p: Player, fit: FitScores, showReal: real -> string): (pitch: string)
    ensures |pitch| == |Body(p, fit, showReal)| + |StrengthsLine(p)| + |NextSteps|
    ensures |Heading(p)| <= |pitch| && pitch[..|Heading(p)|] == Heading(p)
    ensures |Body(p, fit, showReal)| <= |pitch|
      && pitch[|Heading(p)|..|Body(p, fit, showReal)|] == Details(p, fit, showReal)
    ensures var b := |Body(p, fit, showReal)|;
      b + |StrengthsLine(p)| <= |pitch| && pitch[b..b + |StrengthsLine(p)|] == StrengthsLine(p)
    ensures |pitch| >= |NextSteps| && pitch[|pitch| - |NextSteps|..] == NextSteps
  {
    var heading, details, strengths := Heading(p), Details(p, fit, showReal), StrengthsLine(p);
    FourPartSlices(heading, details, strengths, NextSteps);
    heading + details + strengths + NextSteps
  }

  /** Each of four concatenated pieces can be read back by slicing. */
  lemma FourPartSlices<T>(a: seq<T>, b: seq<T>, c: seq<T>, d: seq<T>)
    ensures var x, i, j := a + b + c + d, |a| + |b|, |a| + |b| + |c|;
      && |x| == i + |c| + |d|
      && x[..|a|] == a && x[|a|..i] == b && x[i..j] == c && x[j..] == d
  {
    var x := a + b + c + d;
    ConcatSlices(a + b + c, d);
    ConcatSlices(a + b, c);
    ConcatSlices(a, b);
    assert x[..|a|] == (a + b + c)[..|a + b|][..|a|];
    assert x[|a|..|a| + |b|] == (a + b + c)[..|a + b|][|a|..];
    assert x[|a| + |b|..|a| + |b| + |c|] == (a + b + c)[|a + b|..];
  }

  /** A player sending no highlights and one sending an empty list get the same pitch. */
  lemma NullHighlightsAsEmpty(p: Player, fit: FitScores, showReal: real -> string)
    ensures BuildPitch(p.(highlights := None), fit, showReal)
         == BuildPitch(p.(highlights := Some([])), fit, showReal)
  {
  }

  /** The pitch reads the stats only through the fit scores. */
  lemma StatsOnlyThroughFit(p: Player, stats: seq<Stat>, fit: FitScores, showReal: real -> string)
    ensures BuildPitch(p.(stats := stats), fit, showReal) == BuildPitch(p, fit, showReal)
  {
  }
}
