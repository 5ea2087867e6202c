/** One similar-case card and its relevance meter. The score is rounded to a
    whole percentage once for the printed label and once inside the meter. */
module CaseResultCard {
  import opened Types

  datatype MeterColor = Slate | Amber | Sky | Green

  /** The meter's colour: every comparison is strict, so 90, 80 and 70 fall
      into the lower bucket. */
  function RelevanceColor(percentage: int): (c: MeterColor)
    ensures c == Green <==> percentage > 90
    ensures c == Sky <==> 80 < percentage <= 90
    ensures c == Amber <==> 70 < percentage <= 80
    ensures c == Slate <==> percentage <= 70
  {
    if percentage > 90 then Green
    else if percentage > 80 then Sky
    else if percentage > 70 then Amber
    else Slate
  }

  /** The buckets from lowest to highest. */
  function Rank(c: MeterColor): nat {
    match c
    case Slate => 0
    case Amber => 1
    case Sky => 2
    case Green => 3
  }

  /** A higher percentage never gets a lower bucket. */
  lemma RelevanceColorMonotone(p: int, q: int)
    requires p <= q
    ensures Rank(RelevanceColor(p)) <= Rank(RelevanceColor(q))
  {
  }

  lemma RelevanceBoundaries()
    ensures RelevanceColor(91) == Green && RelevanceColor(90) == Sky
    ensures RelevanceColor(81) == Sky && RelevanceColor(80) == Amber
    ensures RelevanceColor(71) == Amber && RelevanceColor(70) == Slate
  {
  }

  /** `Math.round(score * 100)` on exact reals: the nearest integer, a half
      going up. */
  function RoundPercent(score: real): (p: int)
    ensures (p as real) - 0.5 <= score * 100.0 < (p as real) + 0.5
  {
    (score * 100.0 + 0.5).Floor
  }

  /** Only one integer lies that close to the scaled score. */
  lemma RoundPercentUnique(score: real, q: int)
    requires (q as real) - 0.5 <= score * 100.0 < (q as real) + 0.5
    ensures RoundPercent(score) == q
  {
    var p := RoundPercent(score);
    assert (p as real) - (q as real) < 1.0 && (q as real) - (p as real) < 1.0;
  }

  /** A higher score never rounds to a lower percentage. */
  lemma RoundPercentMonotone(s: real, t: real)
    requires s <= t
    ensures RoundPercent(s) <= RoundPercent(t)
  {
  }

  /** The meter: its bar's width in percent and its colour. */
  datatype Meter = Meter(widthPercent: int, color: MeterColor)

  /** `RelevanceMeter` rounds the score itself and colours the bar by the
      rounded value. */
  function RelevanceMeter(score: real): (m: Meter)
    ensures (m.widthPercent as real) - 0.5 <= score * 100.0 < (m.widthPercent as real) + 0.5
    ensures m.color == RelevanceColor(m.widthPercent)
  {
    var percentage := RoundPercent(score);
    Meter(percentage, RelevanceColor(percentage))
  }

  /** The percentage printed above the meter, rounded separately from it. */
  function ScoreLabel(score: real): (p: int)
    ensures (p as real) - 0.5 <= score * 100.0 < (p as real) + 0.5
  {
    RoundPercent(score)
  }

  /** The printed percentage and the bar's width agree for every score. */
  lemma {:induction false} LabelMatchesMeter(score: real)
    ensures ScoreLabel(score) == RelevanceMeter(score).widthPercent
  {
    var m := RelevanceMeter(score);
    RoundPercentUnique(score, m.widthPercent);
  }

  /** A higher score never gets a lower colour bucket. */
  lemma MeterColorMonotone(s: real, t: real)
    requires s <= t
    ensures Rank(RelevanceMeter(s).color) <= Rank(RelevanceMeter(t).color)
  {
    RoundPercentMonotone(s, t);
    RelevanceColorMonotone(RoundPercent(s), RoundPercent(t));
  }

  /** What a card shows of its case. */
  datatype Card = Card(
    caseTitle: string,
    citationOrYear: string,
    courtName: string,
    shownPercent: int,
    meter: Meter,
    summaryOfDecision: string,
    legalTakeaway: string,
    keySectionsCited: seq<string>)

  /** The card of one case: the printed percentage is the bar's width, the
      colour is chosen from it, and the texts are the case's own. */
  function CardFor(c: SimilarCase): (v: Card)
    ensures v.shownPercent == v.meter.widthPercent
    ensures v.meter.color == RelevanceColor(v.shownPercent)
    ensures v.caseTitle == c.caseTitle && v.citationOrYear == c.citationOrYear && v.courtName == c.courtName
    ensures v.summaryOfDecision == c.summaryOfDecision && v.legalTakeaway == c.legalTakeaway
    ensures v.keySectionsCited == c.keySectionsCited
  {
    LabelMatchesMeter(c.relevanceScore);
    Card(c.caseTitle, c.citationOrYear, c.courtName, ScoreLabel(c.relevanceScore), RelevanceMeter(c.relevanceScore),
         c.summaryOfDecision, c.legalTakeaway, c.keySectionsCited)
  }
}
