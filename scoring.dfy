/** The Levermann rule table: thirteen independent threshold rules, each mapping one
    optional figure to -1, 0 or +1, and the total score that sums them. */
module Scoring {
  import opened Wrappers

  /** The thirteen normalised inputs of the rule table. Every one may be missing. */
  datatype NormalizedInputs = NormalizedInputs(
    peRatio: Option<real>,
    ebitMargin: Option<real>,
    returnOnEquity: Option<real>,
    equityRatio: Option<real>,
    quarterReaction: Option<real>,
    earningsRevision: Option<real>,
    analystRating: Option<real>,
    momentum6m: Option<real>,
    momentum12m: Option<real>,
    distanceFromMA: Option<real>,
    volatility: Option<real>,
    beta: Option<real>,
    marketCap: Option<real>)

  /** The input in which every figure is missing. */
  const AllMissing := NormalizedInputs(None, None, None, None, None, None, None,
                                       None, None, None, None, None, None)

  /** Substitutes `fallback` for a missing value. Only a missing value (`undefined`
      or `null`) is replaced: a present 0 is a value like any other. */
  function LogAndFallback(value: Option<real>, fallback: real): (r: real)
    ensures value.Some? ==> r == value.value
    ensures value.None? ==> r == fallback
  {
    match value
    case Some(v) => v
    case None => fallback
  }

  /** Whether a rule rewards high values (margins, growth) or low ones (P/E, beta). */
  datatype Direction = HigherIsBetter | LowerIsBetter

  /** One row of the rule table: the fallback constant, the threshold beyond which a
      value scores +1 and the threshold beyond which it scores -1. */
  datatype Rule = Rule(fallback: real, good: real, bad: real, direction: Direction)
  {
    /** The two thresholds do not overlap, so no value is both rewarded and penalised. */
    predicate WellFormed()
    {
      if direction == HigherIsBetter then bad <= good else good <= bad
    }

    /** The value lies strictly beyond the +1 threshold. */
    predicate Rewards(v: real)
    {
      if direction == HigherIsBetter then v > good else v < good
    }

    /** The value lies strictly beyond the -1 threshold. */
    predicate Penalises(v: real)
    {
      if direction == HigherIsBetter then v < bad else v > bad
    }
  }

  // The rule table as the service codes it: fallback, +1 threshold, -1 threshold, direction.
  const PERatioRule := Rule(15.0, 12.0, 20.0, LowerIsBetter)
  const EBITMarginRule := Rule(10.0, 12.0, 6.0, HigherIsBetter)
  const ROERule := Rule(15.0, 20.0, 10.0, HigherIsBetter)
  const EquityRatioRule := Rule(30.0, 25.0, 15.0, HigherIsBetter)
  const EarningsReactionRule := Rule(0.0, 3.0, -3.0, HigherIsBetter)
  const EarningsRevisionsRule := Rule(0.0, 0.0, 0.0, HigherIsBetter)
  const AnalystOpinionsRule := Rule(2.5, 2.0, 3.0, LowerIsBetter)
  const MomentumRule := Rule(0.0, 5.0, -5.0, HigherIsBetter)
  const MovingAverageRule := Rule(0.0, 5.0, -5.0, HigherIsBetter)
  const VolatilityRule := Rule(50.0, 20.0, 60.0, LowerIsBetter)
  const MarketReactionRule := Rule(1.0, 0.8, 1.2, LowerIsBetter)
  const MarketCapRule := Rule(5000000000.0, 5000000000.0, 1000000000.0, HigherIsBetter)

  /** The reference score of a table row: +1 when the value is rewarded, -1 when it is
      penalised, 0 otherwise (in particular on either threshold). */
  function RuleScore(rule: Rule, v: real): (r: int)
    requires rule.WellFormed()
    ensures -1 <= r <= 1
    ensures r == 1 <==> rule.Rewards(v)
    ensures r == -1 <==> rule.Penalises(v)
    ensures r == 0 <==> !rule.Rewards(v) && !rule.Penalises(v)
  {
    (if rule.Rewards(v) then 1 else 0) - (if rule.Penalises(v) then 1 else 0)
  }

  /** A table row applied to an optional figure, the fallback substituted when missing. */
  function Apply(rule: Rule, x: Option<real>): (r: int)
    requires rule.WellFormed()
    ensures -1 <= r <= 1
    ensures x.None? ==> r == RuleScore(rule, rule.fallback)
    ensures x.Some? ==> r == RuleScore(rule, x.value)
  {
    RuleScore(rule, LogAndFallback(x, rule.fallback))
  }

  // The thirteen rules as the service writes them: substitute the fallback, then
  // two strict comparisons, the +1 test first.

  function EvaluatePERatio(pe: Option<real>): (r: int)
    ensures -1 <= r <= 1
    ensures r == Apply(PERatioRule, pe)
  {
    var value := LogAndFallback(pe, 15.0);
    if value < 12.0 then 1 else if value > 20.0 then -1 else 0
  }

  function EvaluateEBITMargin(margin: Option<real>): (r: int)
    ensures -1 <= r <= 1
    ensures r == Apply(EBITMarginRule, margin)
  {
    var value := LogAndFallback(margin, 10.0);
    if value > 12.0 then 1 else if value < 6.0 then -1 else 0
  }

  function EvaluateROE(roe: Option<real>): (r: int)
    ensures -1 <= r <= 1
    ensures r == Apply(ROERule, roe)
  {
    var value := LogAndFallback(roe, 15.0);
    if value > 20.0 then 1 else if value < 10.0 then -1 else 0
  }

  function EvaluateEquityRatio(ratio: Option<real>): (r: int)
    ensures -1 <= r <= 1
    ensures r == Apply(EquityRatioRule, ratio)
  {
    var value := LogAndFallback(ratio, 30.0);
    if value > 25.0 then 1 else if value < 15.0 then -1 else 0
  }

  function EvaluateEarningsReaction(pct: Option<real>): (r: int)
    ensures -1 <= r <= 1
    ensures r == Apply(EarningsReactionRule, pct)
  {
    var value := LogAndFallback(pct, 0.0);
    if value > 3.0 then 1 else if value < -3.0 then -1 else 0
  }

  function EvaluateEarningsRevisions(pct: Option<real>): (r: int)
    ensures -1 <= r <= 1
    ensures r == Apply(EarningsRevisionsRule, pct)
  {
    var value := LogAndFallback(pct, 0.0);
    if value > 0.0 then 1 else if value < 0.0 then -1 else 0
  }

  function EvaluateAnalystOpinions(rating: Option<real>): (r: int)
    ensures -1 <= r <= 1
    ensures r == Apply(AnalystOpinionsRule, rating)
  {
    var value := LogAndFallback(rating, 2.5);
    if value < 2.0 then 1 else if value > 3.0 then -1 else 0
  }

  /** Used for both the 6-month and the 12-month price return. */
  function EvaluateMomentum(pct: Option<real>): (r: int)
    ensures -1 <= r <= 1
    ensures r == Apply(MomentumRule, pct)
  {
    var value := LogAndFallback(pct, 0.0);
    if value > 5.0 then 1 else if value < -5.0 then -1 else 0
  }

  function EvaluateMovingAverage(diff: Option<real>): (r: int)
    ensures -1 <= r <= 1
    ensures r == Apply(MovingAverageRule, diff)
  {
    var value := LogAndFallback(diff, 0.0);
    if value > 5.0 then 1 else if value < -5.0 then -1 else 0
  }

  function EvaluateVolatility(vol: Option<real>): (r: int)
    ensures -1 <= r <= 1
    ensures r == Apply(VolatilityRule, vol)
  {
    var value := LogAndFallback(vol, 50.0);
    if value < 20.0 then 1 else if value > 60.0 then -1 else 0
  }

  function EvaluateMarketReaction(beta: Option<real>): (r: int)
    ensures -1 <= r <= 1
    ensures r == Apply(MarketReactionRule, beta)
  {
    var value := LogAndFallback(beta, 1.0);
    if value < 0.8 then 1 else if value > 1.2 then -1 else 0
  }

  function EvaluateMarketCap(cap: Option<real>): (r: int)
    ensures -1 <= r <= 1
    ensures r == Apply(MarketCapRule, cap)
  {
    var value := LogAndFallback(cap, 5000000000.0);
    if value > 5000000000.0 then 1 else if value < 1000000000.0 then -1 else 0
  }

  /** The named score record, one field per rule. */
  datatype Scores = Scores(
    peRatio: int,
    ebitMargin: int,
    returnOnEquity: int,
    equityRatio: int,
    earningsReaction: int,
    earningsRevisions: int,
    analystOpinions: int,
    priceMomentum6M: int,
    priceMomentum12M: int,
    movingAverageDistance: int,
    priceStability: int,
    marketReaction: int,
    marketCapitalization: int)
  {
    /** The record's entries under their published names, in insertion order. */
    function Entries(): seq<(string, int)>
    {
      [("P_E_Ratio", peRatio), ("EBIT_Margin", ebitMargin),
       ("Return_on_Equity", returnOnEquity), ("Equity_Ratio", equityRatio),
       ("Earnings_Reaction", earningsReaction), ("Earnings_Revisions", earningsRevisions),
       ("Analyst_Opinions", analystOpinions), ("Price_Momentum_6M", priceMomentum6M),
       ("Price_Momentum_12M", priceMomentum12M), ("Moving_Average_Distance", movingAverageDistance),
       ("Price_Stability", priceStability), ("Market_Reaction", marketReaction),
       ("Market_Capitalization", marketCapitalization)]
    }

    /** The sum of the thirteen named sub-scores, written out field by field. */
    function FieldSum(): int
    {
      peRatio + ebitMargin + returnOnEquity + equityRatio + earningsReaction
      + earningsRevisions + analystOpinions + priceMomentum6M + priceMomentum12M
      + movingAverageDistance + priceStability + marketReaction + marketCapitalization
    }
  }

  /** The values of a list of entries, in order (`Object.values`). */
  function Values(entries: seq<(string, int)>): (vs: seq<int>)
    ensures |vs| == |entries|
    ensures forall i :: 0 <= i < |entries| ==> vs[i] == entries[i].1
  {
    seq(|entries|, i requires 0 <= i < |entries| => entries[i].1)
  }

  /** Left fold with `+` from 0 (`reduce((a, b) => a + b, 0)`). */
  function Sum(s: seq<int>): int
  {
    if s == [] then 0 else Sum(s[..|s| - 1]) + s[|s| - 1]
  }

  /** A sum of sub-scores in {-1, 0, 1} lies between -|s| and |s|. */
  lemma {:induction false} SumBounded(s: seq<int>)
    requires forall i :: 0 <= i < |s| ==> -1 <= s[i] <= 1
    ensures -|s| <= Sum(s) <= |s|
  {
    if s != [] {
      SumBounded(s[..|s| - 1]);
    }
  }

  /** One step of the fold: the sum of a prefix of length k adds its last element. */
  lemma SumPrefixStep(s: seq<int>, k: nat)
    requires 0 < k <= |s|
    ensures Sum(s[..k]) == Sum(s[..k - 1]) + s[k - 1]
  {
    assert s[..k][..k - 1] == s[..k - 1];
  }

  /** Folding the record's values gives the field-by-field sum. */
  lemma SumOfEntries(s: Scores)
    ensures Sum(Values(s.Entries())) == s.FieldSum()
  {
    var vs := Values(s.Entries());
    SumPrefixStep(vs, 1); SumPrefixStep(vs, 2); SumPrefixStep(vs, 3);
    SumPrefixStep(vs, 4); SumPrefixStep(vs, 5); SumPrefixStep(vs, 6);
    SumPrefixStep(vs, 7); SumPrefixStep(vs, 8); SumPrefixStep(vs, 9);
    SumPrefixStep(vs, 10); SumPrefixStep(vs, 11); SumPrefixStep(vs, 12);
    SumPrefixStep(vs, 13);
    assert vs[..0] == [];
    assert vs[..13] == vs;
  }

  /** Every rule applied to its input. */
  function ScoreInputs(d: NormalizedInputs): (s: Scores)
    ensures forall i :: 0 <= i < |s.Entries()| ==> -1 <= s.Entries()[i].1 <= 1
  {
    Scores(
      EvaluatePERatio(d.peRatio),
      EvaluateEBITMargin(d.ebitMargin),
      EvaluateROE(d.returnOnEquity),
      EvaluateEquityRatio(d.equityRatio),
      EvaluateEarningsReaction(d.quarterReaction),
      EvaluateEarningsRevisions(d.earningsRevision),
      EvaluateAnalystOpinions(d.analystRating),
      EvaluateMomentum(d.momentum6m),
      EvaluateMomentum(d.momentum12m),
      EvaluateMovingAverage(d.distanceFromMA),
      EvaluateVolatility(d.volatility),
      EvaluateMarketReaction(d.beta),
      EvaluateMarketCap(d.marketCap))
  }

  /** The payload of one analysis: the ISIN, the named scores and their total. */
  datatype LevermannResult = LevermannResult(isin: string, scores: seq<(string, int)>, totalScore: int)

  /** The scoring half of `analyseStock`: build the record, then fold its values. */
  function Levermann(isin: string, d: NormalizedInputs): (r: LevermannResult)
    ensures r.isin == isin
    ensures r.scores == ScoreInputs(d).Entries()
    ensures r.totalScore == ScoreInputs(d).FieldSum()
    ensures -13 <= r.totalScore <= 13
  {
    var scores := ScoreInputs(d);
    var entries := scores.Entries();
    SumOfEntries(scores);
    SumBounded(Values(entries));
    LevermannResult(isin, entries, Sum(Values(entries)))
  }

  /** Every row of the rule table is well formed, so each value gets exactly one score. */
  lemma TableWellFormed()
    ensures PERatioRule.WellFormed() && EBITMarginRule.WellFormed() && ROERule.WellFormed()
    ensures EquityRatioRule.WellFormed() && EarningsReactionRule.WellFormed()
    ensures EarningsRevisionsRule.WellFormed() && AnalystOpinionsRule.WellFormed()
    ensures MomentumRule.WellFormed() && MovingAverageRule.WellFormed()
    ensures VolatilityRule.WellFormed() && MarketReactionRule.WellFormed()
    ensures MarketCapRule.WellFormed()
  {
  }

  /** A value exactly on either threshold scores 0: every comparison is strict. */
  lemma ThresholdIsNeutral(rule: Rule, v: real)
    requires rule.WellFormed()
    requires v == rule.good || v == rule.bad
    ensures RuleScore(rule, v) == 0
  {
  }

  /** Every threshold value scores 0. */
  lemma BoundaryValuesScoreZero()
    ensures EvaluatePERatio(Some(12.0)) == 0 && EvaluatePERatio(Some(20.0)) == 0
    ensures EvaluateEBITMargin(Some(12.0)) == 0 && EvaluateEBITMargin(Some(6.0)) == 0
    ensures EvaluateROE(Some(20.0)) == 0 && EvaluateROE(Some(10.0)) == 0
    ensures EvaluateEquityRatio(Some(25.0)) == 0 && EvaluateEquityRatio(Some(15.0)) == 0
    ensures EvaluateEarningsReaction(Some(3.0)) == 0 && EvaluateEarningsReaction(Some(-3.0)) == 0
    ensures EvaluateEarningsRevisions(Some(0.0)) == 0
    ensures EvaluateAnalystOpinions(Some(2.0)) == 0 && EvaluateAnalystOpinions(Some(3.0)) == 0
    ensures EvaluateMomentum(Some(5.0)) == 0 && EvaluateMomentum(Some(-5.0)) == 0
    ensures EvaluateMovingAverage(Some(5.0)) == 0 && EvaluateMovingAverage(Some(-5.0)) == 0
    ensures EvaluateVolatility(Some(20.0)) == 0 && EvaluateVolatility(Some(60.0)) == 0
    ensures EvaluateMarketReaction(Some(0.8)) == 0 && EvaluateMarketReaction(Some(1.2)) == 0
    ensures EvaluateMarketCap(Some(5000000000.0)) == 0 && EvaluateMarketCap(Some(1000000000.0)) == 0
  {
  }

  /** A missing figure scores exactly as its rule's fallback passed explicitly, while a
      present 0 is scored as 0 and not replaced. */
  lemma MissingMeansFallback(rule: Rule)
    requires rule.WellFormed()
    ensures Apply(rule, None) == Apply(rule, Some(rule.fallback))
    ensures Apply(rule, Some(0.0)) == RuleScore(rule, 0.0)
  {
  }

  /** A rule's score never moves against its direction as the value grows. */
  lemma RuleScoreMonotone(rule: Rule, v: real, w: real)
    requires rule.WellFormed()
    requires v <= w
    ensures rule.direction == HigherIsBetter ==> RuleScore(rule, v) <= RuleScore(rule, w)
    ensures rule.direction == LowerIsBetter ==> RuleScore(rule, v) >= RuleScore(rule, w)
  {
  }

  /** With every figure missing, only the equity ratio scores (fallback 30 > 25); the
      EBIT fallback 10 lies between 6 and 12 and the market-cap fallback sits on its
      threshold, so the total is 1. */
  lemma AllMissingScoresOne(isin: string)
    ensures ScoreInputs(AllMissing) == Scores(0, 0, 0, 1, 0, 0, 0, 0, 0, 0, 0, 0, 0)
    ensures Levermann(isin, AllMissing).totalScore == 1
  {
  }

  /** A worked example: every rule but the 12-month momentum scores +1. */
  lemma WorkedExample(isin: string)
    ensures
      var d := NormalizedInputs(Some(10.0), Some(15.0), Some(25.0), Some(26.0), Some(4.0),
                                Some(1.0), Some(1.8), Some(6.0), Some(-6.0), Some(6.0),
                                Some(15.0), Some(0.7), Some(6000000000.0));
      ScoreInputs(d) == Scores(1, 1, 1, 1, 1, 1, 1, 1, -1, 1, 1, 1, 1)
      && Levermann(isin, d).totalScore == 11
  {
  }
}
