/** Data acquisition: the provider responses as already-received records, the symbol
    pick, and the normalisation of the responses into the rule table's inputs. */
module Acquisition {
  import opened Wrappers
  import opened Scoring

  /** One entry of the symbol search; its `symbol` may be absent. */
  datatype SearchItem = SearchItem(symbol: Option<string>)

  /** The quote; `c` is the current price. */
  datatype Quote = Quote(c: Option<real>)

  /** The bulk metrics the normaliser reads, each independently optional. */
  datatype Metrics = Metrics(
    peNormalizedAnnual: Option<real>,
    operatingMarginTTM: Option<real>,
    roeTTM: Option<real>,
    revenueGrowthQuarterlyYoy: Option<real>,
    epsGrowthTTMYoy: Option<real>,
    priceReturn26Week: Option<real>,
    priceReturn52Week: Option<real>,
    returnStd3Month: Option<real>,
    beta: Option<real>,
    movingAverage50Day: Option<real>)

  /** The company profile; the market capitalisation is reported in millions. */
  datatype Profile = Profile(marketCapitalization: Option<real>)

  /** One analyst recommendation summary. */
  datatype Recommendation = Recommendation(rating: Option<real>)

  /** A balance-sheet line item, identified by its concept name. */
  datatype LineItem = LineItem(concept: string, value: Option<real>)

  /** The body of a reported filing; its balance sheet `bs` may be absent. */
  datatype Report = Report(bs: Option<seq<LineItem>>)

  /** One reported filing; its `report` may be absent. */
  datatype FiledReport = FiledReport(report: Option<Report>)

  /** Everything the providers answered for the resolved symbol. `None` stands for a
      request that failed (or an answer without the expected payload); `sma` is the
      moving-average series, most recent entry first, as parsed numbers. */
  datatype Responses = Responses(
    quote: Option<Quote>,
    metrics: Option<Metrics>,
    profile: Option<Profile>,
    recommendations: Option<seq<Recommendation>>,
    financials: Option<seq<FiledReport>>,
    sma: Option<seq<real>>)

  /** Why an analysis is aborted. */
  datatype Cause =
    | SearchFailed         // the search request failed or returned no result list
    | SymbolNotFound       // no search entry carries a symbol
    | BalanceSheetMissing  // the first filing has no balance sheet to search

  const StockholdersEquityConcept := "us-gaap_StockholdersEquity"
  const AssetsConcept := "us-gaap_Assets"

  /** The index of the first element satisfying `p` (`Array.prototype.find`). */
  function FindIndex<T>(s: seq<T>, p: T -> bool): (r: Option<nat>)
    ensures r.Some? ==> r.value < |s| && p(s[r.value])
    ensures r.Some? ==> forall j :: 0 <= j < r.value ==> !p(s[j])
    ensures r.None? ==> forall j :: 0 <= j < |s| ==> !p(s[j])
  {
    if s == [] then None
    else if p(s[0]) then Some(0)
    else
      match FindIndex(s[1..], p)
      case None => None
      case Some(i) => Some(i + 1)
  }

  /** JavaScript truthiness of an optional number: present and not 0, that is, a
      number that reads as non-zero even when a missing one would read as 0. */
  predicate Truthy(x: Option<real>)
    ensures Truthy(x) <==> LogAndFallback(x, 0.0) != 0.0
  {
    x.Some? && x.value != 0.0
  }

  /** JavaScript truthiness of an optional symbol: present and not empty. */
  predicate HasSymbol(item: SearchItem)
    ensures HasSymbol(item) ==> item.symbol.Some? && |item.symbol.value| > 0
    ensures item.symbol.Some? && |item.symbol.value| > 0 ==> HasSymbol(item)
  {
    item.symbol.Some? && item.symbol.value != ""
  }

  /** The symbol of the first search entry that has one; failing that, the analysis
      is aborted. */
  function ResolveSymbol(search: Option<seq<SearchItem>>): (r: Result<string, Cause>)
    ensures search.None? <==> r == Failure(SearchFailed)
    ensures search.Some? ==>
      (r.Success? <==> exists i :: 0 <= i < |search.value| && HasSymbol(search.value[i]))
    ensures search.Some? ==>
      (r == Failure(SymbolNotFound) <==> forall i :: 0 <= i < |search.value| ==> !HasSymbol(search.value[i]))
    ensures r.Success? ==>
      search.Some? &&
      exists i :: 0 <= i < |search.value| && HasSymbol(search.value[i])
        && r.value == search.value[i].symbol.value
        && forall j :: 0 <= j < i ==> !HasSymbol(search.value[j])
  {
    match search
    case None => Failure(SearchFailed)
    case Some(items) =>
      match FindIndex(items, HasSymbol)
      case None => Failure(SymbolNotFound)
      case Some(i) => Success(items[i].symbol.value)
  }

  /** The value of the first line item with the given concept, missing when there is
      no such item or it carries no value. */
  function ItemValue(bs: seq<LineItem>, concept: string): (r: Option<real>)
    ensures (forall i :: 0 <= i < |bs| ==> bs[i].concept != concept) ==> r.None?
    ensures forall i :: 0 <= i < |bs| && bs[i].concept == concept
                        && (forall j :: 0 <= j < i ==> bs[j].concept != concept)
                        ==> r == bs[i].value
  {
    match FindIndex(bs, (item: LineItem) => item.concept == concept)
    case None => None
    case Some(i) => bs[i].value
  }

  /** Total equity and total assets as read from the balance sheet. */
  datatype Figures = Figures(totalEquity: Option<real>, totalAssets: Option<real>)

  /** There is a first filing, and it has no balance sheet to search. */
  predicate FirstFilingLacksBalanceSheet(financials: Option<seq<FiledReport>>)
    ensures FirstFilingLacksBalanceSheet(financials) ==> financials.Some? && financials.value != []
    ensures (financials.Some? && financials.value != [] && financials.value[0].report.Some?
             && financials.value[0].report.value.bs.Some?) ==> !FirstFilingLacksBalanceSheet(financials)
    ensures (financials.Some? && financials.value != []
             && (financials.value[0].report.None? || financials.value[0].report.value.bs.None?))
            ==> FirstFilingLacksBalanceSheet(financials)
  {
    financials.Some? && |financials.value| > 0
    && (financials.value[0].report.None? || financials.value[0].report.value.bs.None?)
  }

  /** Reads equity and assets from the first filing's balance sheet. With no filing
      both stay missing; a first filing without a balance sheet aborts the analysis. */
  function BalanceSheetFigures(financials: Option<seq<FiledReport>>): (r: Result<Figures, Cause>)
    ensures r.Failure? <==> FirstFilingLacksBalanceSheet(financials)
    ensures r.Failure? ==> r.error == BalanceSheetMissing
    ensures financials.None? || financials.value == [] ==> r == Success(Figures(None, None))
    ensures r.Success? && financials.Some? && financials.value != [] ==>
      var bs := financials.value[0].report.value.bs.value;
      r.value.totalEquity == ItemValue(bs, StockholdersEquityConcept)
      && r.value.totalAssets == ItemValue(bs, AssetsConcept)
  {
    match financials
    case None => Success(Figures(None, None))
    case Some(filings) =>
      if |filings| == 0 then Success(Figures(None, None))
      else
        match filings[0].report
        case None => Failure(BalanceSheetMissing)
        case Some(report) =>
          match report.bs
          case None => Failure(BalanceSheetMissing)
          case Some(bs) =>
            Success(Figures(ItemValue(bs, StockholdersEquityConcept), ItemValue(bs, AssetsConcept)))
  }

  /** Equity as a percentage of assets, present only when both figures are truthy. */
  function EquityRatio(f: Figures): (r: Option<real>)
    ensures r.Some? <==> Truthy(f.totalEquity) && Truthy(f.totalAssets)
    ensures r.Some? ==> r.value * f.totalAssets.value == f.totalEquity.value * 100.0
  {
    if Truthy(f.totalAssets) && Truthy(f.totalEquity)
    then Some(f.totalEquity.value / f.totalAssets.value * 100.0)
    else None
  }

  /** The market capitalisation converted from millions, missing unless the profile
      reports a truthy figure. */
  function MarketCap(profile: Profile): (r: Option<real>)
    ensures r.Some? <==> Truthy(profile.marketCapitalization)
    ensures r.Some? ==> r.value / 1000000.0 == profile.marketCapitalization.value
  {
    if Truthy(profile.marketCapitalization)
    then Some(profile.marketCapitalization.value * 1000000.0)
    else None
  }

  /** A failed quote request reads as an empty quote. */
  function QuoteOf(r: Responses): (q: Quote)
    ensures r.quote.Some? ==> q == r.quote.value
    ensures r.quote.None? ==> q.c.None?
  {
    match r.quote
    case Some(q) => q
    case None => Quote(None)
  }

  /** A failed metrics request reads as an empty metrics record. */
  function MetricsOf(r: Responses): (m: Metrics)
    ensures r.metrics.Some? ==> m == r.metrics.value
    ensures r.metrics.None? ==>
      m.peNormalizedAnnual.None? && m.operatingMarginTTM.None? && m.roeTTM.None?
      && m.revenueGrowthQuarterlyYoy.None? && m.epsGrowthTTMYoy.None?
      && m.priceReturn26Week.None? && m.priceReturn52Week.None?
      && m.returnStd3Month.None? && m.beta.None? && m.movingAverage50Day.None?
  {
    match r.metrics
    case Some(m) => m
    case None => Metrics(None, None, None, None, None, None, None, None, None, None)
  }

  /** A failed profile request reads as an empty profile. */
  function ProfileOf(r: Responses): (p: Profile)
    ensures r.profile.Some? ==> p == r.profile.value
    ensures r.profile.None? ==> p.marketCapitalization.None?
  {
    match r.profile
    case Some(p) => p
    case None => Profile(None)
  }

  /** A failed recommendations request reads as an empty list. */
  function RecommendationsOf(r: Responses): (rs: seq<Recommendation>)
    ensures r.recommendations.Some? ==> rs == r.recommendations.value
    ensures r.recommendations.None? ==> rs == []
  {
    match r.recommendations
    case Some(rs) => rs
    case None => []
  }

  /** The current price; 0 when the quote has none. */
  function CurrentPrice(r: Responses): (price: real)
    ensures r.quote.Some? && r.quote.value.c.Some? ==> price == r.quote.value.c.value
    ensures r.quote.None? || r.quote.value.c.None? ==> price == 0.0
  {
    LogAndFallback(QuoteOf(r).c, 0.0)
  }

  /** The most recent entry of the moving-average series, when there is one. */
  function LatestSma(sma: Option<seq<real>>): (latest: Option<real>)
    ensures latest.Some? <==> sma.Some? && |sma.value| > 0
    ensures latest.Some? ==> latest.value == sma.value[0]
  {
    if sma.Some? && |sma.value| > 0 then Some(sma.value[0]) else None
  }

  /** The 50-day moving average: the series' latest entry, otherwise the bulk metric,
      otherwise the current price. */
  function MovingAverage50d(r: Responses): (ma: real)
    ensures r.sma.Some? && |r.sma.value| > 0 ==> ma == r.sma.value[0]
    ensures (r.sma.None? || r.sma.value == []) && MetricsOf(r).movingAverage50Day.Some?
            ==> ma == MetricsOf(r).movingAverage50Day.value
    ensures (r.sma.None? || r.sma.value == []) && MetricsOf(r).movingAverage50Day.None?
            ==> ma == CurrentPrice(r)
  {
    var candidate := if LatestSma(r.sma).Some? then LatestSma(r.sma) else MetricsOf(r).movingAverage50Day;
    LogAndFallback(candidate, CurrentPrice(r))
  }

  /** The distance of the price from its moving average, in percent of the average. */
  function DistanceFromMA(price: real, ma: real): (d: real)
    requires ma != 0.0
    ensures d * ma == (price - ma) * 100.0
    ensures price == ma ==> d == 0.0
    ensures ma > 0.0 ==> (d > 0.0 <==> price > ma) && (d < 0.0 <==> price < ma)
  {
    (price - ma) / ma * 100.0
  }

  /** The analyst rating of the first (most recent) recommendation. */
  function AnalystRating(recommendations: seq<Recommendation>): (rating: Option<real>)
    ensures |recommendations| > 0 ==> rating == recommendations[0].rating
    ensures recommendations == [] ==> rating.None?
  {
    if |recommendations| > 0 then recommendations[0].rating else None
  }

  /** The normaliser: provider responses to the thirteen inputs of the rule table. */
  function Normalise(r: Responses): (out: Result<NormalizedInputs, Cause>)
    requires MovingAverage50d(r) != 0.0
    ensures out.Failure? <==> FirstFilingLacksBalanceSheet(r.financials)
    ensures out.Failure? ==> out.error == BalanceSheetMissing
    ensures out.Success? ==>
      out.value.distanceFromMA == Some(DistanceFromMA(CurrentPrice(r), MovingAverage50d(r)))
    ensures out.Success? ==>
      var m := MetricsOf(r);
      && out.value.peRatio == m.peNormalizedAnnual
      && out.value.ebitMargin == m.operatingMarginTTM
      && out.value.returnOnEquity == m.roeTTM
      && out.value.quarterReaction == m.revenueGrowthQuarterlyYoy
      && out.value.earningsRevision == m.epsGrowthTTMYoy
      && out.value.momentum6m == m.priceReturn26Week
      && out.value.momentum12m == m.priceReturn52Week
      && out.value.volatility == m.returnStd3Month
      && out.value.beta == m.beta
  {
    var metrics := MetricsOf(r);
    var price := CurrentPrice(r);
    var distance := DistanceFromMA(price, MovingAverage50d(r));
    match BalanceSheetFigures(r.financials)
    case Failure(e) => Failure(e)
    case Success(figures) =>
      Success(NormalizedInputs(
        metrics.peNormalizedAnnual,
        metrics.operatingMarginTTM,
        metrics.roeTTM,
        EquityRatio(figures),
        metrics.revenueGrowthQuarterlyYoy,
        metrics.epsGrowthTTMYoy,
        AnalystRating(RecommendationsOf(r)),
        metrics.priceReturn26Week,
        metrics.priceReturn52Week,
        Some(distance),
        metrics.returnStd3Month,
        metrics.beta,
        MarketCap(ProfileOf(r))))
  }

  /** Acquisition as a whole: resolve the symbol, then normalise the responses. */
  function Fetch(search: Option<seq<SearchItem>>, r: Responses): (out: Result<NormalizedInputs, Cause>)
    requires ResolveSymbol(search).Success? ==> MovingAverage50d(r) != 0.0
    ensures out.Success? <==> ResolveSymbol(search).Success? && !FirstFilingLacksBalanceSheet(r.financials)
    ensures ResolveSymbol(search).Success? ==> out == Normalise(r)
    ensures ResolveSymbol(search).Failure? ==> out == Failure(ResolveSymbol(search).error)
  {
    match ResolveSymbol(search)
    case Failure(e) => Failure(e)
    case Success(_) => Normalise(r)
  }

  /** `fetchStockData` step by step: the same local reassignments and early exits. */
  method FetchStockData(search: Option<seq<SearchItem>>, r: Responses)
    returns (data: Result<NormalizedInputs, Cause>)
    requires ResolveSymbol(search).Success? ==> MovingAverage50d(r) != 0.0
    ensures data == Fetch(search, r)
  {
    var resolved := ResolveSymbol(search);
    if resolved.Failure? {
      return Failure(resolved.error);
    }

    var quote := QuoteOf(r);
    var metrics := MetricsOf(r);
    var profile := ProfileOf(r);
    var recommendations := RecommendationsOf(r);

    var currentPrice := LogAndFallback(quote.c, 0.0);

    var movingAverage50d := metrics.movingAverage50Day;
    if r.sma.Some? && |r.sma.value| > 0 {
      movingAverage50d := Some(r.sma.value[0]);
    }
    var movingAverage := LogAndFallback(movingAverage50d, currentPrice);
    assert movingAverage == MovingAverage50d(r);
    var distanceFromMA := (currentPrice - movingAverage) / movingAverage * 100.0;

    var totalEquity: Option<real> := None;
    var totalAssets: Option<real> := None;
    if r.financials.Some? && |r.financials.value| > 0 {
      var first := r.financials.value[0];
      if first.report.None? || first.report.value.bs.None? {
        return Failure(BalanceSheetMissing);
      }
      var bs := first.report.value.bs.value;
      var equityAt := FindIndex(bs, (item: LineItem) => item.concept == StockholdersEquityConcept);
      var assetsAt := FindIndex(bs, (item: LineItem) => item.concept == AssetsConcept);
      totalEquity := if equityAt.Some? then bs[equityAt.value].value else None;
      totalAssets := if assetsAt.Some? then bs[assetsAt.value].value else None;
    }

    assert BalanceSheetFigures(r.financials) == Success(Figures(totalEquity, totalAssets));
    var equityRatio: Option<real> := None;
    if totalAssets.Some? && totalAssets.value != 0.0 && totalEquity.Some? && totalEquity.value != 0.0 {
      equityRatio := Some(totalEquity.value / totalAssets.value * 100.0);
    }
    var marketCap: Option<real> := None;
    if profile.marketCapitalization.Some? && profile.marketCapitalization.value != 0.0 {
      marketCap := Some(profile.marketCapitalization.value * 1000000.0);
    }

    data := Success(NormalizedInputs(
      metrics.peNormalizedAnnual,
      metrics.operatingMarginTTM,
      metrics.roeTTM,
      equityRatio,
      metrics.revenueGrowthQuarterlyYoy,
      metrics.epsGrowthTTMYoy,
      if |recommendations| > 0 then recommendations[0].rating else None,
      metrics.priceReturn26Week,
      metrics.priceReturn52Week,
      Some(distanceFromMA),
      metrics.returnStd3Month,
      metrics.beta,
      marketCap));
    assert data == Normalise(r);
  }

  /** When no moving average is available it falls back to the price, and a non-zero
      price then lies exactly on its average: distance 0, rule score 0. */
  lemma FallbackDistanceIsZero(r: Responses)
    requires r.sma.None? || r.sma.value == []
    requires MetricsOf(r).movingAverage50Day.None?
    requires CurrentPrice(r) != 0.0
    requires !FirstFilingLacksBalanceSheet(r.financials)
    ensures Normalise(r).Success?
    ensures Normalise(r).value.distanceFromMA == Some(0.0)
    ensures EvaluateMovingAverage(Normalise(r).value.distanceFromMA) == 0
  {
  }

  /** The equity ratio is present exactly when the first filing's balance sheet yields
      truthy equity and assets (the first items with those concepts), and is then
      equity over assets in percent. */
  lemma NormalisedEquityRatio(r: Responses)
    requires MovingAverage50d(r) != 0.0
    requires Normalise(r).Success?
    ensures var ratio := Normalise(r).value.equityRatio;
      ratio.Some? <==>
        (r.financials.Some? && |r.financials.value| > 0
         && var bs := r.financials.value[0].report.value.bs.value;
            Truthy(ItemValue(bs, StockholdersEquityConcept)) && Truthy(ItemValue(bs, AssetsConcept)))
    ensures var ratio := Normalise(r).value.equityRatio;
      ratio.Some? ==>
        var bs := r.financials.value[0].report.value.bs.value;
        ratio.value * ItemValue(bs, AssetsConcept).value == ItemValue(bs, StockholdersEquityConcept).value * 100.0
  {
  }

  /** The market cap is the profile's figure times one million when that figure is
      present and non-zero; a failed profile request leaves it missing. */
  lemma NormalisedMarketCap(r: Responses)
    requires MovingAverage50d(r) != 0.0
    requires Normalise(r).Success?
    ensures var cap := Normalise(r).value.marketCap;
      cap.Some? <==> r.profile.Some? && Truthy(r.profile.value.marketCapitalization)
    ensures var cap := Normalise(r).value.marketCap;
      cap.Some? ==> cap.value == r.profile.value.marketCapitalization.value * 1000000.0
  {
  }

  /** The presence rules differ: a profile reporting a market cap of 0 yields a missing
      market cap, which scores the fallback's 0, whereas a normalised market cap of 0
      would be taken as a value and score -1. */
  lemma ZeroMarketCapIsMissing(r: Responses)
    requires MovingAverage50d(r) != 0.0
    requires r.profile == Some(Profile(Some(0.0)))
    requires Normalise(r).Success?
    ensures Normalise(r).value.marketCap.None?
    ensures EvaluateMarketCap(Normalise(r).value.marketCap) == 0
    ensures EvaluateMarketCap(Some(0.0)) == -1
  {
  }

  /** The analyst rating is the rating of the first recommendation, if any. */
  lemma NormalisedAnalystRating(r: Responses)
    requires MovingAverage50d(r) != 0.0
    requires Normalise(r).Success?
    ensures r.recommendations.Some? && |r.recommendations.value| > 0 ==>
      Normalise(r).value.analystRating == r.recommendations.value[0].rating
    ensures r.recommendations.None? || r.recommendations.value == [] ==>
      Normalise(r).value.analystRating.None?
  {
  }
}
