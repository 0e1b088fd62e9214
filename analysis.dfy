/** The service's entry point: acquire the data for an ISIN, then score it. */
module Analysis {
  import opened Wrappers
  import opened Scoring
  import opened Acquisition

  /** `analyseStock`: a complete result once the symbol resolves (and the first
      filing, if any, has a balance sheet), otherwise the cause of the abort. */
  method AnalyseStock(isin: string, search: Option<seq<SearchItem>>, r: Responses)
    returns (res: Result<LevermannResult, Cause>)
    requires ResolveSymbol(search).Success? ==> MovingAverage50d(r) != 0.0
    ensures res.Success? <==> ResolveSymbol(search).Success? && !FirstFilingLacksBalanceSheet(r.financials)
    ensures res.Failure? ==> res.error == Fetch(search, r).error
    ensures res.Success? ==> res.value == Levermann(isin, Fetch(search, r).value)
    ensures res.Success? ==> res.value.isin == isin && -13 <= res.value.totalScore <= 13
  {
    var data := FetchStockData(search, r);
    if data.Failure? {
      return Failure(data.error);
    }
    res := Success(Levermann(isin, data.value));
  }

  /** An analysis whose search yields no symbol-bearing entry always aborts. */
  lemma UnresolvedSymbolIsFatal(search: Option<seq<SearchItem>>, r: Responses)
    requires search.Some?
    requires forall i :: 0 <= i < |search.value| ==> !HasSymbol(search.value[i])
    ensures Fetch(search, r) == Failure(SymbolNotFound)
  {
  }

  /** The first entry with a non-empty symbol is picked; entries without a symbol or
      with an empty one are passed over. */
  lemma FirstNonEmptySymbolResolves()
    ensures ResolveSymbol(Some([SearchItem(None), SearchItem(Some("")), SearchItem(Some("X")),
                                SearchItem(Some("Y"))])) == Success("X")
  {
  }

  /** A failed profile request does not prevent a result: the market cap goes missing
      and its rule scores the fallback's 0. */
  lemma ProfileOutageStillScores(isin: string, search: Option<seq<SearchItem>>, r: Responses)
    requires ResolveSymbol(search).Success?
    requires MovingAverage50d(r) != 0.0
    requires !FirstFilingLacksBalanceSheet(r.financials)
    requires r.profile.None?
    ensures Fetch(search, r).Success?
    ensures Fetch(search, r).value.marketCap.None?
    ensures ScoreInputs(Fetch(search, r).value).marketCapitalization == 0
  {
  }
}
