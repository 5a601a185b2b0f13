/**
 * The tools the agent may call: stock data for several symbols, performance
 * indicators for one symbol, and news documents from the vector store. The
 * market-data provider and the vector store are function-typed parameters;
 * the numeric series the indicators are computed from are given as already
 * computed values, with `None` standing for an undefined (NaN) value.
 */
module Tools {
  import opened Wrappers

  /** A value the provider reports; `Null` stands for Python's None. */
  datatype Value = Null | Number(x: real) | Text(s: string)

  /** The periods a tool accepts, with their provider codes. */
  datatype Period = OneDay | FiveDays | OneMonth | ThreeMonths | SixMonths
                  | OneYear | TwoYears | FiveYears | TenYears | YearToDate | Max

  const DefaultPeriod: Period := OneMonth

  function Code(p: Period): string
  {
    match p
    case OneDay => "1d"
    case FiveDays => "5d"
    case OneMonth => "1mo"
    case ThreeMonths => "3mo"
    case SixMonths => "6mo"
    case OneYear => "1y"
    case TwoYears => "2y"
    case FiveYears => "5y"
    case TenYears => "10y"
    case YearToDate => "ytd"
    case Max => "max"
  }

  /** Different periods are requested under different codes, and the default is one month. */
  lemma CodesDistinct(p: Period, q: Period)
    ensures Code(p) == Code(q) ==> p == q
    ensures Code(DefaultPeriod) == "1mo"
  {
  }

  /** One row of a price history. */
  datatype Bar = Bar(open: real, high: real, low: real, close: real, volume: real)

  /** The market-data provider: the history of a symbol over a period (empty
      for an unknown symbol) and the symbol's info dictionary. */
  datatype Market = Market(history: (string, Period) -> seq<Bar>, info: string -> map<string, Value>)

  /** The exception the tools raise. */
  datatype ToolError = ValueError(message: string)

  // ---------------------------------------------------------------------------
  // retrieve_stocks_data
  // ---------------------------------------------------------------------------

  const NoSymbolsMessage: string := "No stock symbols were found"
  const InvalidSymbolMessage: string := "Invalid stock symbol"

  /** The ten info keys a stock's summary reports. */
  const EssentialKeys: set<string> :=
    {"currentPrice", "marketCap", "trailingPE", "forwardPE", "beta",
     "dividendYield", "profitMargins", "revenueGrowth", "recommendationKey", "targetMeanPrice"}

  /** `dict.get`: the value under `k`, or None when there is none. */
  function Get(info: map<string, Value>, k: string): Value
  {
    if k in info then info[k] else Null
  }

  /** The projection of a provider's info onto the essential keys. */
  function EssentialInfo(info: map<string, Value>): (r: map<string, Value>)
    ensures r.Keys == EssentialKeys
    ensures forall k :: k in r ==> (k in info ==> r[k] == info[k]) && (k !in info ==> r[k] == Null)
  {
    map k | k in EssentialKeys :: Get(info, k)
  }

  /** The projection has exactly ten entries, whatever the provider reports. */
  lemma EssentialInfoHasTenKeys(info: map<string, Value>)
    ensures |EssentialInfo(info)| == 10
  {
    var keys := ["currentPrice", "marketCap", "trailingPE", "forwardPE", "beta",
                 "dividendYield", "profitMargins", "revenueGrowth", "recommendationKey", "targetMeanPrice"];
    assert forall i, j :: 0 <= i < j < |keys| ==> keys[i] != keys[j];
    DistinctCardinality(keys);
    assert EssentialKeys == set k | k in keys;
    assert |EssentialInfo(info).Keys| == 10;
  }

  /** The set of a sequence without repetitions has as many elements as the sequence. */
  lemma {:induction false} DistinctCardinality<T>(xs: seq<T>)
    requires forall i, j :: 0 <= i < j < |xs| ==> xs[i] != xs[j]
    ensures |set x | x in xs| == |xs|
  {
    if xs != [] {
      var rest := xs[1..];
      DistinctCardinality(rest);
      assert (set x | x in xs) == {xs[0]} + (set x | x in rest);
      assert xs[0] !in rest;
    }
  }

  /** What the tool reports per symbol: the summary of its history and its essential info. */
  datatype StockData<S> = StockData(historicalData: S, stockInfo: map<string, Value>)

  const SummaryErrorPrefix: string := "Error generating stock summary: "

  /** What `retrieve_stocks_data` makes of one symbol: "Invalid stock symbol" for
      an empty history; otherwise the summary of the history, where a failure of
      the summarizer with text `e` becomes "Error generating stock summary: e";
      otherwise the summary and the essential info. */
  function Fetch<S>(symbol: string, period: Period, market: Market, summarize: seq<Bar> -> Result<S, string>)
    : (r: Result<StockData<S>, ToolError>)
    ensures r.Success? <==> market.history(symbol, period) != [] && summarize(market.history(symbol, period)).Success?
    ensures market.history(symbol, period) == [] ==> r == Failure(ValueError(InvalidSymbolMessage))
    ensures market.history(symbol, period) != [] && summarize(market.history(symbol, period)).Failure? ==>
              r == Failure(ValueError(SummaryErrorPrefix + summarize(market.history(symbol, period)).error))
    ensures r.Success? ==>
              && Success(r.value.historicalData) == summarize(market.history(symbol, period))
              && r.value.stockInfo == EssentialInfo(market.info(symbol))
  {
    var hist := market.history(symbol, period);
    if hist == [] then Failure(ValueError(InvalidSymbolMessage))
    else
      match summarize(hist)
      case Failure(e) => Failure(ValueError(SummaryErrorPrefix + e))
      case Success(summary) => Success(StockData(summary, EssentialInfo(market.info(symbol))))
  }

  /** The two per-symbol failures are told apart by their message. */
  lemma FetchErrorsDistinct<S>(symbol: string, period: Period, market: Market, summarize: seq<Bar> -> Result<S, string>)
    ensures var r := Fetch(symbol, period, market, summarize);
      r.Failure? ==> (r.error.message == InvalidSymbolMessage <==> market.history(symbol, period) == [])
  {
    var r := Fetch(symbol, period, market, summarize);
    if r.Failure? && market.history(symbol, period) != [] {
      assert r.error.message[0] == SummaryErrorPrefix[0];
      assert InvalidSymbolMessage[0] != SummaryErrorPrefix[0];
    }
  }

  /** One pass of the loop body of `retrieve_stocks_data`: the history is fetched
      and checked, then the essential info is taken and the history summarized. */
  method FetchSymbol<S>(symbol: string, period: Period, market: Market, summarize: seq<Bar> -> Result<S, string>)
    returns (r: Result<StockData<S>, ToolError>)
    ensures r == Fetch(symbol, period, market, summarize)
  {
    var hist := market.history(symbol, period);
    if hist == [] {
      return Failure(ValueError(InvalidSymbolMessage));
    }
    var info := EssentialInfo(market.info(symbol));
    var summary := summarize(hist);
    if summary.Failure? {
      return Failure(ValueError(SummaryErrorPrefix + summary.error));
    }
    return Success(StockData(summary.value, info));
  }

  /** Fetches every symbol in order, failing at the first symbol without a usable
      history. `fetched` lists the symbols whose history was requested. */
  method RetrieveStocksData<S>(symbols: seq<string>, period: Period, market: Market,
                               summarize: seq<Bar> -> Result<S, string>)
    returns (r: Result<map<string, StockData<S>>, ToolError>, ghost fetched: seq<string>)
    ensures symbols == [] ==> r == Failure(ValueError(NoSymbolsMessage)) && fetched == []
    ensures r.Success? <==>
              symbols != [] && forall i :: 0 <= i < |symbols| ==> Fetch(symbols[i], period, market, summarize).Success?
    ensures r.Failure? && symbols != [] ==>
              exists i :: 0 <= i < |symbols| && fetched == symbols[..i + 1]
                && Fetch(symbols[i], period, market, summarize) == Failure(r.error)
                && forall j :: 0 <= j < i ==> Fetch(symbols[j], period, market, summarize).Success?
    ensures r.Success? ==>
              && r.value.Keys == (set x | x in symbols)
              && (forall x :: x in r.value ==> Fetch(x, period, market, summarize) == Success(r.value[x]))
              && fetched == symbols
  {
    if symbols == [] {
      return Failure(ValueError(NoSymbolsMessage)), [];
    }
    var results: map<string, StockData<S>> := map[];
    fetched := [];
    var i := 0;
    while i < |symbols|
      invariant 0 <= i <= |symbols|
      invariant fetched == symbols[..i]
      invariant forall j :: 0 <= j < i ==> Fetch(symbols[j], period, market, summarize).Success?
      invariant results.Keys == (set x | x in symbols[..i])
      invariant forall x :: x in results ==> Fetch(x, period, market, summarize) == Success(results[x])
    {
      var symbol := symbols[i];
      var one := FetchSymbol(symbol, period, market, summarize);
      fetched := fetched + [symbol];
      if one.Failure? {
        assert fetched == symbols[..i + 1];
        return Failure(one.error), fetched;
      }
      results := results[symbol := one.value];
      assert symbols[..i + 1] == symbols[..i] + [symbol];
      i := i + 1;
    }
    assert symbols[..i] == symbols;
    return Success(results), fetched;
  }

  // ---------------------------------------------------------------------------
  // retreive_stock_indicators_for_single_stock
  // ---------------------------------------------------------------------------

  const NoSymbolMessage: string := "No stock symbol provided."
  const InvalidSymbolPrefix: string := "Invalid stock symbol: "

  /** The last values of the series the indicators are computed from; `None`
      is an undefined value (NaN), as the 20- and 50-row averages are on a
      history shorter than their window. */
  datatype Signals = Signals(
    sma20: Option<real>,
    sma50: Option<real>,
    rsi: Option<real>,
    meanVolumeChange: Option<real>,
    meanCloseChange5: Option<real>)

  datatype Indicators = Indicators(
    trend: string,
    rsi: Option<real>,
    support: real,
    resistance: real,
    volumeTrend: string,
    momentum: string)

  /** Python's `>` on floats: false as soon as either side is NaN. */
  predicate Greater(a: Option<real>, b: Option<real>)
  {
    a.Some? && b.Some? && a.value > b.value
  }

  /** The smallest element of a non-empty sequence. */
  function Lowest(xs: seq<real>): (r: real)
    requires xs != []
    ensures r in xs
    ensures forall i :: 0 <= i < |xs| ==> r <= xs[i]
  {
    if |xs| == 1 then xs[0]
    else
      var rest := Lowest(xs[1..]);
      if xs[0] <= rest then xs[0] else rest
  }

  /** The largest element of a non-empty sequence. */
  function Highest(xs: seq<real>): (r: real)
    requires xs != []
    ensures r in xs
    ensures forall i :: 0 <= i < |xs| ==> xs[i] <= r
  {
    if |xs| == 1 then xs[0]
    else
      var rest := Highest(xs[1..]);
      if xs[0] >= rest then xs[0] else rest
  }

  function Lows(h: seq<Bar>): (r: seq<real>)
    ensures |r| == |h| && forall i :: 0 <= i < |h| ==> r[i] == h[i].low
  {
    seq(|h|, i requires 0 <= i < |h| => h[i].low)
  }

  function Highs(h: seq<Bar>): (r: seq<real>)
    ensures |r| == |h| && forall i :: 0 <= i < |h| ==> r[i] == h[i].high
  {
    seq(|h|, i requires 0 <= i < |h| => h[i].high)
  }

  /** The indicators of one symbol: the symbol is checked before anything is
      fetched, an empty history is an invalid symbol, and otherwise each label
      is the first one exactly when its strict comparison holds. */
  function RetrieveStockIndicators(symbol: string, period: Period, market: Market, signals: seq<Bar> -> Signals)
    : (r: Result<Indicators, ToolError>)
    ensures r == Failure(ValueError(NoSymbolMessage)) <==> symbol == []
    ensures r == Failure(ValueError(InvalidSymbolPrefix + symbol)) <==>
              symbol != [] && market.history(symbol, period) == []
    ensures r.Success? <==> symbol != [] && market.history(symbol, period) != []
    ensures r.Success? ==>
              var h := market.history(symbol, period);
              var sig := signals(h);
              && (r.value.trend == "bullish" <==> Greater(sig.sma20, sig.sma50))
              && (r.value.trend == "bearish" <==> !Greater(sig.sma20, sig.sma50))
              && (r.value.volumeTrend == "increasing" <==> Greater(sig.meanVolumeChange, Some(0.0)))
              && (r.value.volumeTrend == "decreasing" <==> !Greater(sig.meanVolumeChange, Some(0.0)))
              && (r.value.momentum == "positive" <==> Greater(sig.meanCloseChange5, Some(0.0)))
              && (r.value.momentum == "negative" <==> !Greater(sig.meanCloseChange5, Some(0.0)))
              && r.value.rsi == sig.rsi
  {
    if symbol == [] then Failure(ValueError(NoSymbolMessage))
    else
      var h := market.history(symbol, period);
      if h == [] then
        assert (InvalidSymbolPrefix + symbol)[0] != NoSymbolMessage[0];
        Failure(ValueError(InvalidSymbolPrefix + symbol))
      else
        var sig := signals(h);
        Success(Indicators(
          if Greater(sig.sma20, sig.sma50) then "bullish" else "bearish",
          sig.rsi,
          Lowest(Lows(h)),
          Highest(Highs(h)),
          if Greater(sig.meanVolumeChange, Some(0.0)) then "increasing" else "decreasing",
          if Greater(sig.meanCloseChange5, Some(0.0)) then "positive" else "negative"))
  }

  /** Support is the lowest Low and resistance the highest High of the history. */
  lemma SupportAndResistance(symbol: string, period: Period, market: Market, signals: seq<Bar> -> Signals)
    ensures var r := RetrieveStockIndicators(symbol, period, market, signals);
      r.Success? ==>
        var h := market.history(symbol, period);
        && (forall i :: 0 <= i < |h| ==> r.value.support <= h[i].low && h[i].high <= r.value.resistance)
        && (exists i :: 0 <= i < |h| && r.value.support == h[i].low)
        && (exists j :: 0 <= j < |h| && r.value.resistance == h[j].high)
  {
    var r := RetrieveStockIndicators(symbol, period, market, signals);
    if r.Success? {
      var h := market.history(symbol, period);
      var lows, highs := Lows(h), Highs(h);
      assert r.value.support == Lowest(lows) && r.value.resistance == Highest(highs);
      var i :| 0 <= i < |lows| && lows[i] == r.value.support;
      var j :| 0 <= j < |highs| && highs[j] == r.value.resistance;
      assert h[i].low == r.value.support && h[j].high == r.value.resistance;
    }
  }

  /** A bar whose low, open, close and high are in that price order. */
  predicate WellFormed(b: Bar)
  {
    b.low <= b.open <= b.high && b.low <= b.close <= b.high
  }

  /** On well-formed bars every close lies between support and resistance. */
  lemma ClosesWithinRange(symbol: string, period: Period, market: Market, signals: seq<Bar> -> Signals)
    requires forall b :: b in market.history(symbol, period) ==> WellFormed(b)
    ensures var r := RetrieveStockIndicators(symbol, period, market, signals);
      r.Success? ==>
        && r.value.support <= r.value.resistance
        && forall b :: b in market.history(symbol, period) ==> r.value.support <= b.close <= r.value.resistance
  {
    SupportAndResistance(symbol, period, market, signals);
    var h := market.history(symbol, period);
    forall b | b in h
      ensures RetrieveStockIndicators(symbol, period, market, signals).Success? ==>
        var r := RetrieveStockIndicators(symbol, period, market, signals);
        r.value.support <= b.close <= r.value.resistance
    {
      var i :| 0 <= i < |h| && h[i] == b;
    }
    if RetrieveStockIndicators(symbol, period, market, signals).Success? {
      assert h[0] in h;
    }
  }

  /** An undefined average (a history shorter than the window) always gives the
      second label. */
  lemma UndefinedGivesSecondLabel(symbol: string, period: Period, market: Market, signals: seq<Bar> -> Signals)
    ensures var r := RetrieveStockIndicators(symbol, period, market, signals);
      var sig := signals(market.history(symbol, period));
      r.Success? ==>
        && (sig.sma20.None? || sig.sma50.None? ==> r.value.trend == "bearish")
        && (sig.meanVolumeChange.None? ==> r.value.volumeTrend == "decreasing")
        && (sig.meanCloseChange5.None? ==> r.value.momentum == "negative")
  {
  }

  // ---------------------------------------------------------------------------
  // retrieve_news_data
  // ---------------------------------------------------------------------------

  datatype Document = Document(pageContent: string, metadata: map<string, Value>)

  /** A retriever query: the search type and its `k` / `fetch_k` parameters. */
  datatype SearchRequest = SearchRequest(query: string, searchType: string, k: nat, fetchK: nat)

  /** The news query: maximal-marginal-relevance search keeping 4 of 10 candidates. */
  function NewsSearch(query: string): (q: SearchRequest)
    ensures q.query == query && q.searchType == "mmr" && q.k == 4 && q.fetchK == 10
  {
    SearchRequest(query, "mmr", 4, 10)
  }

  const EmbeddingKey: string := "embedding"

  /** The metadata without its embedding, every other entry unchanged. */
  function WithoutEmbedding(m: map<string, Value>): (r: map<string, Value>)
    ensures r.Keys == m.Keys - {EmbeddingKey}
    ensures forall k :: k in r ==> r[k] == m[k]
  {
    map k | k in m && k != EmbeddingKey :: m[k]
  }

  /** Dropping the embedding twice is dropping it once, and metadata without one is kept as is. */
  lemma WithoutEmbeddingIdempotent(m: map<string, Value>)
    ensures WithoutEmbedding(WithoutEmbedding(m)) == WithoutEmbedding(m)
    ensures EmbeddingKey !in m ==> WithoutEmbedding(m) == m
    ensures EmbeddingKey !in WithoutEmbedding(m)
  {
  }

  /** Retrieves the documents for a query; any failure of the store or the
      search gives the empty list, and otherwise each document is returned in
      order with its embedding dropped from the metadata. */
  method RetrieveNewsData(request: string, search: SearchRequest -> Result<seq<Document>, string>)
    returns (r: seq<Document>)
    ensures search(NewsSearch(request)).Failure? ==> r == []
    ensures search(NewsSearch(request)).Success? ==>
              var docs := search(NewsSearch(request)).value;
              && |r| == |docs|
              && forall i :: 0 <= i < |docs| ==>
                   r[i].pageContent == docs[i].pageContent && r[i].metadata == WithoutEmbedding(docs[i].metadata)
  {
    var found := search(NewsSearch(request));
    if found.Failure? {
      return [];
    }
    var documents := found.value;
    var kept: seq<Document> := [];
    for i := 0 to |documents|
      invariant |kept| == i
      invariant forall j :: 0 <= j < i ==>
                  kept[j].pageContent == documents[j].pageContent
                  && kept[j].metadata == WithoutEmbedding(documents[j].metadata)
    {
      var doc := documents[i];
      kept := kept + [Document(doc.pageContent, WithoutEmbedding(doc.metadata))];
    }
    return kept;
  }
}
