/** The four nodes of the agent's graph. Each reads the state and returns the keys it sets; the
    language model and the fetchers they call are given as the outcome of that call. */
module Nodes {
  import opened Outcomes
  import opened Strings
  import opened JsonValues
  import opened CoinGecko
  import opened AgentState

  const NoCoinDetail := "Could not identify cryptocurrency in query"

  /** `analyze_query`, given what the analyzer answered for the state's query. */
  function AnalyzeQuery(s: AgentState, analysis: Outcome<QueryAnalysis>): (r: Outcome<Update>)
    ensures r.Raise? <==> analysis.Raise? || analysis.value.coinId == ""
    ensures analysis.Return? && analysis.value.coinId == "" ==> r == Raise(HttpError(400, NoCoinDetail))
    ensures analysis.Raise? ==> r == Raise(analysis.exc)
    ensures r.Return? ==>
      var a := analysis.value;
      Merge(s, r.value) == s.(coinId := a.coinId, queryType := a.queryType, days := a.days, coinAttempts := [a.coinId])
  {
    var a :- analysis;
    if a.coinId == "" then Raise(HttpError(400, NoCoinDetail))
    else Return(NoUpdate.(coinId := Some(a.coinId), queryType := Some(a.queryType), days := Some(a.days),
                          coinAttempts := Some([a.coinId])))
  }

  /** The fetcher call `fetch_data` makes: the price for a price query, the market chart for the
      state's `days` otherwise. */
  function FetchRequestFor(s: AgentState): (req: Request)
    ensures req.coinId == s.coinId
    ensures req.PriceRequest? <==> s.queryType == Price
    ensures req.ChartRequest? ==> req.days == s.days
  {
    match s.queryType
    case Price => PriceRequest(s.coinId)
    case Historical => ChartRequest(s.coinId, s.days)
  }

  /** `fetch_data`, given what the fetcher returned for `FetchRequestFor(s)`. */
  function FetchData(s: AgentState, data: Outcome<Option<Json>>): (r: Outcome<Update>)
    ensures r.Raise? <==> data.Raise?
    ensures data.Raise? ==> r == Raise(data.exc)
    ensures data.Return? && Present(data.value) && s.queryType == Price ==>
      Merge(s, r.value) == s.(currentPrice := data.value)
    ensures data.Return? && Present(data.value) && s.queryType == Historical ==>
      Merge(s, r.value) == s.(historicalPrice := data.value)
    ensures data.Return? && !Present(data.value) ==>
      Merge(s, r.value) == s.(retryCount := s.retryCount + 1)
  {
    var d :- data;
    if Present(d) && s.queryType == Price then Return(NoUpdate.(currentPrice := d))
    else if Present(d) && s.queryType == Historical then Return(NoUpdate.(historicalPrice := d))
    else Return(NoUpdate.(retryCount := Some(s.retryCount + 1)))
  }

  /** `[attempt for attempt in attempts if attempt]`. */
  function ValidAttempts(attempts: seq<string>): (valid: seq<string>)
    ensures forall x :: x in valid <==> x in attempts && x != ""
    ensures |valid| <= |attempts|
    ensures "" !in attempts ==> valid == attempts
  {
    if attempts == [] then []
    else (if attempts[0] == "" then [] else [attempts[0]]) + ValidAttempts(attempts[1..])
  }

  /** The filter keeps order and duplicates: it works id by id, each kept exactly when
      non-empty, and the results of consecutive pieces are concatenated. */
  lemma ValidAttemptsSingle(x: string)
    ensures ValidAttempts([x]) == (if x == "" then [] else [x])
  {
    assert [x][1..] == [];
  }

  lemma {:induction false} ValidAttemptsAppend(a: seq<string>, b: seq<string>)
    ensures ValidAttempts(a + b) == ValidAttempts(a) + ValidAttempts(b)
  {
    if a == [] {
      assert a + b == b;
    } else {
      assert (a + b)[1..] == a[1..] + b;
      ValidAttemptsAppend(a[1..], b);
    }
  }

  /** What the reflector is shown: the query, the failed coin id, the retry count and the
      non-empty previous attempts joined by `", "`. */
  datatype ReflectRequest = ReflectRequest(query: string, coinId: string, attemptCount: int, previousAttempts: string)

  function ReflectRequestFor(s: AgentState): (req: ReflectRequest)
    ensures req.query == s.query && req.coinId == s.coinId && req.attemptCount == s.retryCount
    ensures req.previousAttempts == Join(ValidAttempts(s.coinAttempts), ", ")
    ensures s.coinAttempts == [s.coinId] && s.coinId != "" ==> req.previousAttempts == s.coinId
  {
    ReflectRequest(s.query, s.coinId, s.retryCount, Join(ValidAttempts(s.coinAttempts), ", "))
  }

  /** The reflector gives up: it judged the attempts sufficient or offered no refined id. */
  predicate GivesUp(c: CryptoReflection)
  {
    c.sufficient || c.refinedCoinId == ""
  }

  /** `reflect_on_coin`, given the reflector's verdict on `ReflectRequestFor(s)`. */
  function ReflectOnCoin(s: AgentState, reflection: Outcome<CryptoReflection>): (r: Outcome<Update>)
    ensures r.Raise? <==> reflection.Raise?
    ensures reflection.Raise? ==> r == Raise(reflection.exc)
    ensures reflection.Return? && GivesUp(reflection.value) ==> Merge(s, r.value) == s.(retryCount := 3)
    ensures reflection.Return? && !GivesUp(reflection.value) ==>
      var refined := reflection.value.refinedCoinId;
      && Merge(s, r.value) == s.(coinId := refined, coinAttempts := ValidAttempts(s.coinAttempts) + [refined])
      && "" !in Merge(s, r.value).coinAttempts
  {
    var c :- reflection;
    if c.sufficient then Return(NoUpdate.(retryCount := Some(3)))
    else if c.refinedCoinId == "" then Return(NoUpdate.(retryCount := Some(3)))
    else Return(NoUpdate.(coinId := Some(c.refinedCoinId),
                          coinAttempts := Some(ValidAttempts(s.coinAttempts) + [c.refinedCoinId])))
  }

  /** The facts `format_response` hands the formatter. Python's `0` default is the number zero. */
  datatype FormatContext =
    | PriceContext(query: string, coin: string, price: Json, change24h: Json, marketCap: Json)
    | HistoricalContext(query: string, coin: string, days: Option<int>, dataPoints: int, start: Json, end: Json)

  /** The price context, or the `KeyError`/`TypeError` building it raises: the payload must map
      the coin id to a dict with a `usd` entry. */
  function PriceContextFor(s: AgentState, payload: Json): (r: Outcome<FormatContext>)
    ensures r.Raise? ==> r.exc.Failure?
    ensures r.Return? <==>
      && payload.JObj? && s.coinId in payload.fields
      && payload.fields[s.coinId].JObj? && "usd" in payload.fields[s.coinId].fields
    ensures r.Return? ==>
      var quote := payload.fields[s.coinId].fields;
      && r.value.PriceContext? && r.value.query == s.query && r.value.coin == s.coinId
      && r.value.price == quote["usd"]
      && r.value.change24h == (if "usd_24h_change" in quote then quote["usd_24h_change"] else JNum(0.0))
      && r.value.marketCap == (if "usd_market_cap" in quote then quote["usd_market_cap"] else JNum(0.0))
  {
    var priceData :- Subscript(payload, s.coinId);
    var price :- Subscript(priceData, "usd");
    Return(PriceContext(s.query, s.coinId, price,
                        GetOr(priceData.fields, "usd_24h_change", JNum(0.0)),
                        GetOr(priceData.fields, "usd_market_cap", JNum(0.0))))
  }

  /** `prices[i][1]`. On a list it is the second element of the i-th point, counting a negative
      index from the end; on a string it always fails, since `prices[i]` is a single character. */
  function PointValue(prices: Json, i: int): (r: Outcome<Json>)
    ensures r.Raise? ==> r.exc.Failure?
    ensures r.Return? ==> prices.JArr? && -|prices.items| <= i < |prices.items|
    ensures prices.JArr? && 0 <= i < |prices.items| ==> r == At(prices.items[i], 1)
    ensures prices.JArr? && -|prices.items| <= i < 0 ==> r == At(prices.items[|prices.items| + i], 1)
  {
    var point :- At(prices, i);
    At(point, 1)
  }

  /** The historical context, or what building it raises: the payload needs a `prices` list
      whose first and last points have a second element. */
  function HistoricalContextFor(s: AgentState, payload: Json): (r: Outcome<FormatContext>)
    ensures r.Raise? ==> r.exc.Failure?
    ensures r.Return? <==>
      && payload.JObj? && "prices" in payload.fields && payload.fields["prices"].JArr?
      && var points := payload.fields["prices"].items;
         |points| > 0 && At(points[0], 1).Return? && At(points[|points| - 1], 1).Return?
    ensures r.Return? ==>
      && r.value.HistoricalContext? && r.value.dataPoints >= 0
      && r.value.query == s.query && r.value.coin == s.coinId && r.value.days == s.days
    ensures r.Return? && payload.fields["prices"].JArr? ==>
      var points := payload.fields["prices"].items;
      && |points| > 0
      && r.value.dataPoints == |points|
      && At(points[0], 1) == Return(r.value.start)
      && At(points[|points| - 1], 1) == Return(r.value.end)
  {
    var prices :- Subscript(payload, "prices");
    var dataPoints :- Length(prices);
    var start :- PointValue(prices, 0);
    var end :- PointValue(prices, -1);
    Return(HistoricalContext(s.query, s.coinId, s.days, dataPoints, start, end))
  }

  const FallbackSuffix := " attempts, please try different coin"

  /** The text `format_response` returns when no payload was found. */
  function FallbackMessage(coinId: string, retryCount: int): (r: string)
    ensures var p := "Could not fetch data for " + coinId + " after ";
            && |r| > |p| + |FallbackSuffix|
            && r[..|p|] == p && r[|r| - |FallbackSuffix|..] == FallbackSuffix
  {
    "Could not fetch data for " + coinId + " after " + Decimal(retryCount) + FallbackSuffix
  }

  /** For a given coin, the fallback text tells how many attempts were counted. */
  lemma FallbackCountsAttempts(coinId: string, n: int, m: int)
    requires FallbackMessage(coinId, n) == FallbackMessage(coinId, m)
    ensures n == m
  {
    var p := "Could not fetch data for " + coinId + " after ";
    var r := FallbackMessage(coinId, n);
    assert r == p + Decimal(n) + FallbackSuffix;
    assert Decimal(n) == r[|p|..|r| - |FallbackSuffix|];
    assert FallbackMessage(coinId, m) == p + Decimal(m) + FallbackSuffix;
    assert Decimal(m) == r[|p|..|r| - |FallbackSuffix|];
    DecimalInjective(n, m);
  }

  /** `format_response`, with the formatter's answer as a function of the context it is shown:
      the price branch wins over the historical one, and with neither payload the fallback text
      is returned without asking the formatter. */
  function FormatResponse(s: AgentState, formatter: FormatContext -> Outcome<string>): (r: Outcome<AgentOutput>)
    ensures Present(s.currentPrice) ==>
      var c := PriceContextFor(s, s.currentPrice.value);
      && (r.Return? <==> c.Return? && formatter(c.value).Return?)
      && (r.Return? ==> r.value == AgentOutput(formatter(c.value).value, s.currentPrice.value))
    ensures !Present(s.currentPrice) && Present(s.historicalPrice) ==>
      var c := HistoricalContextFor(s, s.historicalPrice.value);
      && (r.Return? <==> c.Return? && formatter(c.value).Return?)
      && (r.Return? ==> r.value == AgentOutput(formatter(c.value).value, s.historicalPrice.value))
    ensures !Present(s.currentPrice) && !Present(s.historicalPrice) ==>
      r == Return(AgentOutput(FallbackMessage(s.coinId, s.retryCount), JObj(map[])))
  {
    if Present(s.currentPrice) then
      var c :- PriceContextFor(s, s.currentPrice.value);
      var text :- formatter(c);
      Return(AgentOutput(text, s.currentPrice.value))
    else if Present(s.historicalPrice) then
      var c :- HistoricalContextFor(s, s.historicalPrice.value);
      var text :- formatter(c);
      Return(AgentOutput(text, s.historicalPrice.value))
    else
      Return(AgentOutput(FallbackMessage(s.coinId, s.retryCount), JObj(map[])))
  }
}
