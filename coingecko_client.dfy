/** The CoinGecko market-data API as the fetchers see it: a client whose two calls are recorded
    in order, and whose answers come from an oracle that may depend on the request and on how
    many calls were made before (the real service is remote, rate-limited and may change). */
module CoinGecko {
  import opened Outcomes
  import opened JsonValues

  /** `get_price(ids=coin_id, vs_currencies='usd', include_market_cap=True,
      include_24hr_change=True)` and `get_coin_market_chart_by_id(id=coin_id, vs_currency='usd',
      days=days)`; the fixed arguments are left implicit. */
  datatype Request =
    | PriceRequest(coinId: string)
    | ChartRequest(coinId: string, days: Option<int>)

  /** What a call gives back: the decoded response, or an exception with its `str(e)`. */
  datatype Reply = Answer(data: Json) | Error(message: string)

  class CoinGeckoApi {
    /** Every request sent so far, oldest first. */
    var calls: seq<Request>
    /** The answer to a request sent when `n` calls had been made before it. */
    const respond: (Request, nat) -> Reply

    constructor (respond: (Request, nat) -> Reply)
      ensures calls == [] && this.respond == respond
    {
      calls := [];
      this.respond := respond;
    }

    method GetPrice(coinId: string) returns (r: Reply)
      modifies this`calls
      ensures calls == old(calls) + [PriceRequest(coinId)]
      ensures r == respond(PriceRequest(coinId), |old(calls)|)
    {
      r := respond(PriceRequest(coinId), |calls|);
      calls := calls + [PriceRequest(coinId)];
    }

    method GetCoinMarketChartById(coinId: string, days: Option<int>) returns (r: Reply)
      modifies this`calls
      ensures calls == old(calls) + [ChartRequest(coinId, days)]
      ensures r == respond(ChartRequest(coinId, days), |old(calls)|)
    {
      r := respond(ChartRequest(coinId, days), |calls|);
      calls := calls + [ChartRequest(coinId, days)];
    }
  }
}
