/** The CoinGecko microservice's two endpoints: the same read-through cache as the agent's
    fetcher, but the whole body sits in one `try` whose `except Exception` re-raises every error
    as a 500, including the 404 the body raises for an empty upstream answer. */
module CoinService {
  import opened Outcomes
  import opened Strings
  import opened JsonValues
  import opened CoinGecko
  import opened CacheKeys
  import opened Redis
  import opened AppFetcher

  /** `str(e)`: Starlette renders an `HTTPException` as `"{status_code}: {detail}"`; other
      exceptions carry their own message. */
  function ExceptionText(e: Exception): (text: string)
    ensures e.Failure? ==> text == e.message
    ensures e.HttpError? ==> text == Decimal(e.status) + ": " + e.detail
  {
    match e
    case HttpError(status, detail) => Decimal(status) + ": " + detail
    case Failure(message) => message
  }

  /** The detail of the 404 each endpoint raises for an empty upstream answer. */
  function NotFoundDetail(req: Request): string
  {
    match req
    case PriceRequest(coinId) => "No data found for coin: " + coinId
    case ChartRequest(coinId, _) => "No historical data found for coin: " + coinId
  }

  /** `except Exception as e: raise HTTPException(status_code=500, detail=str(e))`. */
  function Internal(e: Exception): Exception
  {
    HttpError(500, ExceptionText(e))
  }

  /** One request to `/price/{coin_id}` or `/historical/{coin_id}`. */
  function Serve(cache: Option<CacheView>, calls: seq<Request>, respond: (Request, nat) -> Reply,
                 req: Request, faults: CacheFaults): (e: Effect<Json>)
    ensures e.calls == calls || e.calls == calls + [req]
    ensures e.cache.None? <==> cache.None?
  {
    var key := KeyOf(req);
    if cache.Some? && faults.read.Some? then Effect(Raise(Internal(Failure(faults.read.value))), cache, calls)
    else if cache.Some? && Live(cache.value, key).Some? then Effect(Return(Live(cache.value, key).value), cache, calls)
    else
      var reply := respond(req, |calls|);
      var sent := calls + [req];
      if reply.Error? then Effect(Raise(Internal(Failure(reply.message))), cache, sent)
      else if !Truthy(reply.data) then Effect(Raise(Internal(HttpError(404, NotFoundDetail(req)))), cache, sent)
      else if cache.None? then Effect(Return(reply.data), None, sent)
      else if faults.write.Some? then Effect(Raise(Internal(Failure(faults.write.value))), cache, sent)
      else Effect(Return(reply.data), Some(Stored(cache.value, key, reply.data)), sent)
  }

  method GetCryptoPrice(redis: RedisCache?, api: CoinGeckoApi, coinId: string, faults: CacheFaults)
    returns (r: Outcome<Json>)
    modifies redis, api
    ensures Effect(r, ViewOf(redis), api.calls)
         == Serve(old(ViewOf(redis)), old(api.calls), api.respond, PriceRequest(coinId), faults)
  {
    r := TryGetCryptoPrice(redis, api, coinId, faults);
    if r.Raise? {
      r := Raise(Internal(r.exc));
    }
  }

  /** The body of the `try` block of `get_crypto_price`. */
  method TryGetCryptoPrice(redis: RedisCache?, api: CoinGeckoApi, coinId: string, faults: CacheFaults)
    returns (r: Outcome<Json>)
    modifies redis, api
    ensures var e := Serve(old(ViewOf(redis)), old(api.calls), api.respond, PriceRequest(coinId), faults);
            && ViewOf(redis) == e.cache && api.calls == e.calls
            && (r.Return? <==> e.result.Return?)
            && (r.Return? ==> r == e.result)
            && (r.Raise? ==> e.result == Raise(Internal(r.exc)))
  {
    var cacheKey := PriceKey(coinId);
    if redis != null {
      var cached :- redis.Get(cacheKey, faults.read);
      if cached.Some? {
        return Return(cached.value);
      }
    }
    var reply := api.GetPrice(coinId);
    if reply.Error? {
      return Raise(Failure(reply.message));
    }
    if !Truthy(reply.data) {
      return Raise(HttpError(404, "No data found for coin: " + coinId));
    }
    if redis != null {
      var written := redis.SetEx(cacheKey, CacheTtl, reply.data, faults.write);
      if written.Raise? {
        return Raise(written.exc);
      }
    }
    return Return(reply.data);
  }

  method GetHistoricalPrice(redis: RedisCache?, api: CoinGeckoApi, coinId: string, days: int,
                            faults: CacheFaults)
    returns (r: Outcome<Json>)
    modifies redis, api
    ensures Effect(r, ViewOf(redis), api.calls)
         == Serve(old(ViewOf(redis)), old(api.calls), api.respond, ChartRequest(coinId, Some(days)), faults)
  {
    r := TryGetHistoricalPrice(redis, api, coinId, days, faults);
    if r.Raise? {
      r := Raise(Internal(r.exc));
    }
  }

  /** The body of the `try` block of `get_historical_price`. */
  method TryGetHistoricalPrice(redis: RedisCache?, api: CoinGeckoApi, coinId: string, days: int,
                               faults: CacheFaults)
    returns (r: Outcome<Json>)
    modifies redis, api
    ensures var e := Serve(old(ViewOf(redis)), old(api.calls), api.respond,
                           ChartRequest(coinId, Some(days)), faults);
            && ViewOf(redis) == e.cache && api.calls == e.calls
            && (r.Return? <==> e.result.Return?)
            && (r.Return? ==> r == e.result)
            && (r.Raise? ==> e.result == Raise(Internal(r.exc)))
  {
    var cacheKey := HistoricalKey(coinId, Some(days));
    if redis != null {
      var cached :- redis.Get(cacheKey, faults.read);
      if cached.Some? {
        return Return(cached.value);
      }
    }
    var reply := api.GetCoinMarketChartById(coinId, Some(days));
    if reply.Error? {
      return Raise(Failure(reply.message));
    }
    if !Truthy(reply.data) {
      return Raise(HttpError(404, "No historical data found for coin: " + coinId));
    }
    if redis != null {
      var written := redis.SetEx(cacheKey, CacheTtl, reply.data, faults.write);
      if written.Raise? {
        return Raise(written.exc);
      }
    }
    return Return(reply.data);
  }

  /** Every error leaves the service as a 500: the endpoints never answer 404, and an empty
      upstream answer surfaces as a 500 whose detail is the 404's text. */
  lemma ServeFailsOnlyWith500(cache: Option<CacheView>, calls: seq<Request>,
                              respond: (Request, nat) -> Reply, req: Request, faults: CacheFaults)
    ensures var e := Serve(cache, calls, respond, req, faults);
            e.result.Raise? ==> e.result.exc.HttpError? && e.result.exc.status == 500
  {
    if cache.Some? && (faults.read.Some? || Live(cache.value, KeyOf(req)).Some?) {
    } else {
      var reply := respond(req, |calls|);
      if reply.Error? || !Truthy(reply.data) {
      }
    }
  }

  lemma StatusText404()
    ensures Decimal(404) == "404"
  {
    assert NatDecimal(4) == "4";
    assert NatDecimal(40) == "40";
  }

  lemma EmptyAnswerIs500(cache: Option<CacheView>, calls: seq<Request>,
                         respond: (Request, nat) -> Reply, req: Request, faults: CacheFaults)
    requires cache.None? || (faults.read.None? && Live(cache.value, KeyOf(req)).None?)
    requires respond(req, |calls|).Answer? && !Truthy(respond(req, |calls|).data)
    ensures Serve(cache, calls, respond, req, faults)
         == Effect(Raise(HttpError(500, "404: " + NotFoundDetail(req))), cache, calls + [req])
  {
    StatusText404();
    assert Decimal(404) + ": " == "404: ";
    var e := Serve(cache, calls, respond, req, faults);
    assert e.result == Raise(Internal(HttpError(404, NotFoundDetail(req))));
  }

  /** The service and the agent's fetcher touch the cache and the upstream identically on every
      input; they differ only in how they report: the service returns data exactly when the
      fetcher does, and raises a 500 exactly where the fetcher returns `None` or raises. */
  lemma ServeAgreesWithFetch(cache: Option<CacheView>, calls: seq<Request>,
                             respond: (Request, nat) -> Reply, req: Request, faults: CacheFaults)
    ensures var e := Serve(cache, calls, respond, req, faults);
            var f := Fetch(cache, calls, respond, req, faults);
            && e.cache == f.cache && e.calls == f.calls
            && (forall d :: e.result == Return(d) <==> f.result == Return(Some(d)))
            && (e.result.Raise? <==> f.result == Return(None) || f.result.Raise?)
  {
  }

  /** Fetching through the service keeps the cache fresh, as the agent's fetcher does. */
  lemma ServeKeepsFresh(cache: Option<CacheView>, calls: seq<Request>,
                        respond: (Request, nat) -> Reply, req: Request, faults: CacheFaults)
    requires cache.Some? ==> Fresh(cache.value)
    ensures var e := Serve(cache, calls, respond, req, faults);
            && (e.cache.Some? ==> Fresh(e.cache.value))
            && (e.result.Return? ==> Truthy(e.result.value))
  {
    ServeAgreesWithFetch(cache, calls, respond, req, faults);
    FetchKeepsFresh(cache, calls, respond, req, faults);
    var e := Serve(cache, calls, respond, req, faults);
    if e.result.Return? {
      assert Fetch(cache, calls, respond, req, faults).result == Return(Some(e.result.value));
    }
  }
}
