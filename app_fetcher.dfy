/** The agent's own read-through fetcher: look in Redis first, otherwise ask CoinGecko, cache
    a non-empty answer for 60 seconds, and turn every failure inside the `try` block into `None`.
    The cache read comes before the `try`, so an error there is raised to the caller. */
module AppFetcher {
  import opened Outcomes
  import opened JsonValues
  import opened CoinGecko
  import opened CacheKeys
  import opened Redis

  /** The time to live, in seconds, of every entry the fetchers write. */
  const CacheTtl: nat := 60

  /** Connection errors the Redis client raises, with their messages, if any. */
  datatype CacheFaults = CacheFaults(read: Option<string>, write: Option<string>)

  /** Everything one fetch decides: what it returns or raises, the cache afterwards (`None` when
      there is no Redis client) and the upstream call log afterwards. */
  datatype Effect<T> = Effect(result: Outcome<T>, cache: Option<CacheView>, calls: seq<Request>)

  /** The cache after `setex(key, 60, payload)`. */
  function Stored(view: CacheView, key: string, payload: Json): (v: CacheView)
    ensures v.now == view.now && Live(v, key) == Some(payload)
  {
    view.(store := view.store[key := Entry(payload, view.now + CacheTtl)])
  }

  /** One call of `get_crypto_price` or `get_historical_price` on `req`. */
  function Fetch(cache: Option<CacheView>, calls: seq<Request>, respond: (Request, nat) -> Reply,
                 req: Request, faults: CacheFaults): (e: Effect<Option<Json>>)
    ensures e.calls == calls || e.calls == calls + [req]
    ensures e.result.Raise? ==> e.result.exc.Failure?
    ensures e.cache.None? <==> cache.None?
  {
    var key := KeyOf(req);
    if cache.Some? && faults.read.Some? then Effect(Raise(Failure(faults.read.value)), cache, calls)
    else if cache.Some? && Live(cache.value, key).Some? then Effect(Return(Live(cache.value, key)), cache, calls)
    else
      var reply := respond(req, |calls|);
      var sent := calls + [req];
      if reply.Error? || !Truthy(reply.data) then Effect(Return(None), cache, sent)
      else if cache.None? then Effect(Return(Some(reply.data)), None, sent)
      else if faults.write.Some? then Effect(Return(None), cache, sent)
      else Effect(Return(Some(reply.data)), Some(Stored(cache.value, key, reply.data)), sent)
  }

  method GetCryptoPrice(redis: RedisCache?, api: CoinGeckoApi, coinId: string, faults: CacheFaults)
    returns (r: Outcome<Option<Json>>)
    modifies redis, api
    ensures Effect(r, ViewOf(redis), api.calls)
         == Fetch(old(ViewOf(redis)), old(api.calls), api.respond, PriceRequest(coinId), faults)
  {
    var cacheKey := PriceKey(coinId);
    if redis != null {
      var cached :- redis.Get(cacheKey, faults.read);
      if cached.Some? {
        return Return(cached);
      }
    }
    var reply := api.GetPrice(coinId);
    if reply.Error? || !Truthy(reply.data) {
      return Return(None);
    }
    if redis != null {
      var written := redis.SetEx(cacheKey, CacheTtl, reply.data, faults.write);
      if written.Raise? {
        return Return(None);
      }
    }
    return Return(Some(reply.data));
  }

  method GetHistoricalPrice(redis: RedisCache?, api: CoinGeckoApi, coinId: string, days: Option<int>,
                            faults: CacheFaults)
    returns (r: Outcome<Option<Json>>)
    modifies redis, api
    ensures Effect(r, ViewOf(redis), api.calls)
         == Fetch(old(ViewOf(redis)), old(api.calls), api.respond, ChartRequest(coinId, days), faults)
  {
    var cacheKey := HistoricalKey(coinId, days);
    if redis != null {
      var cached :- redis.Get(cacheKey, faults.read);
      if cached.Some? {
        return Return(cached);
      }
    }
    var reply := api.GetCoinMarketChartById(coinId, days);
    if reply.Error? || !Truthy(reply.data) {
      return Return(None);
    }
    if redis != null {
      var written := redis.SetEx(cacheKey, CacheTtl, reply.data, faults.write);
      if written.Raise? {
        return Return(None);
      }
    }
    return Return(Some(reply.data));
  }

  /** Every entry left by the fetchers holds a non-empty payload that expires within 60 seconds. */
  ghost predicate Fresh(view: CacheView)
  {
    forall k :: k in view.store ==>
      Truthy(view.store[k].payload) && view.store[k].expiresAt <= view.now + CacheTtl
  }

  /** Only a failing cache read escapes as an exception; upstream and cache-write failures
      are turned into `None`. */
  lemma FetchRaisesOnlyOnCacheRead(cache: Option<CacheView>, calls: seq<Request>,
                                   respond: (Request, nat) -> Reply, req: Request, faults: CacheFaults)
    ensures Fetch(cache, calls, respond, req, faults).result.Raise? <==> cache.Some? && faults.read.Some?
    ensures cache.Some? && faults.read.Some? ==>
      Fetch(cache, calls, respond, req, faults) == Effect(Raise(Failure(faults.read.value)), cache, calls)
  {
  }

  /** A live entry is returned as it was cached, with no upstream call and no write. */
  lemma FetchHit(view: CacheView, calls: seq<Request>, respond: (Request, nat) -> Reply,
                 req: Request, faults: CacheFaults)
    requires faults.read.None? && Live(view, KeyOf(req)).Some?
    ensures Fetch(Some(view), calls, respond, req, faults)
         == Effect(Return(Some(view.store[KeyOf(req)].payload)), Some(view), calls)
  {
  }

  /** Without Redis, or on a miss, exactly one upstream call is made; the caller sees data
      exactly when the upstream answered with a non-empty payload and, with Redis, the write
      succeeded. */
  lemma FetchMiss(cache: Option<CacheView>, calls: seq<Request>, respond: (Request, nat) -> Reply,
                  req: Request, faults: CacheFaults)
    requires cache.None? || (faults.read.None? && Live(cache.value, KeyOf(req)).None?)
    ensures var e := Fetch(cache, calls, respond, req, faults);
            var reply := respond(req, |calls|);
            && e.calls == calls + [req]
            && e.result.Return?
            && (e.result.value.Some? <==>
                  reply.Answer? && Truthy(reply.data) && (cache.None? || faults.write.None?))
            && (e.result.value.Some? ==> e.result.value.value == reply.data)
            && (cache.None? ==> e.cache.None?)
  {
  }

  /** The cache changes only by storing a non-empty upstream answer under the request's key,
      alive for 60 seconds, and that answer is what the caller receives. */
  lemma FetchWritesOnlyData(cache: Option<CacheView>, calls: seq<Request>,
                            respond: (Request, nat) -> Reply, req: Request, faults: CacheFaults)
    ensures var e := Fetch(cache, calls, respond, req, faults);
            var reply := respond(req, |calls|);
            e.cache != cache ==>
              && cache.Some? && reply.Answer? && Truthy(reply.data)
              && e.cache == Some(Stored(cache.value, KeyOf(req), reply.data))
              && e.result == Return(Some(reply.data))
  {
  }

  /** Fetching keeps the cache fresh, and what a fetch returns is never an empty payload. */
  lemma FetchKeepsFresh(cache: Option<CacheView>, calls: seq<Request>,
                        respond: (Request, nat) -> Reply, req: Request, faults: CacheFaults)
    requires cache.Some? ==> Fresh(cache.value)
    ensures var e := Fetch(cache, calls, respond, req, faults);
            && (e.cache.Some? ==> Fresh(e.cache.value))
            && (e.result.Return? && e.result.value.Some? ==> Truthy(e.result.value.value))
  {
    var e := Fetch(cache, calls, respond, req, faults);
    if e.cache.Some? && e.cache != cache {
      FetchWritesOnlyData(cache, calls, respond, req, faults);
      var v := e.cache.value;
      forall k | k in v.store
        ensures Truthy(v.store[k].payload) && v.store[k].expiresAt <= v.now + CacheTtl
      {
        if k != KeyOf(req) {
          assert v.store[k] == cache.value.store[k];
        }
      }
    }
  }

  /** Asking again for the same data less than 60 seconds after it was cached returns the same
      payload without another upstream call. */
  lemma RepeatWithinTtlIsServedFromCache(view: CacheView, calls: seq<Request>,
                                         respond: (Request, nat) -> Reply, req: Request,
                                         faults: CacheFaults, later: CacheFaults, wait: nat)
    requires faults.read.None? && faults.write.None? && later.read.None?
    requires Live(view, KeyOf(req)).None?
    requires respond(req, |calls|).Answer? && Truthy(respond(req, |calls|).data)
    requires wait < CacheTtl
    ensures var first := Fetch(Some(view), calls, respond, req, faults);
            && first.cache.Some?
            && var second := Fetch(Some(first.cache.value.(now := view.now + wait)), first.calls,
                                   respond, req, later);
            && second.result == first.result == Return(Some(respond(req, |calls|).data))
            && second.calls == first.calls == calls + [req]
  {
    var first := Fetch(Some(view), calls, respond, req, faults);
    var v := first.cache.value.(now := view.now + wait);
    assert Live(v, KeyOf(req)) == Some(respond(req, |calls|).data);
  }

  /** Once 60 seconds have passed since it was cached, the same request goes upstream again. */
  lemma RepeatAfterTtlGoesUpstream(view: CacheView, calls: seq<Request>,
                                   respond: (Request, nat) -> Reply, req: Request,
                                   faults: CacheFaults, later: CacheFaults, wait: nat)
    requires faults.read.None? && faults.write.None? && later.read.None?
    requires Live(view, KeyOf(req)).None?
    requires respond(req, |calls|).Answer? && Truthy(respond(req, |calls|).data)
    requires wait >= CacheTtl
    ensures var first := Fetch(Some(view), calls, respond, req, faults);
            && first.cache.Some?
            && var second := Fetch(Some(first.cache.value.(now := view.now + wait)), first.calls,
                                   respond, req, later);
            && second.calls == calls + [req, req]
  {
    var first := Fetch(Some(view), calls, respond, req, faults);
    var v := first.cache.value.(now := view.now + wait);
    assert Live(v, KeyOf(req)).None?;
  }
}
