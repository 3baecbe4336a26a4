/** The Redis keys under which both fetchers cache upstream payloads: `price:{coin_id}` and
    `historical:{coin_id}:{days}`, where `{days}` is Python's rendering of the days value. */
module CacheKeys {
  import opened Outcomes
  import opened Strings
  import opened CoinGecko

  /** `f"{days}"` for an optional int: `None` prints as `None`. */
  function DaysText(days: Option<int>): string
  {
    match days
    case None => "None"
    case Some(n) => Decimal(n)
  }

  /** `price:{coin_id}`: the coin id follows a fixed prefix. */
  function PriceKey(coinId: string): (key: string)
    ensures |key| >= 6 && key[..6] == "price:" && key[6..] == coinId
  {
    "price:" + coinId
  }

  /** `historical:{coin_id}:{days}`: a fixed prefix, the coin id, a colon and the days. */
  function HistoricalKey(coinId: string, days: Option<int>): (key: string)
    ensures var n := 11 + |coinId|;
            && |key| > n && key[..11] == "historical:" && key[11..n] == coinId
            && key[n] == ':' && key[n + 1..] == DaysText(days)
  {
    "historical:" + coinId + ":" + DaysText(days)
  }

  /** The key a request is cached under. */
  function KeyOf(req: Request): (key: string)
    ensures req.PriceRequest? ==> key == PriceKey(req.coinId)
    ensures req.ChartRequest? ==> key == HistoricalKey(req.coinId, req.days)
  {
    match req
    case PriceRequest(coinId) => PriceKey(coinId)
    case ChartRequest(coinId, days) => HistoricalKey(coinId, days)
  }

  lemma DaysTextInjective(d: Option<int>, e: Option<int>)
    ensures ':' !in DaysText(d)
    ensures DaysText(d) == DaysText(e) ==> d == e
  {
    match d {
      case None =>
        if e.Some? {
          DecimalInjective(e.value, e.value);
          assert DaysText(d)[0] == 'N';
          assert Decimal(e.value)[0] == '-' || IsDigit(Decimal(e.value)[0]);
        }
      case Some(n) =>
        DecimalInjective(n, n);
        match e {
          case None =>
            assert Decimal(n)[0] == '-' || IsDigit(Decimal(n)[0]);
            assert DaysText(e)[0] == 'N';
          case Some(m) => DecimalInjective(n, m);
        }
    }
  }

  lemma ColonJoinAt(p: string, x: string, i: int)
    ensures i == |p| ==> (p + ":" + x)[i] == ':'
    ensures |p| < i < |p| + 1 + |x| ==> (p + ":" + x)[i] == x[i - |p| - 1]
  {
  }

  /** A string ending in a colon-free part splits at its last colon in exactly one way. */
  lemma SplitAtLastColon(p1: string, x: string, p2: string, y: string)
    requires ':' !in x && ':' !in y
    requires p1 + ":" + x == p2 + ":" + y
    ensures p1 == p2 && x == y
  {
    var k := p1 + ":" + x;
    if |x| < |y| {
      // position |p1| holds the first key's last colon but a character of y in the second
      ColonJoinAt(p1, x, |p1|);
      ColonJoinAt(p2, y, |p1|);
      assert false;
    } else if |y| < |x| {
      ColonJoinAt(p2, y, |p2|);
      ColonJoinAt(p1, x, |p2|);
      assert false;
    } else {
      assert x == k[|k| - |x|..] == y;
      assert p1 == k[..|k| - |x| - 1] == p2;
    }
  }

  lemma KindPrefixes(a: string, b: string, e: Option<int>)
    ensures PriceKey(a)[0] == 'p' && HistoricalKey(b, e)[0] == 'h'
  {
  }

  /** Distinct requests never share a cache entry: a price key and a historical key always
      differ, and each key determines the coin id (and the days) it was built from, even when
      the coin id itself contains colons. */
  lemma {:induction false} KeyOfInjective(r1: Request, r2: Request)
    requires KeyOf(r1) == KeyOf(r2)
    ensures r1 == r2
  {
    var k := KeyOf(r1);
    match r1 {
      case PriceRequest(a) =>
        match r2 {
          case PriceRequest(b) =>
            assert a == k[6..] == b;
          case ChartRequest(b, e) =>
            KindPrefixes(a, b, e);
            assert false;
        }
      case ChartRequest(a, d) =>
        match r2 {
          case PriceRequest(b) =>
            KindPrefixes(b, a, d);
            assert false;
          case ChartRequest(b, e) =>
            assert HistoricalKey(a, d) == k == HistoricalKey(b, e);
            DaysTextInjective(d, e);
            DaysTextInjective(e, d);
            SplitAtLastColon("historical:" + a, DaysText(d), "historical:" + b, DaysText(e));
            assert a == ("historical:" + a)[11..] == ("historical:" + b)[11..] == b;

        }
    }
  }
}
