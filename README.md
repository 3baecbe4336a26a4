# Coin-resolution agent: a Dafny model

This project models the core of a cryptocurrency price assistant. A user asks a question in
plain language, e.g. "what is bitcoin worth?" or "how did ether do over the last 7 days?".
`POST /query` passes it to an agent graph with four nodes:

- `analyze_query` asks a language model for a CoinGecko coin id, a query type (price or
  historical) and an optional number of days.
- `fetch_data` fetches through a read-through Redis cache in front of CoinGecko.
- `reflect_on_coin` runs when a fetch comes back empty. It asks the language model for a
  better coin id, and the graph fetches again, up to three empty fetches.
- `format_response` asks the language model to phrase the answer, or returns a fixed
  fallback text when nothing was found.

Three pieces sit around the graph:

- a CoinGecko microservice that serves the same cached data over HTTP;
- the HTTP boundary, which maps exceptions to status codes and `{"error": ...}` bodies;
- the chat front end's `format_response_text`, which cleans the answer's whitespace.

The modules follow the program:

- `Outcomes`: Python's two failure channels as values, an optional result and a raised
  exception.
- `Strings`: the pieces of `str` behaviour the core relies on.
- `JsonValues`: payloads, with Python's subscripting and truth testing.
- `AgentState`: the graph's records and their defaults (app/graph/state.py), and the merge of
  a node's partial update into the state.
- `Nodes`: the four nodes (app/graph/nodes.py), each a function of the state and of the answer
  of the language model or fetcher it calls.
- `Workflow`:
  - the routing rule and the `StateGraph` builder that `create_workflow` drives;
  - the run of the compiled graph, first as a step function `Step` with its invariant `Inv`
    and the whole-run function `RunFrom`;
  - `RunWorkflow`, the loop that executes the run against a live cache and client, proved
    equal to `Run`;
  - lemmas on termination, bounds, the retry counter, the reflector's stop decision and the
    only HTTP error a run raises.
- `CoinGecko`: the upstream client, as a class that logs every call.
- `Redis`: the cache, as a class holding a map from key to (payload, expiry) and a clock.
- `CacheKeys`: the cache keys, with a proof that distinct requests never share one.
- `AppFetcher`: the agent's fetcher (app/services/coingecko.py).
  - Its methods are proved equal to the specification function `Fetch`.
  - `Fetch` comes with lemmas on hits, misses, writes, the 60-second lifetime and which
    failures escape.
- `CoinService`: the microservice's endpoints (services/coingecko/main.py).
  - Its methods are proved equal to `Serve`.
  - `Serve` is proved to behave like `Fetch` except in how it reports failure.
- `Api`: `process_query`, the two exception handlers and the health check (main.py).
- `ResponseText`: `format_response_text` (streamlit_app.py), as three recursive string
  functions, with proofs that the result is normalized and keeps every non-whitespace
  character in order, that collapsing keeps the words, that the punctuation substitution
  works word by word, never overlaps matches and leaves no mark unspaced except the one a
  match consumed, and that the dollar substitution
  deletes whitespace only after a `$`.

Some external calls are parameters:

- The language model's three roles are functions. The analyzer and the formatter are
  functions of their input. The reflector is also indexed by how many reflections came before.
- CoinGecko's answers are a function `respond(request, n)` of the request and of how many
  calls came before it.
- Redis connection errors are given per fetch as `CacheFaults`.

Two behaviours of the code are easy to misread; the model follows the code:

- After the reflector stops (it answers "sufficient" or gives no refined id), the graph does
  not go straight to formatting. The edge from `reflect` to `fetch_data` is unconditional
  (app/graph/workflow.py:35), so one more fetch of the unchanged coin id follows. If that
  fetch is empty too, `retry_count` ends at 4, not at most 3
  (`Workflow.GivingUpReportsFourAttempts`).
- The history handed to the reflector drops empty ids but is not deduplicated
  (app/graph/nodes.py:59).

## Model

| member | source | states |
|---|---|---|
| Strings.Strip | main.py:65 | `str.strip()` is empty exactly when the text is all whitespace, and otherwise starts and ends with a non-whitespace character |
| Strings.DecimalInjective | app/services/coingecko.py:43 | `str(n)` of an int has no colon, and distinct ints print differently |
| JsonValues.Subscript | app/graph/nodes.py:91 | `j[key]` succeeds exactly on a dict holding the key and returns its value; otherwise it raises an ordinary exception |
| JsonValues.GetOr | app/graph/nodes.py:96-97 | `d.get(key, default)` is the stored value when the key is present, else the default |
| JsonValues.At | app/graph/nodes.py:113-114 | `xs[i]` on a list returns the i-th item, counting a negative index from the end; it fails only with an ordinary exception |
| JsonValues.Length | app/graph/nodes.py:111 | `len(xs)` of a list is its item count, never negative |
| CoinGecko.CoinGeckoApi.constructor | app/services/coingecko.py:22-24 | a new client has made no calls and answers through the given reply function |
| CoinGecko.CoinGeckoApi.GetPrice | app/services/coingecko.py:22-24 | `get_price` appends exactly one price request to the call log and returns the upstream answer for it |
| CoinGecko.CoinGeckoApi.GetCoinMarketChartById | app/services/coingecko.py:56 | `get_coin_market_chart_by_id` appends exactly one chart request (coin id and days) and returns its answer |
| CacheKeys.PriceKey | app/services/coingecko.py:9 | the price key is `price:` followed by the coin id |
| CacheKeys.HistoricalKey | app/services/coingecko.py:43 | the historical key is `historical:`, the coin id, a colon and the days text |
| CacheKeys.KeyOf | app/services/coingecko.py:9-43 | a price request is cached under its price key, a chart request under its historical key |
| CacheKeys.DaysTextInjective | app/services/coingecko.py:43 | the `{days}` part of a historical key has no colon and determines the days value, `None` included |
| CacheKeys.KeyOfInjective | services/coingecko/main.py:133 | a price key never equals a historical key, and each key determines its coin id and days, even for coin ids containing colons |
| Redis.RedisCache.constructor | app/services/coingecko.py:8 | a new cache is empty at the given time |
| Redis.RedisCache.Get | app/services/coingecko.py:11 | `get` raises the connection error when there is one; otherwise it returns the payload of a live entry, or nothing for a missing or expired key |
| Redis.RedisCache.SetEx | app/services/coingecko.py:31 | `setex(key, seconds, payload)` stores the payload until now + seconds and changes nothing else; on a connection error it raises and the store is unchanged |
| AppFetcher.Stored | app/services/coingecko.py:31 | after `setex(key, 60, payload)` the key is live with that payload |
| AppFetcher.Fetch | app/services/coingecko.py:4-68 | a fetch makes at most one upstream call, for the request itself; it raises only ordinary exceptions, never an HTTP error; it never creates or drops the cache |
| AppFetcher.GetCryptoPrice | app/services/coingecko.py:4-36 | its result, the cache and the call log afterwards are exactly those `Fetch` gives for a price request |
| AppFetcher.GetHistoricalPrice | app/services/coingecko.py:38-68 | the same for a chart request, keyed `historical:{coin_id}:{days}` |
| AppFetcher.FetchRaisesOnlyOnCacheRead | app/services/coingecko.py:11-36 | a fetch raises exactly when the cache read fails, which is outside the `try`; it then raises that error and touches nothing; upstream and cache-write failures give `None` |
| AppFetcher.FetchHit | app/services/coingecko.py:13-15 | a live entry is returned as cached, with no upstream call and no write |
| AppFetcher.FetchMiss | app/services/coingecko.py:20-36 | without Redis or on a miss, exactly one upstream call; data comes back exactly when the answer is non-empty and, with Redis, the write succeeded; without Redis nothing is cached |
| AppFetcher.FetchWritesOnlyData | app/services/coingecko.py:25-33 | the cache changes only by storing a non-empty upstream answer under the request's key for 60 seconds, and that answer is what the caller gets |
| AppFetcher.FetchKeepsFresh | app/services/coingecko.py:29-33 | every cached entry holds a non-empty payload that expires within 60 seconds, and a fetch never returns an empty payload |
| AppFetcher.RepeatWithinTtlIsServedFromCache | app/services/coingecko.py:13-15 | a repeat of a fetch less than 60 seconds after it was cached returns the same payload with no second upstream call |
| AppFetcher.RepeatAfterTtlGoesUpstream | app/services/coingecko.py:31 | 60 seconds or more after it was cached, the same request goes upstream again |
| CoinService.Serve | services/coingecko/main.py:91-160 | an endpoint makes at most one upstream call, for the request itself, and never creates or drops the cache |
| CoinService.ExceptionText | services/coingecko/main.py:126 | `str(e)` is the message of an ordinary exception and `{status}: {detail}` of an HTTP error |
| CoinService.GetCryptoPrice | services/coingecko/main.py:91-126 | `/price/{coin_id}`: its outcome, cache and call log are exactly those `Serve` gives for a price request |
| CoinService.TryGetCryptoPrice | services/coingecko/main.py:94-123 | the body of the `try` raises the error `Serve` wraps in a 500, and otherwise returns what `Serve` returns |
| CoinService.GetHistoricalPrice | services/coingecko/main.py:128-160 | `/historical/{coin_id}`: the same as `Serve` for a chart request with the given days |
| CoinService.TryGetHistoricalPrice | services/coingecko/main.py:131-157 | the body of the historical `try`, as for prices |
| CoinService.ServeFailsOnlyWith500 | services/coingecko/main.py:124-126 | every error leaves an endpoint as an HTTP 500 |
| CoinService.EmptyAnswerIs500 | services/coingecko/main.py:115-126 | an empty upstream answer raises a 500 whose detail is `404: No data found for coin: {coin_id}` (or the historical text); nothing is cached |
| CoinService.ServeAgreesWithFetch | services/coingecko/main.py:91-160 | the service touches cache and upstream exactly as the agent's fetcher does; it returns data exactly when the fetcher does, and raises exactly where the fetcher returns `None` or raises |
| CoinService.ServeKeepsFresh | services/coingecko/main.py:119-121 | the service keeps every cache entry non-empty and expiring within 60 seconds, and never returns an empty payload |
| AgentState.InitialState | app/graph/state.py:21-31 | a run's state holds the input query and the defaults: empty coin id, `price`, no days, no payloads, no attempts, retry count 0 |
| AgentState.Merge | app/graph/workflow.py:16 | merging an update that sets no key changes nothing, and no node's update changes the query |
| Nodes.AnalyzeQuery | app/graph/nodes.py:15-33 | it raises exactly when the analyzer raises or finds no coin; an empty coin id gives the 400 "Could not identify cryptocurrency in query"; otherwise it sets coin id, query type and days, and sets the attempts to `[coin_id]` |
| Nodes.FetchRequestFor | app/graph/nodes.py:39-45 | a price query fetches the price, a historical one the chart for the state's days, always for the state's coin id |
| Nodes.FetchData | app/graph/nodes.py:35-52 | non-empty data sets only the payload field of the query's kind; empty data only adds 1 to `retry_count`; a fetcher exception propagates |
| Nodes.ValidAttempts | app/graph/nodes.py:59 | an id is among the filtered attempts exactly when it is a non-empty attempt, and a list without empty ids is unchanged |
| Nodes.ValidAttemptsSingle | app/graph/nodes.py:59 | a single id is kept exactly when it is non-empty |
| Nodes.ValidAttemptsAppend | app/graph/nodes.py:59 | the filter of two lists one after the other is the two filters one after the other, so order and duplicates are kept |
| Nodes.ReflectRequestFor | app/graph/nodes.py:63-68 | the reflector is shown the query, the failing coin id, the retry count and `", ".join` of the non-empty attempts |
| Nodes.ReflectOnCoin | app/graph/nodes.py:54-82 | when the reflector stops (sufficient, or no refined id), only `retry_count := 3`; otherwise the new coin id, with the filtered attempts plus that id, none of them empty; a reflector exception propagates |
| Nodes.PriceContextFor | app/graph/nodes.py:90-98 | it succeeds exactly when the payload maps the coin id to a dict with `usd`; change and market cap default to 0 |
| Nodes.PointValue | app/graph/nodes.py:113-114 | `prices[i][1]` on a list is `[1]` of the i-th point, counting a negative index from the end; it succeeds only on a list and an index in range, and fails only with an ordinary exception |
| Nodes.HistoricalContextFor | app/graph/nodes.py:106-116 | it succeeds exactly when the payload is a dict whose `prices` is a non-empty list with `[1]` defined on its first and last points (a string `prices` always fails); then data points = the list's length, start = first point's second element, end = last point's |
| Nodes.FallbackMessage | app/graph/nodes.py:128 | the fallback text starts with `Could not fetch data for {coin_id} after ` and ends with ` attempts, please try different coin`, with the count in between |
| Nodes.FallbackCountsAttempts | app/graph/nodes.py:128 | for one coin id, the fallback text determines the attempt count: different counts give different texts |
| Nodes.FormatResponse | app/graph/nodes.py:84-130 | the price payload wins over the historical one, and the output's data is the payload of the branch taken; with neither, the fallback text with `{}` and no formatter call |
| Workflow.ShouldRetry | app/graph/workflow.py:7-11 | `should_retry` routes to `reflect` exactly when `retry_count` is below 3 and neither payload is present, else to `format_response` |
| Workflow.Successor | app/graph/workflow.py:7-36 | after fetching, the graph reflects exactly when `should_retry` says so, else formats; reflect always leads to fetch and format to the end; nothing leads back to analysis |
| Workflow.StateGraph.constructor | app/graph/workflow.py:16 | a new graph has no nodes, edges or entry |
| Workflow.StateGraph.AddNode | app/graph/workflow.py:19-22 | adds the node and nothing else |
| Workflow.StateGraph.AddEdge | app/graph/workflow.py:26 | sets the node's outgoing edge to a plain edge |
| Workflow.StateGraph.AddConditionalEdges | app/graph/workflow.py:27-34 | sets the node's outgoing edge to the `should_retry` branch |
| Workflow.StateGraph.SetEntryPoint | app/graph/workflow.py:25 | sets the entry |
| Workflow.CreateWorkflow | app/graph/workflow.py:13-42 | builds exactly the four nodes, entered at `analyze_query`, with the edges `create_workflow` adds, and the result compiles |
| Workflow.GraphShape | app/graph/workflow.py:25-36 | every node but the end has one outgoing edge, and no edge leads into the entry |
| Workflow.Step | app/graph/workflow.py:24-36 | one node runs and the graph follows its edge; the run invariant holds, the run progresses, and `retry_count` never decreases |
| Workflow.StepAnalyze | app/graph/nodes.py:15-33 | analysis leads to fetching and keeps cache and call log |
| Workflow.StepFetch | app/graph/nodes.py:35-52 | a fetch keeps the invariant and leads where `should_retry` says |
| Workflow.StepReflect | app/graph/nodes.py:54-82 | a reflection always leads back to fetching, and raises exactly when the reflector raises |
| Workflow.StepFormat | app/graph/nodes.py:84-130 | formatting ends the run and leaves the state unchanged |
| Workflow.RunFrom | app/graph/workflow.py:24-39 | every run ends; it has at most one analysis, three fetches and two reflections, and `retry_count` only grows, ending in [0, 4] |
| Workflow.InvBounded | app/graph/workflow.py:9-11 | the run invariant implies those bounds, including for the node about to run |
| Workflow.Start | app/graph/workflow.py:25 | a run starts at analysis in a state satisfying the invariant |
| Workflow.ExecuteNode | app/graph/workflow.py:19-22 | running the current node on the live cache and client is exactly one `Step` |
| Workflow.RunWorkflow | app/graph/workflow.py:39 | invoking the compiled graph loops until the end, and returns or raises exactly as `Run`, leaving the cache and call log as `Run` does |
| Workflow.EmptyCoinIsBadRequest | app/graph/nodes.py:24-26 | with no coin id the run raises the 400 after analysis alone, with nothing fetched |
| Workflow.FoundFetchStep | app/graph/nodes.py:39-48 | a fetch that finds data stores it in the field of the query's kind and moves to formatting |
| Workflow.FoundGoesToFormat | app/graph/workflow.py:9-11 | after a fetch that finds data the run is fetch, format: attempts and retry count unchanged, output data = the fetched payload |
| Workflow.FormatEnds | app/graph/workflow.py:36 | the run ends right after `format_response`, with its result |
| Workflow.FirstFetchSucceeds | app/graph/workflow.py:9-11 | if the first fetch finds data the run is analyze, fetch, format: no reflection, attempts `[coin_id]`, retry count 0 |
| Workflow.GivingUpFetchesAgain | app/graph/workflow.py:35 | after the reflector stops, the graph fetches again with `retry_count` 3, repeating the previous request for the unchanged coin id |
| Workflow.GivingUpReportsFourAttempts | app/graph/nodes.py:72-77 | if that repeated fetch is empty too, the run ends with the fallback text counting 4 attempts, and `retry_count` is 4 |
| Workflow.EmptyFetchAfterGivingUp | app/graph/nodes.py:50-52 | an empty fetch at `retry_count` 3 makes it 4 and formats the fallback |
| Workflow.NothingFetched | app/services/coingecko.py:20-27 | with no cache and every upstream call failing, a fetch makes one call and returns nothing |
| Workflow.EmptyFetchStep | app/graph/nodes.py:50-52 | an empty fetch adds 1 to `retry_count` and reflects while it is below 3, else formats |
| Workflow.ReflectStep | app/graph/nodes.py:79-82 | a reflection with a new id records it as the next attempt and fetches again |
| Workflow.ExhaustedRetries | app/graph/workflow.py:9-11 | when nothing can be found and the reflector keeps proposing ids: three fetches, two reflections, three attempts, retry count 3, the fallback text counting 3 |
| Workflow.ExhaustedAfterReflecting | app/graph/workflow.py:35 | the same, from a reflection |
| Workflow.ExhaustedRun | app/graph/workflow.py:9-11 | the same for a whole run with no cache: three upstream calls |
| Workflow.OnlyAnalysisRaisesHttp | app/graph/nodes.py:24-26 | if the language model raises only ordinary exceptions, the only HTTP error a run raises is analysis's 400 |
| Workflow.RunRaisesHttpOnlyForNoCoin | app/graph/nodes.py:24-26 | provided the language model raises only ordinary exceptions, a run raises an HTTP error exactly when the analyzer finds no coin, and then it is the 400 |
| Api.ProcessQuery | main.py:58-86 | a blank query is a 400 without running the workflow; otherwise the workflow's output is returned unchanged, its HTTP errors re-raised, anything else a 500 "An error occurred while processing your request" |
| Api.HandleQuery | main.py:58-86 | `POST /query` on a whitespace-only query answers 400 with `{"error": "Query cannot be empty"}`, with no fetch and no cache change |
| Api.HttpExceptionHandler | main.py:42-48 | status and `{"error": detail}` of the exception |
| Api.GeneralExceptionHandler | main.py:50-56 | 500 with the fixed generic message |
| Api.Send | main.py:42-56 | a returned value is sent with 200, an HTTP error through its handler, anything else through the general handler |
| Api.HealthCheck | main.py:89-92 | 200 with `{"status": "healthy"}` |
| Api.BlankQueryIsRejected | main.py:65-66 | a whitespace-only query gets 400 "Query cannot be empty" with no fetch and no cache change |
| Api.UnidentifiedCoinIsBadRequest | main.py:78-80 | the analyzer's 400 reaches the client with its status and detail |
| Api.QueryErrors | main.py:60-86 | provided the language model raises only ordinary exceptions, `process_query` raises only the two 400s or the 500, and a 400 exactly for a blank query or no coin found |
| Api.QueryStatuses | main.py:42-86 | provided the language model raises only ordinary exceptions, `POST /query` answers 200, 400 or 500, with 400 exactly in those two cases; the generic handler's text never appears |
| ResponseText.NonSpaceTrimStart | streamlit_app.py:42 | skipping leading whitespace loses no other character |
| ResponseText.SplitYieldsWords | streamlit_app.py:42 | `split()` yields non-empty words without whitespace |
| ResponseText.SplitKeepsText | streamlit_app.py:42 | the words of `split()` hold every non-whitespace character, in order |
| ResponseText.JoinKeepsText | streamlit_app.py:42 | joining words with single spaces keeps exactly their characters |
| ResponseText.JoinIsNormalized | streamlit_app.py:42 | joining words with single spaces gives text with no leading, trailing or double whitespace |
| ResponseText.SplitJoin | streamlit_app.py:42 | splitting words joined by single spaces gives back those words |
| ResponseText.Collapse | streamlit_app.py:42 | `' '.join(text.split())` is normalized and has exactly the words of the input: splitting it again gives `text.split()` |
| ResponseText.CollapseFixesNormalized | streamlit_app.py:42 | collapsing leaves normalized text unchanged |
| ResponseText.CollapseIdempotent | streamlit_app.py:42 | collapsing twice is collapsing once |
| ResponseText.CollapseExample | streamlit_app.py:42 | `a.,b` is already collapsed |
| ResponseText.SpacePunctuation | streamlit_app.py:44 | the punctuation substitution keeps the first character |
| ResponseText.SpacePunctuationText | streamlit_app.py:44 | the substitution keeps every non-whitespace character in order |
| ResponseText.SpacePunctuationSpacing | streamlit_app.py:44 | the substitution creates no leading, trailing or double whitespace |
| ResponseText.SpacePunctuationAtSpace | streamlit_app.py:44 | no match spans a whitespace character: around one, the substitution works on each side separately and keeps the character |
| ResponseText.SpacePunctuationBeforeSpace | streamlit_app.py:44 | text followed by text that starts with whitespace is substituted part by part |
| ResponseText.SpacePunctuationNoOverlap | streamlit_app.py:44 | matches do not overlap: of two marks in a row the first gets a space and the second, consumed by that match, gets none whatever follows; matching resumes after it |
| ResponseText.TrimStartSpacePunctuation | streamlit_app.py:42-44 | leading whitespace is never part of a match: trimming it before or after the substitution gives the same text |
| ResponseText.SpacePunctuationJoin | streamlit_app.py:42-44 | on words joined by single spaces, the substitution works word by word and keeps the spaces between them |
| ResponseText.SpacePunctuationSpacesMarks | streamlit_app.py:44 | afterwards, a mark of `.,!?` is directly followed by a non-whitespace character only when it is the character a match consumed, right after another mark and a space |
| ResponseText.SpacePunctuationNoMark | streamlit_app.py:44 | text without `.,!?` is unchanged |
| ResponseText.SpacePunctuationExample | streamlit_app.py:44 | matches do not overlap: `a.,b` becomes `a. ,b` |
| ResponseText.StripAfterDollar | streamlit_app.py:46 | the dollar substitution keeps the first character |
| ResponseText.StripAfterDollarTight | streamlit_app.py:46 | afterwards no `$` is followed by whitespace |
| ResponseText.StripAfterDollarText | streamlit_app.py:46 | it deletes whitespace only: every other character is kept in order |
| ResponseText.StripAfterDollarSpacing | streamlit_app.py:46 | it creates no double whitespace |
| ResponseText.StripAfterDollarAppend | streamlit_app.py:46 | the substitution works piece by piece: on text split after a character that is neither `$` nor whitespace, it is the substitution of each piece, so whitespace away from a `$` is kept |
| ResponseText.StripKeepsMarksSpaced | streamlit_app.py:44-46 | the dollar substitution keeps every mark spaced as the punctuation substitution left it |
| ResponseText.StripAfterDollarNoDollar | streamlit_app.py:46 | text without `$` is unchanged |
| ResponseText.FormatResponseText | streamlit_app.py:39-47 | the output has no leading or trailing whitespace, only single spaces, no whitespace after `$`, and the input's non-whitespace characters in order; a mark is followed by a non-whitespace character only inside a match; without `$` it is the collapsed text with its punctuation spaced |
| ResponseText.DollarFreeFormat | streamlit_app.py:46 | on text without `$` the dollar substitution changes nothing |
| ResponseText.DollarFreeWords | streamlit_app.py:39-47 | on text without `$` the output is the input's words, each with its punctuation spaced, joined by single spaces |
| ResponseText.FormatPlainText | streamlit_app.py:39-47 | on text without `$` and `.,!?`, the result is the input's words joined by single spaces, and splitting it gives the input's words |
| ResponseText.PunctuationExample | streamlit_app.py:39-47 | `a.,b` is formatted as `a. ,b` |

## Left out

- The language model: the prompts (app/prompts/templates.py is not part of this model) and the structured-output calls are function parameters. The model states what the agent does with any answer, not which answer comes.
- pycoingecko and the network: the upstream is a reply function of the request and the call's position. The model does not cover HTTP, rate limits of the CoinGecko API or retries inside the client.
- Redis networking: the cache is a map with an explicit clock and injected connection errors. Expiry is checked on read (an entry is live while `now < expiresAt`). Memory limits and eviction are not modelled.
- The clock does not advance inside a run: a whole run sees one cache time. `Redis.RedisCache.Tick` and the two repeat lemmas cover time passing between fetches.
- `json.dumps`/`json.loads`: a cached payload is the value that was stored, an exact round trip. Numbers are opaque reals, and float formatting is not modelled.
- `str(HTTPException)`: taken as Starlette's `"{status}: {detail}"` rendering. This is library behaviour outside the repository.
- FastAPI, uvicorn, CORS middleware and slowapi rate limiting (main.py:59, 90): framework behaviour. A rate-limited request's 429 is not modelled.
- app/core/config.py is not part of this model: environment loading and client construction. Whether Redis is available is the `redis` parameter (`null` means no client).
- The microservice's `GET /health` returns the container's host name, an environment value, and is not modelled. The agent's `GET /health` is `Api.HealthCheck`.
- Logging in every file, and the service's logging setup (services/coingecko/main.py:13-47).
- The Streamlit UI, its `requests` calls and its charts; only `format_response_text` is modelled.
- async/await: a run has no concurrency, so every node and fetch is an ordinary sequential call.
- The response model `ResponseFormat` (app/graph/state.py:5-7) is the formatter's string result; its description text is prompt material.
- ResponseText.SpacePunctuation: its own contract states only that the first character is kept. What the substitution does is stated by `SpacePunctuationAtSpace`, `SpacePunctuationNoOverlap`, `SpacePunctuationText`, `SpacePunctuationSpacesMarks` and `SpacePunctuationJoin`.
- Workflow.ExhaustedRun: states the counts of fetches, reflections, attempts and upstream calls, not the exact sequence of nodes (it is analyze, then fetch and reflect alternating, then format).
- Workflow.RunFrom: a node that raises ends the run. The exception is the run's result; LangGraph's own error wrapping is not modelled.
