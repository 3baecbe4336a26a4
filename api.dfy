/** The HTTP boundary of the agent: `POST /query` validates the query, runs the workflow and
    turns what escapes into a status code and an `{"error": ...}` body; `GET /health` answers
    that the service is healthy. */
module Api {
  import opened Outcomes
  import opened Strings
  import opened JsonValues
  import opened CoinGecko
  import opened Redis
  import opened AgentState
  import N = Nodes
  import W = Workflow

  /** The JSON bodies the endpoints send. */
  datatype Body =
    | ErrorBody(error: string)
    | OutputBody(output: AgentOutput)
    | HealthBody(status: string)

  datatype Response = Response(status: int, body: Body)

  const EmptyQueryDetail := "Query cannot be empty"
  const ProcessingDetail := "An error occurred while processing your request"
  const UnexpectedDetail := "An unexpected error occurred. Please try again later."

  /** What handling a request did: the handler's outcome, and the cache and upstream call log
      after it. */
  datatype Handled = Handled(result: Outcome<AgentOutput>, cache: Option<CacheView>, calls: seq<Request>)

  /** `process_query`: a blank query is refused before the workflow runs; otherwise the workflow
      runs, an `HTTPException` it raises is re-raised unchanged and any other exception becomes
      a 500. */
  function ProcessQuery(query: string, o: W.Oracles, respond: (Request, nat) -> Reply,
                        cache: Option<CacheView>, calls: seq<Request>): (h: Handled)
    ensures AllSpace(query) ==> h == Handled(Raise(HttpError(400, EmptyQueryDetail)), cache, calls)
    ensures h.result.Raise? ==> h.result.exc.HttpError?
    ensures !AllSpace(query) ==>
      var f := W.Run(AgentInput(query), o, respond, cache, calls);
      && h.cache == f.cache && h.calls == f.calls
      && (h.result.Return? <==> f.result.Return?)
      && (h.result.Return? ==> h.result == f.result)
      && (f.result.Raise? && f.result.exc.HttpError? ==> h.result == f.result)
      && (f.result.Raise? && f.result.exc.Failure? ==> h.result == Raise(HttpError(500, ProcessingDetail)))
  {
    if Strip(query) == "" then Handled(Raise(HttpError(400, EmptyQueryDetail)), cache, calls)
    else
      var f := W.Run(AgentInput(query), o, respond, cache, calls);
      match f.result
      case Return(output) => Handled(Return(output), f.cache, f.calls)
      case Raise(HttpError(status, detail)) => Handled(Raise(HttpError(status, detail)), f.cache, f.calls)
      case Raise(Failure(_)) => Handled(Raise(HttpError(500, ProcessingDetail)), f.cache, f.calls)
  }

  /** `http_exception_handler`: the exception's status, its detail as the error. */
  function HttpExceptionHandler(e: Exception): (r: Response)
    requires e.HttpError?
    ensures r.status == e.status && r.body == ErrorBody(e.detail)
  {
    Response(e.status, ErrorBody(e.detail))
  }

  /** `general_exception_handler`: a 500 whose text hides what went wrong. */
  function GeneralExceptionHandler(e: Exception): (r: Response)
    ensures r.status == 500 && r.body == ErrorBody(UnexpectedDetail)
  {
    Response(500, ErrorBody(UnexpectedDetail))
  }

  /** How the application turns an endpoint's outcome into a response: a returned value is sent
      with 200, an `HTTPException` goes to its handler, anything else to the general one. */
  function Send(result: Outcome<AgentOutput>): (r: Response)
    ensures result.Return? ==> r == Response(200, OutputBody(result.value))
    ensures result.Raise? && result.exc.HttpError? ==> r == Response(result.exc.status, ErrorBody(result.exc.detail))
    ensures result.Raise? && result.exc.Failure? ==> r == Response(500, ErrorBody(UnexpectedDetail))
  {
    match result
    case Return(output) => Response(200, OutputBody(output))
    case Raise(e) => if e.HttpError? then HttpExceptionHandler(e) else GeneralExceptionHandler(e)
  }

  /** `GET /health`. */
  function HealthCheck(): (r: Response)
    ensures r.status == 200 && r.body == HealthBody("healthy")
  {
    Response(200, HealthBody("healthy"))
  }

  /** `POST /query` end to end. */
  function HandleQuery(query: string, o: W.Oracles, respond: (Request, nat) -> Reply,
                       cache: Option<CacheView>, calls: seq<Request>): (r: (Response, Option<CacheView>, seq<Request>))
    ensures AllSpace(query) ==> r == (Response(400, ErrorBody(EmptyQueryDetail)), cache, calls)
  {
    var h := ProcessQuery(query, o, respond, cache, calls);
    (Send(h.result), h.cache, h.calls)
  }

  /** A blank query is answered 400 without running the workflow: no fetch, no cache change. */
  lemma BlankQueryIsRejected(query: string, o: W.Oracles, respond: (Request, nat) -> Reply,
                             cache: Option<CacheView>, calls: seq<Request>)
    requires AllSpace(query)
    ensures HandleQuery(query, o, respond, cache, calls) == (Response(400, ErrorBody(EmptyQueryDetail)), cache, calls)
  {
  }

  /** The analyzer's 400 reaches the client with its status and detail, before any fetch. */
  lemma UnidentifiedCoinIsBadRequest(query: string, o: W.Oracles, respond: (Request, nat) -> Reply,
                                     cache: Option<CacheView>, calls: seq<Request>)
    requires !AllSpace(query)
    requires o.analyzer(query).Return? && o.analyzer(query).value.coinId == ""
    ensures HandleQuery(query, o, respond, cache, calls) == (Response(400, ErrorBody(N.NoCoinDetail)), cache, calls)
  {
    W.EmptyCoinIsBadRequest(AgentInput(query), o, respond, cache, calls);
  }

  /** When the language model's calls fail only with ordinary exceptions, `process_query`
      raises one of three errors, and the 400s exactly for a blank query or a query the analyzer
      finds no coin in. */
  lemma QueryErrors(query: string, o: W.Oracles, respond: (Request, nat) -> Reply,
                    cache: Option<CacheView>, calls: seq<Request>)
    requires W.RaisesNoHttp(o)
    ensures var h := ProcessQuery(query, o, respond, cache, calls);
            && (h.result.Raise? ==>
                  || h.result.exc == HttpError(400, EmptyQueryDetail)
                  || h.result.exc == HttpError(400, N.NoCoinDetail)
                  || h.result.exc == HttpError(500, ProcessingDetail))
            && (h.result.Raise? && h.result.exc.status == 400 <==>
                  AllSpace(query) || (o.analyzer(query).Return? && o.analyzer(query).value.coinId == ""))
  {
    if !AllSpace(query) {
      W.RunRaisesHttpOnlyForNoCoin(AgentInput(query), o, respond, cache, calls);
    }
  }

  /** ... so `POST /query` answers 200, 400 or 500, 400 exactly in those two cases, and the
      general handler's text never reaches its client. */
  lemma QueryStatuses(query: string, o: W.Oracles, respond: (Request, nat) -> Reply,
                      cache: Option<CacheView>, calls: seq<Request>)
    requires W.RaisesNoHttp(o)
    ensures var r := HandleQuery(query, o, respond, cache, calls).0;
            && (r.status == 200 || r.status == 400 || r.status == 500)
            && (r.status == 400 <==>
                  AllSpace(query) || (o.analyzer(query).Return? && o.analyzer(query).value.coinId == ""))
            && r.body != ErrorBody(UnexpectedDetail)
  {
    QueryErrors(query, o, respond, cache, calls);
  }
}
