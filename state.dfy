/** The records the agent's graph passes around: the structured answers of the language model,
    the agent state with its defaults, the workflow's input and output, and the partial updates
    the nodes return. */
module AgentState {
  import opened Outcomes
  import opened JsonValues

  /** `Literal["price", "historical"]`. */
  datatype QueryType = Price | Historical

  /** What the analyzer extracts from a query; `days` is optional. */
  datatype QueryAnalysis = QueryAnalysis(coinId: string, queryType: QueryType, days: Option<int>)

  /** The reflector's verdict on a failed coin id. */
  datatype CryptoReflection = CryptoReflection(refinedCoinId: string, sufficient: bool, reasoning: string)

  /** `CryptoAgentState`. */
  datatype AgentState = AgentState(
    query: string,
    coinId: string,
    queryType: QueryType,
    days: Option<int>,
    currentPrice: Option<Json>,
    historicalPrice: Option<Json>,
    coinAttempts: seq<string>,
    retryCount: int)

  /** `CryptoAgentInput`: a run is started from a query alone. */
  datatype AgentInput = AgentInput(query: string)

  /** `CryptoAgentOutput`: the text answer and the payload behind it. */
  datatype AgentOutput = AgentOutput(result: string, data: Json)

  /** A state nothing has been done to yet. */
  predicate Pristine(s: AgentState)
  {
    && s.coinId == ""
    && s.queryType == Price
    && s.days.None?
    && s.currentPrice.None?
    && s.historicalPrice.None?
    && s.coinAttempts == []
    && s.retryCount == 0
  }

  /** The state a run starts from: the input's query, every other field at its default. */
  function InitialState(input: AgentInput): (s: AgentState)
    ensures s.query == input.query && Pristine(s)
    ensures forall t: AgentState :: t.query == input.query && Pristine(t) ==> t == s
  {
    AgentState(input.query, "", Price, None, None, None, [], 0)
  }

  /** A node's return value: the keys it sets, each `Some` with the new value. Keys a node can
      set to `None` (only `days`) carry an optional value. */
  datatype Update = Update(
    coinId: Option<string>,
    queryType: Option<QueryType>,
    days: Option<Option<int>>,
    currentPrice: Option<Json>,
    historicalPrice: Option<Json>,
    coinAttempts: Option<seq<string>>,
    retryCount: Option<int>)

  /** The update that sets nothing. */
  const NoUpdate := Update(None, None, None, None, None, None, None)

  function Pick<T>(update: Option<T>, current: T): T
  {
    if update.Some? then update.value else current
  }

  /** The graph merges a node's update into the state: every key the update sets overwrites the
      field, every other field keeps its value. */
  function Merge(s: AgentState, u: Update): (t: AgentState)
    ensures u == NoUpdate ==> t == s
    ensures t.query == s.query
  {
    s.(coinId := Pick(u.coinId, s.coinId),
       queryType := Pick(u.queryType, s.queryType),
       days := Pick(u.days, s.days),
       currentPrice := if u.currentPrice.Some? then u.currentPrice else s.currentPrice,
       historicalPrice := if u.historicalPrice.Some? then u.historicalPrice else s.historicalPrice,
       coinAttempts := Pick(u.coinAttempts, s.coinAttempts),
       retryCount := Pick(u.retryCount, s.retryCount))
  }
}
