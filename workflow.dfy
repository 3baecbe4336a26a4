/** The agent's graph: its routing rule, the graph `create_workflow` builds, and the run that
    graph defines, first as a specification (`Step`, `RunFrom`, `Run`) and then as the loop that
    executes it against a live cache and upstream client (`RunWorkflow`). */
module Workflow {
  import opened Outcomes
  import opened Strings
  import opened JsonValues
  import opened CoinGecko
  import opened Redis
  import opened AgentState
  import N = Nodes
  import AF = AppFetcher

  /** The graph's nodes; `End` is LangGraph's `END`. */
  datatype Node = Analyze | Fetch | Reflect | Format | End

  /** The two labels `should_retry` can return. */
  datatype Route = ToReflect | ToFormat

  /** `should_retry`: reflect while fewer than three fetches have come back empty and no
      payload has been found. */
  function ShouldRetry(s: AgentState): (r: Route)
    ensures r == ToReflect <==> s.retryCount < 3 && NoData(s)
  {
    if s.retryCount < 3 && !(Present(s.currentPrice) || Present(s.historicalPrice)) then ToReflect
    else ToFormat
  }

  /** Where an edge leads: straight to a node, or by `should_retry` to one of two nodes. */
  datatype Target = Direct(to: Node) | Branch(onReflect: Node, onFormat: Node)

  /** The graph `create_workflow` builds. */
  function WorkflowEdges(): map<Node, Target>
  {
    map[Analyze := Direct(Fetch), Fetch := Branch(Reflect, Format), Reflect := Direct(Fetch), Format := Direct(End)]
  }

  /** The node the graph moves to after `at` has run and produced `s`. */
  function Successor(at: Node, s: AgentState): (next: Node)
    requires at != End
    ensures next != Analyze
    ensures at == Fetch ==> (next == Reflect <==> ShouldRetry(s) == ToReflect)
    ensures at == Fetch ==> (next == Format <==> ShouldRetry(s) == ToFormat)
    ensures at == Reflect ==> next == Fetch
    ensures at == Format ==> next == End
  {
    assert at in WorkflowEdges() by {
      assert at.Analyze? || at.Fetch? || at.Reflect? || at.Format?;
    }
    match WorkflowEdges()[at]
    case Direct(to) => to
    case Branch(onReflect, onFormat) => if ShouldRetry(s) == ToReflect then onReflect else onFormat
  }

  /** The builder `create_workflow` drives: named nodes, their outgoing edges and the entry. */
  class StateGraph {
    var nodes: set<Node>
    var edges: map<Node, Target>
    var entry: Option<Node>

    constructor()
      ensures nodes == {} && edges == map[] && entry == None
    {
      nodes := {};
      edges := map[];
      entry := None;
    }

    method AddNode(n: Node)
      modifies this`nodes
      ensures nodes == old(nodes) + {n}
    {
      nodes := nodes + {n};
    }

    method AddEdge(from: Node, to: Node)
      modifies this`edges
      ensures edges == old(edges)[from := Direct(to)]
    {
      edges := edges[from := Direct(to)];
    }

    method AddConditionalEdges(from: Node, onReflect: Node, onFormat: Node)
      modifies this`edges
      ensures edges == old(edges)[from := Branch(onReflect, onFormat)]
    {
      edges := edges[from := Branch(onReflect, onFormat)];
    }

    method SetEntryPoint(n: Node)
      modifies this`entry
      ensures entry == Some(n)
    {
      entry := Some(n);
    }

    /** Every edge starts at a declared node and leads to a declared node or to `End`, and the
        entry is declared: what compiling the graph checks. */
    predicate Compiles()
      reads this
    {
      && entry.Some? && entry.value in nodes
      && (forall n :: n in edges ==> n in nodes)
      && (forall n :: n in edges ==> Targets(edges[n]) <= nodes + {End})
    }
  }

  function Targets(t: Target): set<Node>
  {
    match t
    case Direct(to) => {to}
    case Branch(onReflect, onFormat) => {onReflect, onFormat}
  }

  /** `create_workflow`. */
  method CreateWorkflow() returns (g: StateGraph)
    ensures fresh(g)
    ensures g.nodes == {Analyze, Fetch, Reflect, Format}
    ensures g.edges == WorkflowEdges() && g.entry == Some(Analyze)
    ensures g.Compiles()
  {
    g := new StateGraph();
    g.AddNode(Analyze);
    g.AddNode(Fetch);
    g.AddNode(Reflect);
    g.AddNode(Format);
    g.SetEntryPoint(Analyze);
    g.AddEdge(Analyze, Fetch);
    g.AddConditionalEdges(Fetch, Reflect, Format);
    g.AddEdge(Reflect, Fetch);
    g.AddEdge(Format, End);
  }

  /** Every node but `End` has exactly one outgoing edge, and no edge leads back into the entry,
      so `analyze_query` can only run first. */
  lemma GraphShape()
    ensures forall n :: n in WorkflowEdges() <==> n != End
    ensures forall n :: n in WorkflowEdges() ==> Analyze !in Targets(WorkflowEdges()[n])
  {
  }

  /** The language model's three roles. The reflector is indexed by how many reflections came
      before, so successive calls may answer differently; `faults` gives the cache errors the
      k-th fetch meets. */
  datatype Oracles = Oracles(
    analyzer: string -> Outcome<QueryAnalysis>,
    reflector: (nat, N.ReflectRequest) -> Outcome<CryptoReflection>,
    formatter: N.FormatContext -> Outcome<string>,
    faults: nat -> AF.CacheFaults)

  /** A run in progress: the state, the node about to run, the nodes run so far, the output once
      `format_response` has run, and the cache and upstream call log the fetches share. */
  datatype Config = Config(
    state: AgentState,
    at: Node,
    trace: seq<Node>,
    output: Option<AgentOutput>,
    cache: Option<CacheView>,
    calls: seq<Request>)

  /** How a run ends: the output or the exception that escaped, and where it left everything. */
  datatype Final = Final(
    result: Outcome<AgentOutput>,
    state: AgentState,
    trace: seq<Node>,
    cache: Option<CacheView>,
    calls: seq<Request>)

  function Count(trace: seq<Node>, n: Node): nat
  {
    multiset(trace)[n]
  }

  function Rank(n: Node): nat
  {
    match n
    case Analyze => 4
    case Reflect => 3
    case Fetch => 2
    case Format => 1
    case End => 0
  }

  predicate NoData(s: AgentState)
  {
    !Present(s.currentPrice) && !Present(s.historicalPrice)
  }

  /** What the analyzer established and every later node keeps: a non-empty coin id that is the
      last of at most `reflections + 1` non-empty attempts, and a payload only of the queried kind. */
  predicate Analyzed(s: AgentState, reflections: nat)
  {
    && s.coinId != ""
    && 1 <= |s.coinAttempts| <= reflections + 1
    && s.coinAttempts[|s.coinAttempts| - 1] == s.coinId
    && "" !in s.coinAttempts
    && (Present(s.currentPrice) ==> s.queryType == Price && !Present(s.historicalPrice))
    && (Present(s.historicalPrice) ==> s.queryType == Historical)
  }

  /** The invariant of a run, by the node about to run, in terms of how many times each node has
      run: fetches and reflections alternate, `retry_count` counts the empty fetches unless the
      reflector forced it to 3, and at most three fetches and two reflections ever happen. */
  ghost predicate Inv(c: Config)
  {
    var s := c.state;
    var fetches := Count(c.trace, Fetch);
    var reflections := Count(c.trace, Reflect);
    match c.at
    case Analyze =>
      c.trace == [] && s.retryCount == 0 && NoData(s) && c.output.None?
    case Fetch =>
      && Ran(c) && Count(c.trace, Format) == 0 && c.output.None? && NoData(s)
      && fetches == reflections <= 2 && (s.retryCount == fetches || s.retryCount == 3)
    case Reflect =>
      && Ran(c) && Count(c.trace, Format) == 0 && c.output.None? && NoData(s)
      && fetches == reflections + 1 && s.retryCount == fetches <= 2
    case Format =>
      && Ran(c) && Count(c.trace, Format) == 0 && c.output.None?
      && fetches == reflections + 1 <= 3 && 0 <= s.retryCount <= 4
    case End =>
      && Ran(c) && Count(c.trace, Format) == 1 && c.output.Some?
      && fetches == reflections + 1 <= 3 && 0 <= s.retryCount <= 4
  }

  /** What holds once `analyze_query` has run: it ran exactly once and its findings stand. */
  ghost predicate Ran(c: Config)
  {
    c.trace != [] && Count(c.trace, Analyze) == 1 && Analyzed(c.state, Count(c.trace, Reflect))
  }

  /** The run moves forward: `retry_count` grows, or it stays and the node ranks lower. */
  predicate Progress(c: Config, d: Config)
  {
    || d.state.retryCount > c.state.retryCount
    || (d.state.retryCount == c.state.retryCount && Rank(d.at) < Rank(c.at))
  }

  /** One node runs and the graph follows its outgoing edge. */
  function Step(c: Config, o: Oracles, respond: (Request, nat) -> Reply): (r: Outcome<Config>)
    requires Inv(c) && c.at != End
    ensures r.Return? ==>
      && Inv(r.value) && Progress(c, r.value)
      && r.value.trace == c.trace + [c.at]
      && r.value.at == Successor(c.at, r.value.state)
      && r.value.state.retryCount >= c.state.retryCount
    ensures r.Raise? ==> c.at != Reflect || o.reflector(Count(c.trace, Reflect), N.ReflectRequestFor(c.state)).Raise?
  {
    match c.at
    case Analyze => StepAnalyze(c, o)
    case Fetch => StepFetch(c, o, respond)
    case Reflect => StepReflect(c, o)
    case Format => StepFormat(c, o)
  }

  function StepAnalyze(c: Config, o: Oracles): (r: Outcome<Config>)
    requires Inv(c) && c.at == Analyze
    ensures r.Return? ==> Inv(r.value) && Progress(c, r.value) && r.value.trace == [Analyze]
    ensures r.Return? ==> r.value.at == Fetch && r.value.state.retryCount == c.state.retryCount
    ensures r.Return? ==> r.value.cache == c.cache && r.value.calls == c.calls
  {
    var u :- N.AnalyzeQuery(c.state, o.analyzer(c.state.query));
    var s := Merge(c.state, u);
    Return(Config(s, Successor(Analyze, s), c.trace + [Analyze], c.output, c.cache, c.calls))
  }

  /** The fetch the `k`-th `fetch_data` makes through the read-through cache. */
  function FetchEffect(c: Config, o: Oracles, respond: (Request, nat) -> Reply): AF.Effect<Option<Json>>
  {
    AF.Fetch(c.cache, c.calls, respond, N.FetchRequestFor(c.state), o.faults(Count(c.trace, Fetch)))
  }

  function StepFetch(c: Config, o: Oracles, respond: (Request, nat) -> Reply): (r: Outcome<Config>)
    requires Inv(c) && c.at == Fetch
    ensures r.Return? ==> Inv(r.value) && Progress(c, r.value) && r.value.trace == c.trace + [Fetch]
    ensures r.Return? ==> r.value.at == Successor(Fetch, r.value.state)
    ensures r.Return? ==> r.value.state.retryCount >= c.state.retryCount
  {
    var e := FetchEffect(c, o, respond);
    var u :- N.FetchData(c.state, e.result);
    var s := Merge(c.state, u);
    FetchKeepsInv(c, e.result.value, e.cache, e.calls);
    Return(Config(s, Successor(Fetch, s), c.trace + [Fetch], c.output, e.cache, e.calls))
  }

  /** Whatever a fetch brings back, the run after it keeps the invariant and moves forward. */
  lemma FetchKeepsInv(c: Config, data: Option<Json>, cache: Option<CacheView>, calls: seq<Request>)
    requires Inv(c) && c.at == Fetch
    ensures var s := Merge(c.state, N.FetchData(c.state, Return(data)).value);
            var d := Config(s, Successor(Fetch, s), c.trace + [Fetch], c.output, cache, calls);
            Inv(d) && Progress(c, d)
  {
    var t := c.trace + [Fetch];
    assert Count(t, Fetch) == Count(c.trace, Fetch) + 1;
    assert Count(t, Reflect) == Count(c.trace, Reflect);
    assert Count(t, Analyze) == Count(c.trace, Analyze);
    assert Count(t, Format) == Count(c.trace, Format);
  }

  function StepReflect(c: Config, o: Oracles): (r: Outcome<Config>)
    requires Inv(c) && c.at == Reflect
    ensures r.Return? ==> Inv(r.value) && Progress(c, r.value) && r.value.trace == c.trace + [Reflect]
    ensures r.Return? ==> r.value.at == Fetch && r.value.state.retryCount >= c.state.retryCount
    ensures r.Raise? <==> o.reflector(Count(c.trace, Reflect), N.ReflectRequestFor(c.state)).Raise?
  {
    var verdict := o.reflector(Count(c.trace, Reflect), N.ReflectRequestFor(c.state));
    var u :- N.ReflectOnCoin(c.state, verdict);
    var s := Merge(c.state, u);
    Return(Config(s, Successor(Reflect, s), c.trace + [Reflect], c.output, c.cache, c.calls))
  }

  function StepFormat(c: Config, o: Oracles): (r: Outcome<Config>)
    requires Inv(c) && c.at == Format
    ensures r.Return? ==> Inv(r.value) && Progress(c, r.value) && r.value.trace == c.trace + [Format]
    ensures r.Return? ==> r.value.at == End && r.value.state == c.state
  {
    var out :- N.FormatResponse(c.state, o.formatter);
    Return(Config(c.state, Successor(Format, c.state), c.trace + [Format], Some(out), c.cache, c.calls))
  }

  /** The run from `c` until `End` or until a node raises. Whatever happens, `analyze_query` runs
      at most once, `fetch_data` at most three times and `reflect_on_coin` at most twice, and
      `retry_count` only grows, ending at most at 4. */
  function RunFrom(c: Config, o: Oracles, respond: (Request, nat) -> Reply): (f: Final)
    requires Inv(c)
    ensures Bounded(f.trace, f.state.retryCount) && c.state.retryCount <= f.state.retryCount
    ensures f.result.Return? ==> Count(f.trace, Format) == 1
    decreases 4 - c.state.retryCount, Rank(c.at)
  {
    InvBounded(c);
    if c.at == End then Final(Return(c.output.value), c.state, c.trace, c.cache, c.calls)
    else
      match Step(c, o, respond)
      case Raise(e) => Final(Raise(e), c.state, c.trace + [c.at], c.cache, c.calls)
      case Return(next) => RunFrom(next, o, respond)
  }

  /** A node that runs without raising hands the rest of the run to its successor. */
  lemma RunFromStep(c: Config, o: Oracles, respond: (Request, nat) -> Reply)
    requires Inv(c) && c.at != End && Step(c, o, respond).Return?
    ensures RunFrom(c, o, respond) == RunFrom(Step(c, o, respond).value, o, respond)
  {
  }

  /** At most one analysis, three fetches and two reflections, and `retry_count` in [0, 4]. */
  ghost predicate Bounded(trace: seq<Node>, retryCount: int)
  {
    && Count(trace, Analyze) <= 1 && Count(trace, Fetch) <= 3 && Count(trace, Reflect) <= 2
    && 0 <= retryCount <= 4
  }

  lemma CountSnoc(trace: seq<Node>, x: Node, n: Node)
    ensures Count(trace + [x], n) == Count(trace, n) + (if x == n then 1 else 0)
  {
    assert multiset(trace + [x]) == multiset(trace) + multiset{x};
  }

  /** The invariant keeps the run within its bounds, including the node about to run. */
  lemma InvBounded(c: Config)
    requires Inv(c)
    ensures Bounded(c.trace, c.state.retryCount)
    ensures c.at != End ==> Bounded(c.trace + [c.at], c.state.retryCount)
    ensures c.at == End ==> Count(c.trace, Format) == 1 && c.output.Some?
  {
    CountSnoc(c.trace, c.at, Analyze);
    CountSnoc(c.trace, c.at, Fetch);
    CountSnoc(c.trace, c.at, Reflect);
  }

  function Start(input: AgentInput, cache: Option<CacheView>, calls: seq<Request>): (c: Config)
    ensures Inv(c)
  {
    Config(InitialState(input), Analyze, [], None, cache, calls)
  }

  /** A whole run of the compiled graph on `input`, starting from the given cache and call log. */
  function Run(input: AgentInput, o: Oracles, respond: (Request, nat) -> Reply,
               cache: Option<CacheView>, calls: seq<Request>): Final
  {
    RunFrom(Start(input, cache, calls), o, respond)
  }

  /** Runs the node `at` on `state` and merges its update, fetching through the agent's
      read-through cache; the outcome is exactly one `Step` of the specification. */
  method ExecuteNode(state: AgentState, at: Node, output: Option<AgentOutput>, fetches: nat, reflections: nat,
                     ghost trace: seq<Node>, o: Oracles, redis: RedisCache?, api: CoinGeckoApi)
    returns (r: Outcome<(AgentState, Option<AgentOutput>)>)
    requires at != End && Inv(Config(state, at, trace, output, ViewOf(redis), api.calls))
    requires fetches == Count(trace, Fetch) && reflections == Count(trace, Reflect)
    modifies redis, api
    ensures var step := Step(old(Config(state, at, trace, output, ViewOf(redis), api.calls)), o, api.respond);
            && (r.Raise? ==> step == Raise(r.exc) && ViewOf(redis) == old(ViewOf(redis)) && api.calls == old(api.calls))
            && (r.Return? ==> step == Return(Config(r.value.0, Successor(at, r.value.0), trace + [at], r.value.1,
                                                    ViewOf(redis), api.calls)))
  {
    match at {
      case Analyze =>
        var u :- N.AnalyzeQuery(state, o.analyzer(state.query));
        r := Return((Merge(state, u), output));
      case Fetch =>
        var data;
        if state.queryType == Price {
          data := AF.GetCryptoPrice(redis, api, state.coinId, o.faults(fetches));
        } else {
          data := AF.GetHistoricalPrice(redis, api, state.coinId, state.days, o.faults(fetches));
        }
        AF.FetchRaisesOnlyOnCacheRead(old(ViewOf(redis)), old(api.calls), api.respond,
                                      N.FetchRequestFor(state), o.faults(fetches));
        var u :- N.FetchData(state, data);
        r := Return((Merge(state, u), output));
      case Reflect =>
        var u :- N.ReflectOnCoin(state, o.reflector(reflections, N.ReflectRequestFor(state)));
        r := Return((Merge(state, u), output));
      case Format =>
        var out :- N.FormatResponse(state, o.formatter);
        r := Return((state, Some(out)));
    }
  }

  /** Invoking the compiled graph: the loop that runs the node the graph is at, merges its update
      into the state and follows the edge until `END`. */
  method RunWorkflow(input: AgentInput, o: Oracles, redis: RedisCache?, api: CoinGeckoApi)
    returns (r: Outcome<AgentOutput>)
    modifies redis, api
    ensures var f := Run(input, o, api.respond, old(ViewOf(redis)), old(api.calls));
            r == f.result && ViewOf(redis) == f.cache && api.calls == f.calls
  {
    var state := InitialState(input);
    var at := Analyze;
    var output: Option<AgentOutput> := None;
    var fetches: nat := 0;
    var reflections: nat := 0;
    ghost var trace: seq<Node> := [];
    ghost var goal := Run(input, o, api.respond, ViewOf(redis), api.calls);
    while at != End
      invariant Inv(Config(state, at, trace, output, ViewOf(redis), api.calls))
      invariant fetches == Count(trace, Fetch) && reflections == Count(trace, Reflect)
      invariant RunFrom(Config(state, at, trace, output, ViewOf(redis), api.calls), o, api.respond) == goal
      decreases 4 - state.retryCount, Rank(at)
    {
      ghost var c := Config(state, at, trace, output, ViewOf(redis), api.calls);
      var next :- ExecuteNode(state, at, output, fetches, reflections, trace, o, redis, api);
      CountSnoc(trace, at, Fetch);
      CountSnoc(trace, at, Reflect);
      if at == Fetch {
        fetches := fetches + 1;
      } else if at == Reflect {
        reflections := reflections + 1;
      }
      trace := trace + [at];
      state, output := next.0, next.1;
      at := Successor(at, state);
    }
    r := Return(output.value);
  }

  /** The state after a successful analysis. */
  function Analyzed0(input: AgentInput, a: QueryAnalysis): AgentState
  {
    InitialState(input).(coinId := a.coinId, queryType := a.queryType, days := a.days, coinAttempts := [a.coinId])
  }

  /** An analysis without a coin id ends the run with a 400 before anything is fetched. */
  lemma EmptyCoinIsBadRequest(input: AgentInput, o: Oracles, respond: (Request, nat) -> Reply,
                              cache: Option<CacheView>, calls: seq<Request>)
    requires o.analyzer(input.query).Return? && o.analyzer(input.query).value.coinId == ""
    ensures Run(input, o, respond, cache, calls)
         == Final(Raise(HttpError(400, N.NoCoinDetail)), InitialState(input), [Analyze], cache, calls)
  {
  }

  /** A fetch that finds data stores it in the field of the queried kind and moves to
      `format_response`. */
  lemma FoundFetchStep(c: Config, o: Oracles, respond: (Request, nat) -> Reply)
    requires Inv(c) && c.at == Fetch
    requires FetchEffect(c, o, respond).result.Return? && Present(FetchEffect(c, o, respond).result.value)
    ensures var e := FetchEffect(c, o, respond);
            var s := if c.state.queryType == Price then c.state.(currentPrice := e.result.value)
                     else c.state.(historicalPrice := e.result.value);
            Step(c, o, respond) == Return(Config(s, Format, c.trace + [Fetch], c.output, e.cache, e.calls))
  {
  }

  /** A fetch that finds data goes straight to `format_response`, which returns that payload. */
  lemma FoundGoesToFormat(c: Config, o: Oracles, respond: (Request, nat) -> Reply)
    requires Inv(c) && c.at == Fetch
    requires FetchEffect(c, o, respond).result.Return? && Present(FetchEffect(c, o, respond).result.value)
    ensures var e := FetchEffect(c, o, respond);
            var f := RunFrom(c, o, respond);
            && f.trace == c.trace + [Fetch, Format]
            && f.state.coinAttempts == c.state.coinAttempts && f.state.retryCount == c.state.retryCount
            && f.cache == e.cache && f.calls == e.calls
            && (f.result.Return? ==> f.result.value.data == e.result.value.value)
  {
    FoundFetchStep(c, o, respond);
    var c1 := Step(c, o, respond).value;
    RunFromStep(c, o, respond);
    FormatEnds(c1, o, respond);
  }

  /** `format_response` ends the run: it changes nothing but the output, which is whatever the
      node returns or raises. */
  lemma FormatEnds(c: Config, o: Oracles, respond: (Request, nat) -> Reply)
    requires Inv(c) && c.at == Format
    ensures var f := RunFrom(c, o, respond);
            && f == Final(N.FormatResponse(c.state, o.formatter), c.state, c.trace + [Format], c.cache, c.calls)
  {
    var formatted := StepFormat(c, o);
    if formatted.Return? {
      RunFromStep(c, o, respond);
    }
  }

  /** When the first fetch finds data, the run is analyze, fetch, format: the reflector is never
      asked, the attempts stay `[coin_id]` and the output carries the fetched payload. */
  lemma FirstFetchSucceeds(input: AgentInput, o: Oracles, respond: (Request, nat) -> Reply,
                           cache: Option<CacheView>, calls: seq<Request>)
    requires o.analyzer(input.query).Return? && o.analyzer(input.query).value.coinId != ""
    requires var s := Analyzed0(input, o.analyzer(input.query).value);
             var e := AF.Fetch(cache, calls, respond, N.FetchRequestFor(s), o.faults(0));
             e.result.Return? && Present(e.result.value)
    ensures var a := o.analyzer(input.query).value;
            var e := AF.Fetch(cache, calls, respond, N.FetchRequestFor(Analyzed0(input, a)), o.faults(0));
            var f := Run(input, o, respond, cache, calls);
            && f.trace == [Analyze, Fetch, Format]
            && f.state.coinAttempts == [a.coinId] && f.state.retryCount == 0
            && f.cache == e.cache && f.calls == e.calls
            && (f.result.Return? ==> f.result.value.data == e.result.value.value)
  {
    var c0 := Start(input, cache, calls);
    var c1 := StepAnalyze(c0, o).value;
    assert c1.state == Analyzed0(input, o.analyzer(input.query).value);
    RunFromStep(c0, o, respond);
    FoundGoesToFormat(c1, o, respond);
  }

  /** When the reflector gives up, the graph still goes back to `fetch_data`, with `retry_count`
      forced to 3 and nothing else changed, so the next fetch repeats the previous request for
      the unchanged coin id. */
  lemma GivingUpFetchesAgain(c: Config, o: Oracles, respond: (Request, nat) -> Reply)
    requires Inv(c) && c.at == Reflect
    requires var v := o.reflector(Count(c.trace, Reflect), N.ReflectRequestFor(c.state));
             v.Return? && N.GivesUp(v.value)
    ensures var next := Config(c.state.(retryCount := 3), Fetch, c.trace + [Reflect], c.output, c.cache, c.calls);
            && Step(c, o, respond) == Return(next) && Inv(next)
            && FetchEffect(next, o, respond)
               == AF.Fetch(c.cache, c.calls, respond, N.FetchRequestFor(c.state), o.faults(Count(c.trace, Fetch)))
  {
    CountSnoc(c.trace, Reflect, Fetch);
  }

  /** ... and if that repeated fetch comes back empty too, `retry_count` reaches 4 and the run
      ends with the fallback message counting four attempts. */
  lemma GivingUpReportsFourAttempts(c: Config, o: Oracles, respond: (Request, nat) -> Reply)
    requires Inv(c) && c.at == Reflect
    requires var v := o.reflector(Count(c.trace, Reflect), N.ReflectRequestFor(c.state));
             v.Return? && N.GivesUp(v.value)
    requires var e := AF.Fetch(c.cache, c.calls, respond, N.FetchRequestFor(c.state), o.faults(Count(c.trace, Fetch)));
             e.result.Return? && !Present(e.result.value)
    ensures var f := RunFrom(c, o, respond);
            && f.result == Return(AgentOutput(N.FallbackMessage(c.state.coinId, 4), JObj(map[])))
            && f.state.retryCount == 4
            && f.trace == c.trace + [Reflect, Fetch, Format]
  {
    var next := Config(c.state.(retryCount := 3), Fetch, c.trace + [Reflect], c.output, c.cache, c.calls);
    GivingUpFetchesAgain(c, o, respond);
    RunFromStep(c, o, respond);
    assert RunFrom(c, o, respond) == RunFrom(next, o, respond);
    EmptyFetchAfterGivingUp(next, o, respond);
    AppendThree(c.trace, Reflect, Fetch, Format);
  }

  lemma AppendThree(trace: seq<Node>, x: Node, y: Node, z: Node)
    ensures trace + [x] + [y, z] == trace + [x, y, z]
  {
  }

  lemma EmptyFetchAfterGivingUp(c: Config, o: Oracles, respond: (Request, nat) -> Reply)
    requires Inv(c) && c.at == Fetch && c.state.retryCount == 3
    requires FetchEffect(c, o, respond).result.Return? && !Present(FetchEffect(c, o, respond).result.value)
    ensures var f := RunFrom(c, o, respond);
            && f.result == Return(AgentOutput(N.FallbackMessage(c.state.coinId, 4), JObj(map[])))
            && f.state == c.state.(retryCount := 4)
            && f.trace == c.trace + [Fetch, Format]
  {
    EmptyFetchStep(c, o, respond);
    var c1 := Step(c, o, respond).value;
    RunFromStep(c, o, respond);
    FormatEnds(c1, o, respond);
  }

  /** No upstream answer ever holds data and no cache stands in front of it. */
  ghost predicate NothingAvailable(c: Config, respond: (Request, nat) -> Reply)
  {
    c.cache.None? && forall req: Request, k: nat :: respond(req, k).Error?
  }

  /** The reflector always proposes another id. */
  ghost predicate NeverGivesUp(o: Oracles)
  {
    forall k: nat, q: N.ReflectRequest :: o.reflector(k, q).Return? && !N.GivesUp(o.reflector(k, q).value)
  }

  /** With no cache and nothing upstream, a fetch makes one call and comes back empty. */
  lemma NothingFetched(c: Config, o: Oracles, respond: (Request, nat) -> Reply)
    requires NothingAvailable(c, respond)
    ensures FetchEffect(c, o, respond) == AF.Effect(Return(None), None, c.calls + [N.FetchRequestFor(c.state)])
  {
    assert respond(N.FetchRequestFor(c.state), |c.calls|).Error?;
  }

  /** A fetch that comes back empty counts one more empty fetch and goes on to reflect while
      fewer than three have come back empty. */
  lemma EmptyFetchStep(c: Config, o: Oracles, respond: (Request, nat) -> Reply)
    requires Inv(c) && c.at == Fetch
    requires FetchEffect(c, o, respond).result.Return? && !Present(FetchEffect(c, o, respond).result.value)
    ensures var e := FetchEffect(c, o, respond);
            var s := c.state.(retryCount := c.state.retryCount + 1);
            Step(c, o, respond)
              == Return(Config(s, if s.retryCount < 3 then Reflect else Format, c.trace + [Fetch], c.output, e.cache, e.calls))
  {
  }

  /** A reflection that proposes a new id records it as the next attempt and fetches again. */
  lemma ReflectStep(c: Config, o: Oracles, respond: (Request, nat) -> Reply)
    requires Inv(c) && c.at == Reflect
    requires var v := o.reflector(Count(c.trace, Reflect), N.ReflectRequestFor(c.state));
             v.Return? && !N.GivesUp(v.value)
    ensures var id := o.reflector(Count(c.trace, Reflect), N.ReflectRequestFor(c.state)).value.refinedCoinId;
            var s := c.state.(coinId := id, coinAttempts := c.state.coinAttempts + [id]);
            Step(c, o, respond) == Return(Config(s, Fetch, c.trace + [Reflect], c.output, c.cache, c.calls))
  {
  }

  /** When nothing can be found and the reflector keeps proposing ids, the run exhausts its
      retries: three fetches, two reflections, three attempts recorded, `retry_count`
      3, and the fallback message counting three attempts. */
  lemma {:induction false} ExhaustedRetries(c: Config, o: Oracles, respond: (Request, nat) -> Reply)
    requires Inv(c) && c.at == Fetch
    requires c.state.retryCount == Count(c.trace, Fetch)
    requires |c.state.coinAttempts| == Count(c.trace, Reflect) + 1
    requires NothingAvailable(c, respond) && NeverGivesUp(o)
    ensures var f := RunFrom(c, o, respond);
            && f.result == Return(AgentOutput(N.FallbackMessage(f.state.coinId, 3), JObj(map[])))
            && f.state.retryCount == 3 && |f.state.coinAttempts| == 3
            && Count(f.trace, Fetch) == 3 && Count(f.trace, Reflect) == 2
            && |f.calls| == |c.calls| + 3 - Count(c.trace, Fetch)
    decreases 4 - c.state.retryCount, Rank(c.at)
  {
    NothingFetched(c, o, respond);
    EmptyFetchStep(c, o, respond);
    var next := Step(c, o, respond).value;
    CountSnoc(c.trace, Fetch, Fetch);
    CountSnoc(c.trace, Fetch, Reflect);
    RunFromStep(c, o, respond);
    if next.at == Format {
      FormatEnds(next, o, respond);
      CountSnoc(next.trace, Format, Fetch);
      CountSnoc(next.trace, Format, Reflect);
    } else {
      ExhaustedAfterReflecting(next, o, respond);
    }
  }

  /** The same from a reflection. */
  lemma {:induction false} ExhaustedAfterReflecting(c: Config, o: Oracles, respond: (Request, nat) -> Reply)
    requires Inv(c) && c.at == Reflect
    requires c.state.retryCount == Count(c.trace, Fetch)
    requires |c.state.coinAttempts| == Count(c.trace, Reflect) + 1
    requires NothingAvailable(c, respond) && NeverGivesUp(o)
    ensures var f := RunFrom(c, o, respond);
            && f.result == Return(AgentOutput(N.FallbackMessage(f.state.coinId, 3), JObj(map[])))
            && f.state.retryCount == 3 && |f.state.coinAttempts| == 3
            && Count(f.trace, Fetch) == 3 && Count(f.trace, Reflect) == 2
            && |f.calls| == |c.calls| + 3 - Count(c.trace, Fetch)
    decreases 4 - c.state.retryCount, Rank(c.at)
  {
    ReflectStep(c, o, respond);
    var next := Step(c, o, respond).value;
    CountSnoc(c.trace, Reflect, Fetch);
    CountSnoc(c.trace, Reflect, Reflect);
    RunFromStep(c, o, respond);
    ExhaustedRetries(next, o, respond);
  }

  /** The same from the start of a run whose analysis names a coin. */
  lemma ExhaustedRun(input: AgentInput, o: Oracles, respond: (Request, nat) -> Reply, calls: seq<Request>)
    requires o.analyzer(input.query).Return? && o.analyzer(input.query).value.coinId != ""
    requires forall req: Request, k: nat :: respond(req, k).Error?
    requires NeverGivesUp(o)
    ensures var f := Run(input, o, respond, None, calls);
            && f.result == Return(AgentOutput(N.FallbackMessage(f.state.coinId, 3), JObj(map[])))
            && Count(f.trace, Fetch) == 3 && Count(f.trace, Reflect) == 2
            && |f.state.coinAttempts| == 3 && |f.calls| == |calls| + 3
  {
    var c0 := Start(input, None, calls);
    var c1 := StepAnalyze(c0, o).value;
    RunFromStep(c0, o, respond);
    ExhaustedRetries(c1, o, respond);
  }

  /** The language model's calls fail, if at all, with ordinary exceptions, never with an
      `HTTPException`. */
  ghost predicate RaisesNoHttp(o: Oracles)
  {
    && (forall q :: o.analyzer(q).Raise? ==> o.analyzer(q).exc.Failure?)
    && (forall k: nat, q :: o.reflector(k, q).Raise? ==> o.reflector(k, q).exc.Failure?)
    && (forall ctx :: o.formatter(ctx).Raise? ==> o.formatter(ctx).exc.Failure?)
  }

  /** Under that assumption, the only `HTTPException` a run raises is the analyzer's 400, and
      it is raised by the first node, before anything is fetched. */
  lemma {:induction false} OnlyAnalysisRaisesHttp(c: Config, o: Oracles, respond: (Request, nat) -> Reply)
    requires Inv(c) && RaisesNoHttp(o)
    ensures var f := RunFrom(c, o, respond);
            f.result.Raise? && f.result.exc.HttpError? ==>
              && c.at == Analyze && f.result.exc == HttpError(400, N.NoCoinDetail)
              && o.analyzer(c.state.query).Return? && o.analyzer(c.state.query).value.coinId == ""
    decreases 4 - c.state.retryCount, Rank(c.at)
  {
    if c.at != End {
      var step := Step(c, o, respond);
      if step.Return? {
        OnlyAnalysisRaisesHttp(step.value, o, respond);
      } else if c.at == Fetch {
        var e := FetchEffect(c, o, respond);
        AF.FetchRaisesOnlyOnCacheRead(c.cache, c.calls, respond, N.FetchRequestFor(c.state),
                                      o.faults(Count(c.trace, Fetch)));
      }
    }
  }

  /** A whole run raises an `HTTPException` exactly when the analyzer finds no coin, and then it
      is the 400. */
  lemma RunRaisesHttpOnlyForNoCoin(input: AgentInput, o: Oracles, respond: (Request, nat) -> Reply,
                                   cache: Option<CacheView>, calls: seq<Request>)
    requires RaisesNoHttp(o)
    ensures var f := Run(input, o, respond, cache, calls);
            && (f.result.Raise? && f.result.exc.HttpError? <==>
                  o.analyzer(input.query).Return? && o.analyzer(input.query).value.coinId == "")
            && (f.result.Raise? && f.result.exc.HttpError? ==> f.result.exc == HttpError(400, N.NoCoinDetail))
  {
    OnlyAnalysisRaisesHttp(Start(input, cache, calls), o, respond);
    if o.analyzer(input.query).Return? && o.analyzer(input.query).value.coinId == "" {
      EmptyCoinIsBadRequest(input, o, respond, cache, calls);
    }
  }
}
