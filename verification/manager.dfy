/** The registry half of CSPARQLEngineManager: which streams and queries have
    been registered with the stream engine, which queries belong to which
    rule, and the installation sequence that fills it. The registry is a value
    threaded through each operation; every operation also returns the calls
    it made to the engine, in order. */
module Manager {
  import opened Outcomes
  import opened Strings
  import opened Rules
  import opened Queries
  import opened Environment
  import opened Compiler

  /** Suffix of the tunnel query's name. */
  const TunnelSuffix: string := "Tunnel"

  /** Message fragment by which a refused stream counts as registered. */
  const AlreadyExists: string := "already exists"

  /** registeredStreams, registeredQueries (query URI to the query whose text
      was registered) and ruleQueriesMap. */
  datatype Registry = Registry(
    streams: seq<string>,
    queries: map<string, Query>,
    ruleQueries: map<string, seq<string>>)

  /** The registry of a freshly started manager. */
  const Empty: Registry := Registry([], map[], map[])

  /** New registry, the engine calls made, and how the operation ended. */
  datatype Step<+T> = Step(registry: Registry, calls: seq<EngineCall>, outcome: Result<T>)

  predicate NoDuplicates(s: seq<string>)
  {
    forall i, j | 0 <= i < j < |s| :: s[i] != s[j]
  }

  /** What every reachable registry satisfies: no stream twice, and every
      query URI owned by a rule is a registered query. */
  predicate Consistent(reg: Registry)
  {
    && NoDuplicates(reg.streams)
    && forall id, u | id in reg.ruleQueries && u in reg.ruleQueries[id] :: u in reg.queries
  }

  /** The query URIs a rule owns; none when it has no entry. */
  function RuleQueries(reg: Registry, ruleId: string): seq<string>
  {
    if ruleId in reg.ruleQueries then reg.ruleQueries[ruleId] else []
  }

  /** getQuery */
  function GetQuery(reg: Registry, queryUri: string): (r: Option<Query>)
    ensures r.Some? <==> queryUri in reg.queries
    ensures r.Some? ==> r.value == reg.queries[queryUri]
  {
    if queryUri in reg.queries then Some(reg.queries[queryUri]) else None
  }

  // ---------------------------------------------------------------------
  // Query names

  /** The random names leave a free one: the loop of getNewQueryName ends. */
  predicate FreeDrawExists(taken: map<string, Query>, draws: seq<string>, suffix: string)
  {
    exists k | 0 <= k < |draws| :: draws[k] + suffix !in taken
  }

  /** The first random name that, with the suffix, is not taken. */
  function FirstFreeDraw(taken: map<string, Query>, draws: seq<string>, suffix: string): (name: string)
    requires FreeDrawExists(taken, draws, suffix)
    ensures name !in taken
    ensures exists k | 0 <= k < |draws| ::
      name == draws[k] + suffix && forall j | 0 <= j < k :: draws[j] + suffix in taken
    decreases |draws|
  {
    if draws[0] + suffix !in taken then draws[0] + suffix
    else
      assert FreeDrawExists(taken, draws[1..], suffix) by {
        var k :| 0 <= k < |draws| && draws[k] + suffix !in taken;
        assert draws[1..][k - 1] == draws[k];
      }
      var name := FirstFreeDraw(taken, draws[1..], suffix);
      ghost var k :| 0 <= k < |draws[1..]| &&
        name == draws[1..][k] + suffix && forall j | 0 <= j < k :: draws[1..][j] + suffix in taken;
      assert name == draws[k + 1] + suffix;
      assert forall j | 0 <= j < k + 1 :: draws[j] + suffix in taken by {
        forall j | 0 <= j < k + 1 ensures draws[j] + suffix in taken {
          if j > 0 { assert draws[j] == draws[1..][j - 1]; }
        }
      }
      name
  }

  /** The name getNewQueryName tries first. */
  function FirstCandidate(lib: Library, ruleId: string, suffix: string): string
  {
    lib.escapeName(ruleId) + suffix
  }

  /** getNewQueryName terminates with these random names. */
  predicate NameAvailable(lib: Library, taken: map<string, Query>, ruleId: string, suffix: string, draws: seq<string>)
  {
    FirstCandidate(lib, ruleId, suffix) !in taken || FreeDrawExists(taken, draws, suffix)
  }

  /** getNewQueryName: the escaped rule id plus suffix, or, while that is a
      key of the registered queries, random names plus suffix. */
  function NewQueryName(lib: Library, taken: map<string, Query>, ruleId: string, suffix: string, draws: seq<string>): (name: string)
    requires NameAvailable(lib, taken, ruleId, suffix, draws)
    ensures EndsWith(name, suffix)
    ensures name !in taken
    ensures FirstCandidate(lib, ruleId, suffix) !in taken ==> name == FirstCandidate(lib, ruleId, suffix)
    ensures FirstCandidate(lib, ruleId, suffix) in taken ==>
      exists k | 0 <= k < |draws| :: name == draws[k] + suffix && forall j | 0 <= j < k :: draws[j] + suffix in taken
  {
    var first := FirstCandidate(lib, ruleId, suffix);
    var name := if first !in taken then first else FirstFreeDraw(taken, draws, suffix);
    assert exists p :: name == p + suffix;
    name
  }

  // ---------------------------------------------------------------------
  // Engine steps

  /** Whether the engine's reply to a stream registration counts as success. */
  predicate StreamAcknowledged(reply: StreamReply)
  {
    reply.StreamAccepted? || Contains(reply.message, AlreadyExists)
  }

  /** Whether the engine acknowledged a call: a stream accepted or already
      known to it, a query given a URI, an observer attached. */
  predicate Acknowledged(engine: Engine, c: EngineCall)
  {
    match c
    case StreamCall(u) => StreamAcknowledged(engine.registerStream(u))
    case QueryCall(n, q) => engine.registerQuery(n, q).QueryAccepted?
    case ObserverCall(u, url) => engine.addObserver(u, url).ObserverAttached?
  }

  /** The failure installRule reports for a call the engine did not
      acknowledge. */
  function Refusal(engine: Engine, c: EngineCall): Failure
    requires !Acknowledged(engine, c)
  {
    match c
    case StreamCall(u) => StreamNotRegistered(u)
    case QueryCall(n, q) => if engine.registerQuery(n, q).QueryRefused? then InternalError else DdaConnectionFailed
    case ObserverCall(u, url) => if engine.addObserver(u, url).ObserverRefused? then SdaConnectionFailed else DdaConnectionFailed
  }

  predicate AllAcknowledged(engine: Engine, calls: seq<EngineCall>)
  {
    forall i | 0 <= i < |calls| :: Acknowledged(engine, calls[i])
  }

  /** The calls end at the first one the engine did not acknowledge, and the
      failure is the one that call is reported as. */
  predicate StoppedAtRefusal(engine: Engine, calls: seq<EngineCall>, f: Failure)
  {
    && |calls| > 0
    && AllAcknowledged(engine, calls[..|calls| - 1])
    && !Acknowledged(engine, calls[|calls| - 1])
    && Refusal(engine, calls[|calls| - 1]) == f
  }

  /** registerStream: nothing to do for a known stream; otherwise ask the
      engine and record the stream once it is acknowledged. */
  function RegisterStream(engine: Engine, reg: Registry, streamUri: string): (r: Step<()>)
    ensures streamUri in reg.streams ==> r == Step(reg, [], Ok(()))
    ensures streamUri !in reg.streams ==> r.calls == [StreamCall(streamUri)]
    ensures r.outcome.Ok? ==> streamUri in r.registry.streams
    ensures r.outcome.Ok? <==> streamUri in reg.streams || StreamAcknowledged(engine.registerStream(streamUri))
    ensures r.outcome.Ok? && streamUri !in reg.streams ==> r.registry.streams == reg.streams + [streamUri]
    ensures r.outcome.Err? ==> r.registry == reg && r.outcome.failure == StreamNotRegistered(streamUri)
    ensures r.registry.queries == reg.queries && r.registry.ruleQueries == reg.ruleQueries
  {
    if streamUri in reg.streams then Step(reg, [], Ok(()))
    else if StreamAcknowledged(engine.registerStream(streamUri)) then
      Step(reg.(streams := reg.streams + [streamUri]), [StreamCall(streamUri)], Ok(()))
    else Step(reg, [StreamCall(streamUri)], Err(StreamNotRegistered(streamUri)))
  }

  /** registerQuery: ask the engine; on success record the returned URI's
      query and append the URI to the rule's list, creating it if absent. */
  function RegisterQuery(engine: Engine, reg: Registry, ruleId: string, name: string, query: Query): (r: Step<string>)
    ensures r.calls == [QueryCall(name, query)]
    ensures r.outcome.Ok? <==> engine.registerQuery(name, query).QueryAccepted?
    ensures r.outcome.Ok? ==>
      var uri := engine.registerQuery(name, query).uri;
      && r.outcome.value == uri
      && r.registry.streams == reg.streams
      && r.registry.queries == reg.queries[uri := query]
      && r.registry.ruleQueries == reg.ruleQueries[ruleId := RuleQueries(reg, ruleId) + [uri]]
    ensures r.outcome.Err? ==> r.registry == reg
    ensures engine.registerQuery(name, query).QueryRefused? ==> r.outcome == Err(InternalError)
    ensures engine.registerQuery(name, query).QueryServerDown? ==> r.outcome == Err(DdaConnectionFailed)
  {
    match engine.registerQuery(name, query)
    case QueryAccepted(uri) =>
      Step(reg.(queries := reg.queries[uri := query],
                ruleQueries := reg.ruleQueries[ruleId := RuleQueries(reg, ruleId) + [uri]]),
           [QueryCall(name, query)], Ok(uri))
    case QueryRefused => Step(reg, [QueryCall(name, query)], Err(InternalError))
    case QueryServerDown => Step(reg, [QueryCall(name, query)], Err(DdaConnectionFailed))
  }

  /** attachObserver: ask the engine to push the query's results to a URL. */
  function AttachObserver(engine: Engine, reg: Registry, queryUri: string, url: string): (r: Step<()>)
    ensures r.registry == reg
    ensures r.calls == [ObserverCall(queryUri, url)]
    ensures r.outcome.Ok? <==> engine.addObserver(queryUri, url).ObserverAttached?
    ensures engine.addObserver(queryUri, url).ObserverRefused? ==> r.outcome == Err(SdaConnectionFailed)
    ensures engine.addObserver(queryUri, url).ObserverServerDown? ==> r.outcome == Err(DdaConnectionFailed)
  {
    match engine.addObserver(queryUri, url)
    case ObserverAttached => Step(reg, [ObserverCall(queryUri, url)], Ok(()))
    case ObserverRefused => Step(reg, [ObserverCall(queryUri, url)], Err(SdaConnectionFailed))
    case ObserverServerDown => Step(reg, [ObserverCall(queryUri, url)], Err(DdaConnectionFailed))
  }

  // ---------------------------------------------------------------------
  // Installation

  /** A compiled query waiting to be registered, with its source stream. */
  datatype Planned = Planned(name: string, streamUri: string, query: Query)

  /** The main query and, with the secondary aggregator, the tunnel query. */
  datatype Plan = Plan(main: Planned, tunnel: Option<Planned>)

  /** getSourceStreamURI */
  function SourceStreamUri(cfg: Config, metric: string): string
  {
    cfg.streamsUri + metric
  }

  /** The random names let every name installRule asks for be found. */
  predicate NamesAvailable(lib: Library, reg: Registry, rule: MonitoringRule, sdaRequired: bool, names: RandomNames)
  {
    && NameAvailable(lib, reg.queries, rule.id, "", names.main)
    && (sdaRequired ==> NameAvailable(lib, reg.queries, rule.id, TunnelSuffix, names.tunnel))
  }

  /** The construction half of installRule: names, stream URIs and queries,
      all computed before anything is registered. */
  function CompileRule(cfg: Config, lib: Library, reg: Registry, rule: MonitoringRule, sdaRequired: bool,
                       sdaReturnedMetric: string, names: RandomNames): (r: Result<Plan>)
    requires NamesAvailable(lib, reg, rule, sdaRequired, names)
    ensures r.Ok? ==>
      && r.value.main.name !in reg.queries
      && r.value.main.streamUri == SourceStreamUri(cfg, if sdaRequired then sdaReturnedMetric else rule.metricName)
      && ActionQuery(cfg, lib, rule, r.value.main.name, r.value.main.streamUri, sdaRequired) == Ok(r.value.main.query)
      && (r.value.tunnel.Some? <==> sdaRequired)
    ensures r.Ok? && sdaRequired ==>
      && r.value.tunnel.value.name !in reg.queries
      && EndsWith(r.value.tunnel.value.name, TunnelSuffix)
      && r.value.tunnel.value.streamUri == SourceStreamUri(cfg, rule.metricName)
      && TunnelQuery(cfg, rule, r.value.tunnel.value.name, r.value.tunnel.value.streamUri) == Ok(r.value.tunnel.value.query)
  {
    var metric := if sdaRequired then sdaReturnedMetric else rule.metricName;
    var name := NewQueryName(lib, reg.queries, rule.id, "", names.main);
    var streamUri := SourceStreamUri(cfg, metric);
    var query :- ActionQuery(cfg, lib, rule, name, streamUri, sdaRequired);
    if sdaRequired then
      var tunnelName := NewQueryName(lib, reg.queries, rule.id, TunnelSuffix, names.tunnel);
      var tunnelStreamUri := SourceStreamUri(cfg, rule.metricName);
      var tunnel :- TunnelQuery(cfg, rule, tunnelName, tunnelStreamUri);
      Ok(Plan(Planned(name, streamUri, query), Some(Planned(tunnelName, tunnelStreamUri, tunnel))))
    else
      Ok(Plan(Planned(name, streamUri, query), None))
  }

  /** Call shapes of a successful main registration: the stream call is
      skipped when the stream is already known. */
  const MainShapes: set<seq<CallKind>> := {[QueryKind], [StreamKind, QueryKind]}

  /** Call shapes of a successful tunnel registration. */
  const TunnelShapes: set<seq<CallKind>> := {[QueryKind, ObserverKind], [StreamKind, QueryKind, ObserverKind]}

  lemma KindsAppend(a: seq<EngineCall>, b: seq<EngineCall>)
    ensures Kinds(a + b) == Kinds(a) + Kinds(b)
  {
  }

  lemma KindsOfStreamStep(engine: Engine, reg: Registry, streamUri: string)
    ensures Kinds(RegisterStream(engine, reg, streamUri).calls) in {[], [StreamKind]}
  {
    if streamUri !in reg.streams {
      assert Kinds([StreamCall(streamUri)]) == [StreamKind];
    }
  }

  /** Register a query's stream, then the query. */
  function RegisterMain(engine: Engine, reg: Registry, ruleId: string, main: Planned): (r: Step<()>)
    ensures r.outcome.Ok? ==> Kinds(r.calls) in MainShapes && main.streamUri in r.registry.streams
  {
    var s := RegisterStream(engine, reg, main.streamUri);
    if s.outcome.Err? then s
    else
      var q := RegisterQuery(engine, s.registry, ruleId, main.name, main.query);
      KindsOfStreamStep(engine, reg, main.streamUri);
      KindsAppend(s.calls, q.calls);
      assert Kinds(q.calls) == [QueryKind];
      assert Kinds(s.calls + q.calls) in MainShapes by {
        if Kinds(s.calls) == [] {
          assert Kinds(s.calls) + [QueryKind] == [QueryKind];
        } else {
          assert Kinds(s.calls) + [QueryKind] == [StreamKind, QueryKind];
        }
      }
      Step(q.registry, s.calls + q.calls, if q.outcome.Ok? then Ok(()) else Err(q.outcome.failure))
  }

  /** Register the tunnel query's stream, then the query, then attach the
      secondary aggregator as an observer of the URI the engine returned. */
  function RegisterTunnel(cfg: Config, engine: Engine, reg: Registry, ruleId: string, tunnel: Planned): (r: Step<()>)
    ensures r.outcome.Ok? ==> Kinds(r.calls) in TunnelShapes
    ensures r.outcome.Ok? ==>
      && engine.registerQuery(tunnel.name, tunnel.query).QueryAccepted?
      && |r.calls| > 0
      && r.calls[|r.calls| - 1] == ObserverCall(engine.registerQuery(tunnel.name, tunnel.query).uri, cfg.sdaUrl)
  {
    var s := RegisterStream(engine, reg, tunnel.streamUri);
    if s.outcome.Err? then s
    else
      var q := RegisterQuery(engine, s.registry, ruleId, tunnel.name, tunnel.query);
      if q.outcome.Err? then Step(q.registry, s.calls + q.calls, Err(q.outcome.failure))
      else
        var o := AttachObserver(engine, q.registry, q.outcome.value, cfg.sdaUrl);
        KindsOfStreamStep(engine, reg, tunnel.streamUri);
        KindsAppend(s.calls, q.calls);
        KindsAppend(s.calls + q.calls, o.calls);
        assert Kinds(q.calls) == [QueryKind];
        assert Kinds(o.calls) == [ObserverKind];
        assert Kinds(s.calls + q.calls + o.calls) in TunnelShapes by {
          if Kinds(s.calls) == [] {
            assert Kinds(s.calls) + [QueryKind] + [ObserverKind] == [QueryKind, ObserverKind];
          } else {
            assert Kinds(s.calls) + [QueryKind] + [ObserverKind] == [StreamKind, QueryKind, ObserverKind];
          }
        }
        Step(o.registry, s.calls + q.calls + o.calls, o.outcome)
  }

  /** The registration half of installRule, with no rollback: a failure
      leaves everything registered before it in place. */
  function RegisterPlan(cfg: Config, engine: Engine, reg: Registry, ruleId: string, plan: Plan): (r: Step<()>)
    ensures r.outcome.Ok? && plan.tunnel.None? ==> Kinds(r.calls) in MainShapes
    ensures r.outcome.Ok? && plan.tunnel.Some? ==>
      exists i | 0 <= i <= |r.calls| :: Kinds(r.calls[..i]) in TunnelShapes && Kinds(r.calls[i..]) in MainShapes
  {
    match plan.tunnel
    case None => RegisterMain(engine, reg, ruleId, plan.main)
    case Some(tunnel) =>
      var t := RegisterTunnel(cfg, engine, reg, ruleId, tunnel);
      if t.outcome.Err? then t
      else
        var m := RegisterMain(engine, t.registry, ruleId, plan.main);
        var calls := t.calls + m.calls;
        assert calls[..|t.calls|] == t.calls && calls[|t.calls|..] == m.calls;
        Step(m.registry, calls, m.outcome)
  }

  /** installRule: compile everything first, then register the tunnel
      stream, tunnel query and observer (secondary aggregator only), then
      the main stream and the main query. */
  function InstallRule(cfg: Config, lib: Library, engine: Engine, reg: Registry, rule: MonitoringRule,
                       sdaRequired: bool, sdaReturnedMetric: string, names: RandomNames): (r: Step<()>)
    requires NamesAvailable(lib, reg, rule, sdaRequired, names)
    ensures CompileRule(cfg, lib, reg, rule, sdaRequired, sdaReturnedMetric, names).Err? ==>
      r == Step(reg, [], Err(CompileRule(cfg, lib, reg, rule, sdaRequired, sdaReturnedMetric, names).failure))
    ensures r.outcome.Ok? && !sdaRequired ==> Kinds(r.calls) in MainShapes
    ensures r.outcome.Ok? && sdaRequired ==>
      exists i | 0 <= i <= |r.calls| :: Kinds(r.calls[..i]) in TunnelShapes && Kinds(r.calls[i..]) in MainShapes
  {
    match CompileRule(cfg, lib, reg, rule, sdaRequired, sdaReturnedMetric, names)
    case Err(f) => Step(reg, [], Err(f))
    case Ok(plan) => RegisterPlan(cfg, engine, reg, rule.id, plan)
  }
}
