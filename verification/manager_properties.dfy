/** Properties of the registry operations and of the installation sequence. */
module ManagerProperties {
  import opened Outcomes
  import opened Strings
  import opened Rules
  import opened Queries
  import opened Environment
  import opened Compiler
  import opened Manager
  import CompilerProperties

  // ---------------------------------------------------------------------
  // Single operations

  /** registerStream never duplicates: a stream is recorded at most once,
      and a successful registration leaves it recorded exactly once. */
  lemma RegisterStreamNoDuplicates(engine: Engine, reg: Registry, streamUri: string)
    requires NoDuplicates(reg.streams)
    ensures var r := RegisterStream(engine, reg, streamUri);
      && NoDuplicates(r.registry.streams)
      && (r.outcome.Ok? ==> exists i | 0 <= i < |r.registry.streams| ::
            r.registry.streams[i] == streamUri
            && forall j | 0 <= j < |r.registry.streams| && r.registry.streams[j] == streamUri :: j == i)
  {
    var r := RegisterStream(engine, reg, streamUri);
    if r.outcome.Ok? {
      var s := r.registry.streams;
      var i :| 0 <= i < |s| && s[i] == streamUri;
      assert forall j | 0 <= j < |s| && s[j] == streamUri :: j == i;
    }
  }

  /** registerStream is idempotent: once it has succeeded, registering the
      same stream again calls nothing and changes nothing. */
  lemma RegisterStreamIdempotent(engine: Engine, reg: Registry, streamUri: string)
    requires RegisterStream(engine, reg, streamUri).outcome.Ok?
    ensures var once := RegisterStream(engine, reg, streamUri).registry;
      RegisterStream(engine, once, streamUri) == Step(once, [], Ok(()))
  {
  }

  /** A refused stream whose message says it already exists counts as
      registered; any other refusal fails and changes nothing. */
  lemma RegisterStreamRefusal(engine: Engine, reg: Registry, streamUri: string, message: string)
    requires streamUri !in reg.streams
    requires engine.registerStream(streamUri) == StreamRefused(message)
    ensures Contains(message, AlreadyExists) ==>
      RegisterStream(engine, reg, streamUri) ==
        Step(reg.(streams := reg.streams + [streamUri]), [StreamCall(streamUri)], Ok(()))
    ensures !Contains(message, AlreadyExists) ==>
      RegisterStream(engine, reg, streamUri) ==
        Step(reg, [StreamCall(streamUri)], Err(StreamNotRegistered(streamUri)))
  {
  }

  /** After registerQuery succeeds, getQuery finds the query under the URI
      the engine returned, and every other URI answers as before. */
  lemma RegisterQueryThenGetQuery(engine: Engine, reg: Registry, ruleId: string, name: string, query: Query, other: string)
    requires engine.registerQuery(name, query).QueryAccepted?
    ensures var uri := engine.registerQuery(name, query).uri;
      var after := RegisterQuery(engine, reg, ruleId, name, query).registry;
      && GetQuery(after, uri) == Some(query)
      && (other != uri ==> GetQuery(after, other) == GetQuery(reg, other))
      && uri in RuleQueries(after, ruleId)
  {
  }

  // ---------------------------------------------------------------------
  // Bookkeeping of a sequence of engine calls

  /** The stream one call adds: its stream, when the engine acknowledged it. */
  function StreamAdded(engine: Engine, c: EngineCall): seq<string>
  {
    if c.StreamCall? && StreamAcknowledged(engine.registerStream(c.streamUri)) then [c.streamUri] else []
  }

  /** Streams a sequence of calls adds. */
  function StreamsAdded(engine: Engine, calls: seq<EngineCall>): seq<string>
  {
    if calls == [] then [] else StreamAdded(engine, calls[0]) + StreamsAdded(engine, calls[1..])
  }

  /** The query URI one call adds: the one the engine returned for it. */
  function UriAdded(engine: Engine, c: EngineCall): seq<string>
  {
    if c.QueryCall? then
      match engine.registerQuery(c.name, c.query)
      case QueryAccepted(uri) => [uri]
      case _ => []
    else []
  }

  /** Query URIs a sequence of calls adds. */
  function UrisAdded(engine: Engine, calls: seq<EngineCall>): seq<string>
  {
    if calls == [] then [] else UriAdded(engine, calls[0]) + UrisAdded(engine, calls[1..])
  }

  lemma {:induction false} StreamsAddedAppend(engine: Engine, a: seq<EngineCall>, b: seq<EngineCall>)
    ensures StreamsAdded(engine, a + b) == StreamsAdded(engine, a) + StreamsAdded(engine, b)
    decreases |a|
  {
    if a == [] {
      assert a + b == b;
    } else {
      assert (a + b)[0] == a[0];
      assert (a + b)[1..] == a[1..] + b;
      var head := StreamAdded(engine, a[0]);
      assert StreamsAdded(engine, a + b) == head + StreamsAdded(engine, a[1..] + b);
      assert StreamsAdded(engine, a) == head + StreamsAdded(engine, a[1..]);
      StreamsAddedAppend(engine, a[1..], b);
    }
  }

  lemma {:induction false} UrisAddedAppend(engine: Engine, a: seq<EngineCall>, b: seq<EngineCall>)
    ensures UrisAdded(engine, a + b) == UrisAdded(engine, a) + UrisAdded(engine, b)
    decreases |a|
  {
    if a == [] {
      assert a + b == b;
    } else {
      assert (a + b)[0] == a[0];
      assert (a + b)[1..] == a[1..] + b;
      var head := UriAdded(engine, a[0]);
      assert UrisAdded(engine, a + b) == head + UrisAdded(engine, a[1..] + b);
      assert UrisAdded(engine, a) == head + UrisAdded(engine, a[1..]);
      UrisAddedAppend(engine, a[1..], b);
    }
  }

  /** A rule's entry in ruleQueriesMap, or None when it has none. */
  function RuleEntry(reg: Registry, ruleId: string): Option<seq<string>>
  {
    if ruleId in reg.ruleQueries then Some(reg.ruleQueries[ruleId]) else None
  }

  /** Exactly the acknowledged streams are appended. */
  ghost predicate StreamsAccounted(engine: Engine, before: Registry, after: Registry, calls: seq<EngineCall>)
  {
    after.streams == before.streams + StreamsAdded(engine, calls)
  }

  /** Exactly the returned URIs are appended to the rule's list. */
  ghost predicate RuleAccounted(engine: Engine, before: Registry, after: Registry, ruleId: string, calls: seq<EngineCall>)
  {
    RuleQueries(after, ruleId) == RuleQueries(before, ruleId) + UrisAdded(engine, calls)
  }

  /** No registered query is dropped, and every returned URI is registered. */
  ghost predicate QueriesKept(engine: Engine, before: Registry, after: Registry, calls: seq<EngineCall>)
  {
    && before.queries.Keys <= after.queries.Keys
    && forall u | u in UrisAdded(engine, calls) :: u in after.queries
  }

  /** No other rule's entry changes. */
  ghost predicate OthersUntouched(before: Registry, after: Registry, ruleId: string)
  {
    forall id | id != ruleId :: RuleEntry(after, id) == RuleEntry(before, id)
  }

  /** No call registers a stream that was already recorded. */
  ghost predicate OnlyNewStreams(streams: seq<string>, calls: seq<EngineCall>)
  {
    forall i | 0 <= i < |calls| && calls[i].StreamCall? :: calls[i].streamUri !in streams
  }

  /** Everything a sequence of registrations promises about the registry. */
  ghost predicate Sound(engine: Engine, before: Registry, after: Registry, ruleId: string, calls: seq<EngineCall>)
  {
    && StreamsAccounted(engine, before, after, calls)
    && RuleAccounted(engine, before, after, ruleId, calls)
    && QueriesKept(engine, before, after, calls)
    && OthersUntouched(before, after, ruleId)
    && OnlyNewStreams(before.streams, calls)
    && (Consistent(before) ==> Consistent(after))
  }

  lemma StreamsChain(engine: Engine, a: Registry, b: Registry, c: Registry, ab: seq<EngineCall>, bc: seq<EngineCall>)
    requires StreamsAccounted(engine, a, b, ab) && StreamsAccounted(engine, b, c, bc)
    ensures StreamsAccounted(engine, a, c, ab + bc)
  {
    StreamsAddedAppend(engine, ab, bc);
  }

  lemma RuleChain(engine: Engine, a: Registry, b: Registry, c: Registry, ruleId: string, ab: seq<EngineCall>, bc: seq<EngineCall>)
    requires RuleAccounted(engine, a, b, ruleId, ab) && RuleAccounted(engine, b, c, ruleId, bc)
    ensures RuleAccounted(engine, a, c, ruleId, ab + bc)
  {
    UrisAddedAppend(engine, ab, bc);
  }

  lemma QueriesChain(engine: Engine, a: Registry, b: Registry, c: Registry, ab: seq<EngineCall>, bc: seq<EngineCall>)
    requires QueriesKept(engine, a, b, ab) && QueriesKept(engine, b, c, bc)
    ensures QueriesKept(engine, a, c, ab + bc)
  {
    UrisAddedAppend(engine, ab, bc);
  }

  lemma NewStreamsChain(a: seq<string>, b: seq<string>, ab: seq<EngineCall>, bc: seq<EngineCall>)
    requires forall u | u in a :: u in b
    requires OnlyNewStreams(a, ab) && OnlyNewStreams(b, bc)
    ensures OnlyNewStreams(a, ab + bc)
  {
    forall i | 0 <= i < |ab + bc| && (ab + bc)[i].StreamCall?
      ensures (ab + bc)[i].streamUri !in a
    {
      if i >= |ab| {
        assert (ab + bc)[i] == bc[i - |ab|];
      }
    }
  }

  lemma SoundChain(engine: Engine, a: Registry, b: Registry, c: Registry, ruleId: string, ab: seq<EngineCall>, bc: seq<EngineCall>)
    requires Sound(engine, a, b, ruleId, ab)
    requires Sound(engine, b, c, ruleId, bc)
    ensures Sound(engine, a, c, ruleId, ab + bc)
  {
    StreamsChain(engine, a, b, c, ab, bc);
    RuleChain(engine, a, b, c, ruleId, ab, bc);
    QueriesChain(engine, a, b, c, ab, bc);
    NewStreamsChain(a.streams, b.streams, ab, bc);
  }

  lemma RegisterStreamSound(engine: Engine, reg: Registry, ruleId: string, streamUri: string)
    ensures var r := RegisterStream(engine, reg, streamUri);
      Sound(engine, reg, r.registry, ruleId, r.calls)
  {
    var r := RegisterStream(engine, reg, streamUri);
    if streamUri !in reg.streams {
      assert StreamsAdded(engine, r.calls) == if r.outcome.Ok? then [streamUri] else [];
      assert UrisAdded(engine, r.calls) == [];
    }
    if NoDuplicates(reg.streams) {
      RegisterStreamNoDuplicates(engine, reg, streamUri);
    }
  }

  lemma RegisterQuerySound(engine: Engine, reg: Registry, ruleId: string, name: string, query: Query)
    ensures var r := RegisterQuery(engine, reg, ruleId, name, query);
      Sound(engine, reg, r.registry, ruleId, r.calls)
  {
    var r := RegisterQuery(engine, reg, ruleId, name, query);
    assert StreamsAdded(engine, r.calls) == [];
    assert UrisAdded(engine, r.calls) ==
      if r.outcome.Ok? then [engine.registerQuery(name, query).uri] else [];
  }

  lemma AttachObserverSound(engine: Engine, reg: Registry, ruleId: string, queryUri: string, url: string)
    ensures var r := AttachObserver(engine, reg, queryUri, url);
      Sound(engine, reg, r.registry, ruleId, r.calls)
  {
    var r := AttachObserver(engine, reg, queryUri, url);
    assert StreamsAdded(engine, r.calls) == [];
    assert UrisAdded(engine, r.calls) == [];
  }

  lemma RegisterMainSound(engine: Engine, reg: Registry, ruleId: string, main: Planned)
    ensures var r := RegisterMain(engine, reg, ruleId, main);
      Sound(engine, reg, r.registry, ruleId, r.calls)
  {
    var s := RegisterStream(engine, reg, main.streamUri);
    RegisterStreamSound(engine, reg, ruleId, main.streamUri);
    if s.outcome.Ok? {
      var q := RegisterQuery(engine, s.registry, ruleId, main.name, main.query);
      RegisterQuerySound(engine, s.registry, ruleId, main.name, main.query);
      SoundChain(engine, reg, s.registry, q.registry, ruleId, s.calls, q.calls);
    }
  }

  lemma RegisterTunnelSound(cfg: Config, engine: Engine, reg: Registry, ruleId: string, tunnel: Planned)
    ensures var r := RegisterTunnel(cfg, engine, reg, ruleId, tunnel);
      Sound(engine, reg, r.registry, ruleId, r.calls)
  {
    var s := RegisterStream(engine, reg, tunnel.streamUri);
    RegisterStreamSound(engine, reg, ruleId, tunnel.streamUri);
    if s.outcome.Ok? {
      var q := RegisterQuery(engine, s.registry, ruleId, tunnel.name, tunnel.query);
      RegisterQuerySound(engine, s.registry, ruleId, tunnel.name, tunnel.query);
      SoundChain(engine, reg, s.registry, q.registry, ruleId, s.calls, q.calls);
      if q.outcome.Ok? {
        var o := AttachObserver(engine, q.registry, q.outcome.value, cfg.sdaUrl);
        AttachObserverSound(engine, q.registry, ruleId, q.outcome.value, cfg.sdaUrl);
        SoundChain(engine, reg, q.registry, o.registry, ruleId, s.calls + q.calls, o.calls);
      }
    }
  }

  lemma RegisterPlanSound(cfg: Config, engine: Engine, reg: Registry, ruleId: string, plan: Plan)
    ensures var r := RegisterPlan(cfg, engine, reg, ruleId, plan);
      Sound(engine, reg, r.registry, ruleId, r.calls)
  {
    match plan.tunnel
    case None => RegisterMainSound(engine, reg, ruleId, plan.main);
    case Some(tunnel) =>
      var t := RegisterTunnel(cfg, engine, reg, ruleId, tunnel);
      RegisterTunnelSound(cfg, engine, reg, ruleId, tunnel);
      if t.outcome.Ok? {
        var m := RegisterMain(engine, t.registry, ruleId, plan.main);
        RegisterMainSound(engine, t.registry, ruleId, plan.main);
        SoundChain(engine, reg, t.registry, m.registry, ruleId, t.calls, m.calls);
      }
  }

  // ---------------------------------------------------------------------
  // Engine replies

  /** A step succeeds exactly when the engine acknowledged every call it
      made; otherwise its last call is the first one refused, and the step
      fails as that refusal is reported. */
  predicate AnsweredBy<T>(engine: Engine, r: Step<T>)
  {
    && (r.outcome.Ok? <==> AllAcknowledged(engine, r.calls))
    && (r.outcome.Err? ==> StoppedAtRefusal(engine, r.calls, r.outcome.failure))
  }

  lemma AcknowledgedAppend(engine: Engine, a: seq<EngineCall>, b: seq<EngineCall>)
    ensures AllAcknowledged(engine, a + b) <==> AllAcknowledged(engine, a) && AllAcknowledged(engine, b)
  {
    if AllAcknowledged(engine, a) && AllAcknowledged(engine, b) {
      forall i | 0 <= i < |a + b| ensures Acknowledged(engine, (a + b)[i]) {
        if i >= |a| { assert (a + b)[i] == b[i - |a|]; }
      }
    }
    if AllAcknowledged(engine, a + b) {
      forall i | 0 <= i < |a| ensures Acknowledged(engine, a[i]) {
        assert (a + b)[i] == a[i];
      }
      forall i | 0 <= i < |b| ensures Acknowledged(engine, b[i]) {
        assert (a + b)[|a| + i] == b[i];
      }
    }
  }

  lemma RefusalAfter(engine: Engine, a: seq<EngineCall>, b: seq<EngineCall>, f: Failure)
    requires AllAcknowledged(engine, a) && StoppedAtRefusal(engine, b, f)
    ensures StoppedAtRefusal(engine, a + b, f)
  {
    assert (a + b)[..|a + b| - 1] == a + b[..|b| - 1];
    assert (a + b)[|a + b| - 1] == b[|b| - 1];
    AcknowledgedAppend(engine, a, b[..|b| - 1]);
  }

  /** A step of one call is answered by that call's reply. */
  lemma OneCallAnswered<T>(engine: Engine, r: Step<T>)
    requires |r.calls| == 1
    requires r.outcome.Ok? <==> Acknowledged(engine, r.calls[0])
    requires r.outcome.Err? ==> Refusal(engine, r.calls[0]) == r.outcome.failure
    ensures AnsweredBy(engine, r)
  {
    assert r.calls[..0] == [];
  }

  /** A known stream makes no call and succeeds; a new one is registered
      exactly when the engine accepts it or says it already exists. */
  lemma RegisterStreamAnswered(engine: Engine, reg: Registry, streamUri: string)
    ensures AnsweredBy(engine, RegisterStream(engine, reg, streamUri))
  {
    if streamUri !in reg.streams {
      OneCallAnswered(engine, RegisterStream(engine, reg, streamUri));
    }
  }

  /** A query is registered exactly when the engine returns its URI; a
      QueryErrorException is an internal error, a ServerErrorException a
      DDA connection failure. */
  lemma RegisterQueryAnswered(engine: Engine, reg: Registry, ruleId: string, name: string, query: Query)
    ensures AnsweredBy(engine, RegisterQuery(engine, reg, ruleId, name, query))
  {
    OneCallAnswered(engine, RegisterQuery(engine, reg, ruleId, name, query));
  }

  /** An observer is attached exactly when the engine attaches it; an
      ObserverErrorException is an SDA connection failure, a
      ServerErrorException a DDA connection failure. */
  lemma AttachObserverAnswered(engine: Engine, reg: Registry, queryUri: string, url: string)
    ensures AnsweredBy(engine, AttachObserver(engine, reg, queryUri, url))
  {
    OneCallAnswered(engine, AttachObserver(engine, reg, queryUri, url));
  }

  lemma RegisterMainAnswered(engine: Engine, reg: Registry, ruleId: string, main: Planned)
    ensures AnsweredBy(engine, RegisterMain(engine, reg, ruleId, main))
  {
    var s := RegisterStream(engine, reg, main.streamUri);
    RegisterStreamAnswered(engine, reg, main.streamUri);
    if s.outcome.Ok? {
      var q := RegisterQuery(engine, s.registry, ruleId, main.name, main.query);
      RegisterQueryAnswered(engine, s.registry, ruleId, main.name, main.query);
      AcknowledgedAppend(engine, s.calls, q.calls);
      if q.outcome.Err? { RefusalAfter(engine, s.calls, q.calls, q.outcome.failure); }
    }
  }

  lemma RegisterTunnelAnswered(cfg: Config, engine: Engine, reg: Registry, ruleId: string, tunnel: Planned)
    ensures AnsweredBy(engine, RegisterTunnel(cfg, engine, reg, ruleId, tunnel))
  {
    var s := RegisterStream(engine, reg, tunnel.streamUri);
    RegisterStreamAnswered(engine, reg, tunnel.streamUri);
    if s.outcome.Ok? {
      var q := RegisterQuery(engine, s.registry, ruleId, tunnel.name, tunnel.query);
      RegisterQueryAnswered(engine, s.registry, ruleId, tunnel.name, tunnel.query);
      AcknowledgedAppend(engine, s.calls, q.calls);
      if q.outcome.Err? {
        RefusalAfter(engine, s.calls, q.calls, q.outcome.failure);
      } else {
        var o := AttachObserver(engine, q.registry, q.outcome.value, cfg.sdaUrl);
        AttachObserverAnswered(engine, q.registry, q.outcome.value, cfg.sdaUrl);
        AcknowledgedAppend(engine, s.calls + q.calls, o.calls);
        if o.outcome.Err? { RefusalAfter(engine, s.calls + q.calls, o.calls, o.outcome.failure); }
      }
    }
  }

  lemma RegisterPlanAnswered(cfg: Config, engine: Engine, reg: Registry, ruleId: string, plan: Plan)
    ensures AnsweredBy(engine, RegisterPlan(cfg, engine, reg, ruleId, plan))
  {
    match plan.tunnel
    case None => RegisterMainAnswered(engine, reg, ruleId, plan.main);
    case Some(tunnel) =>
      var t := RegisterTunnel(cfg, engine, reg, ruleId, tunnel);
      RegisterTunnelAnswered(cfg, engine, reg, ruleId, tunnel);
      if t.outcome.Ok? {
        var m := RegisterMain(engine, t.registry, ruleId, plan.main);
        RegisterMainAnswered(engine, t.registry, ruleId, plan.main);
        AcknowledgedAppend(engine, t.calls, m.calls);
        if m.outcome.Err? { RefusalAfter(engine, t.calls, m.calls, m.outcome.failure); }
      }
  }

  // ---------------------------------------------------------------------
  // Installation

  /** Whatever the engine answers, installRule leaves the registry holding
      exactly what it had plus what the engine acknowledged: acknowledged
      streams appended, returned query URIs recorded and appended to this
      rule's list (nothing is rolled back after a later failure), other
      rules untouched, no known stream sent to the engine again, and a
      consistent registry stays consistent. */
  lemma InstallRuleSound(cfg: Config, lib: Library, engine: Engine, reg: Registry, rule: MonitoringRule,
                         sdaRequired: bool, sdaReturnedMetric: string, names: RandomNames)
    requires NamesAvailable(lib, reg, rule, sdaRequired, names)
    ensures var r := InstallRule(cfg, lib, engine, reg, rule, sdaRequired, sdaReturnedMetric, names);
      Sound(engine, reg, r.registry, rule.id, r.calls)
  {
    match CompileRule(cfg, lib, reg, rule, sdaRequired, sdaReturnedMetric, names)
    case Err(_) =>
    case Ok(plan) => RegisterPlanSound(cfg, engine, reg, rule.id, plan);
  }

  /** installRule succeeds exactly when the rule compiles and the engine
      acknowledges every call; a compiled rule that fails stops at the first
      refused call and reports that refusal (a refused stream, "Internal
      error" for a refused query, an SDA or DDA connection failure). */
  lemma InstallRuleAnswered(cfg: Config, lib: Library, engine: Engine, reg: Registry, rule: MonitoringRule,
                            sdaRequired: bool, sdaReturnedMetric: string, names: RandomNames)
    requires NamesAvailable(lib, reg, rule, sdaRequired, names)
    ensures var r := InstallRule(cfg, lib, engine, reg, rule, sdaRequired, sdaReturnedMetric, names);
      && (r.outcome.Ok? <==>
            CompileRule(cfg, lib, reg, rule, sdaRequired, sdaReturnedMetric, names).Ok? && AllAcknowledged(engine, r.calls))
      && (r.outcome.Err? && CompileRule(cfg, lib, reg, rule, sdaRequired, sdaReturnedMetric, names).Ok? ==>
            StoppedAtRefusal(engine, r.calls, r.outcome.failure))
  {
    match CompileRule(cfg, lib, reg, rule, sdaRequired, sdaReturnedMetric, names)
    case Err(_) =>
    case Ok(plan) => RegisterPlanAnswered(cfg, engine, reg, rule.id, plan);
  }

  /** compileRule succeeds exactly on the rules createActionQuery accepts,
      and otherwise reports the main query's failure: the tunnel query never
      fails once the main query compiled. */
  lemma CompileRuleAcceptsExactly(cfg: Config, lib: Library, reg: Registry, rule: MonitoringRule, sdaRequired: bool,
                                  sdaReturnedMetric: string, names: RandomNames)
    requires NamesAvailable(lib, reg, rule, sdaRequired, names)
    ensures var c := CompileRule(cfg, lib, reg, rule, sdaRequired, sdaReturnedMetric, names);
      var name := NewQueryName(lib, reg.queries, rule.id, "", names.main);
      var streamUri := SourceStreamUri(cfg, if sdaRequired then sdaReturnedMetric else rule.metricName);
      && (c.Ok? <==> CompilerProperties.Compilable(lib, rule, sdaRequired))
      && (c.Err? ==> c == Err(ActionQuery(cfg, lib, rule, name, streamUri, sdaRequired).failure))
  {
    var name := NewQueryName(lib, reg.queries, rule.id, "", names.main);
    var streamUri := SourceStreamUri(cfg, if sdaRequired then sdaReturnedMetric else rule.metricName);
    CompilerProperties.ActionQueryAcceptsExactly(cfg, lib, rule, name, streamUri, sdaRequired);
    if sdaRequired && ActionQuery(cfg, lib, rule, name, streamUri, sdaRequired).Ok? {
      var tunnelName := NewQueryName(lib, reg.queries, rule.id, TunnelSuffix, names.tunnel);
      CompilerProperties.TunnelCompilesAfterMain(cfg, lib, rule, name, streamUri, sdaRequired,
                                                 tunnelName, SourceStreamUri(cfg, rule.metricName));
    }
  }

  /** A successful installation registers the rule's queries: the main query
      only, or with the secondary aggregator the tunnel query first and then
      the main query, each under a name no registered query had, and the
      rule ends up owning exactly the URIs the engine returned for them. */
  lemma InstallRuleRegistersPlannedQueries(cfg: Config, lib: Library, engine: Engine, reg: Registry, rule: MonitoringRule,
                                           sdaRequired: bool, sdaReturnedMetric: string, names: RandomNames)
    requires NamesAvailable(lib, reg, rule, sdaRequired, names)
    requires InstallRule(cfg, lib, engine, reg, rule, sdaRequired, sdaReturnedMetric, names).outcome.Ok?
    ensures CompileRule(cfg, lib, reg, rule, sdaRequired, sdaReturnedMetric, names).Ok?
    ensures var plan := CompileRule(cfg, lib, reg, rule, sdaRequired, sdaReturnedMetric, names).value;
      var r := InstallRule(cfg, lib, engine, reg, rule, sdaRequired, sdaReturnedMetric, names);
      && QueryCalls(r.calls) ==
           (if sdaRequired then [QueryCall(plan.tunnel.value.name, plan.tunnel.value.query)] else [])
           + [QueryCall(plan.main.name, plan.main.query)]
      && |UrisAdded(engine, r.calls)| == (if sdaRequired then 2 else 1)
      && plan.main.streamUri in r.registry.streams
  {
    var plan := CompileRule(cfg, lib, reg, rule, sdaRequired, sdaReturnedMetric, names).value;
    match plan.tunnel
    case None =>
      MainCallsAdded(engine, reg, rule.id, plan.main);
    case Some(tunnel) =>
      var t := RegisterTunnel(cfg, engine, reg, rule.id, tunnel);
      TunnelCallsAdded(cfg, engine, reg, rule.id, tunnel);
      MainCallsAdded(engine, t.registry, rule.id, plan.main);
      var m := RegisterMain(engine, t.registry, rule.id, plan.main);
      QueryCallsAppend(t.calls, m.calls);
      UrisAddedAppend(engine, t.calls, m.calls);
  }

  /** The query registrations among a sequence of calls. */
  function QueryCalls(calls: seq<EngineCall>): seq<EngineCall>
  {
    if calls == [] then [] else QueryCallOf(calls[0]) + QueryCalls(calls[1..])
  }

  function QueryCallOf(c: EngineCall): seq<EngineCall>
  {
    if c.QueryCall? then [c] else []
  }

  lemma {:induction false} QueryCallsAppend(a: seq<EngineCall>, b: seq<EngineCall>)
    ensures QueryCalls(a + b) == QueryCalls(a) + QueryCalls(b)
    decreases |a|
  {
    if a == [] {
      assert a + b == b;
    } else {
      assert (a + b)[0] == a[0];
      assert (a + b)[1..] == a[1..] + b;
      var head := QueryCallOf(a[0]);
      assert QueryCalls(a + b) == head + QueryCalls(a[1..] + b);
      assert QueryCalls(a) == head + QueryCalls(a[1..]);
      QueryCallsAppend(a[1..], b);
    }
  }

  lemma MainCallsAdded(engine: Engine, reg: Registry, ruleId: string, main: Planned)
    requires RegisterMain(engine, reg, ruleId, main).outcome.Ok?
    ensures var r := RegisterMain(engine, reg, ruleId, main);
      && QueryCalls(r.calls) == [QueryCall(main.name, main.query)]
      && |UrisAdded(engine, r.calls)| == 1
  {
    var s := RegisterStream(engine, reg, main.streamUri);
    var q := RegisterQuery(engine, s.registry, ruleId, main.name, main.query);
    QueryCallsAppend(s.calls, q.calls);
    UrisAddedAppend(engine, s.calls, q.calls);
    assert QueryCalls(s.calls) == [] && UrisAdded(engine, s.calls) == [];
    assert QueryCalls(q.calls) == q.calls;
  }

  lemma TunnelCallsAdded(cfg: Config, engine: Engine, reg: Registry, ruleId: string, tunnel: Planned)
    requires RegisterTunnel(cfg, engine, reg, ruleId, tunnel).outcome.Ok?
    ensures var r := RegisterTunnel(cfg, engine, reg, ruleId, tunnel);
      && QueryCalls(r.calls) == [QueryCall(tunnel.name, tunnel.query)]
      && |UrisAdded(engine, r.calls)| == 1
  {
    var s := RegisterStream(engine, reg, tunnel.streamUri);
    var q := RegisterQuery(engine, s.registry, ruleId, tunnel.name, tunnel.query);
    var o := AttachObserver(engine, q.registry, q.outcome.value, cfg.sdaUrl);
    QueryCallsAppend(s.calls, q.calls);
    QueryCallsAppend(s.calls + q.calls, o.calls);
    UrisAddedAppend(engine, s.calls, q.calls);
    UrisAddedAppend(engine, s.calls + q.calls, o.calls);
    assert QueryCalls(s.calls) == [] && UrisAdded(engine, s.calls) == [];
    assert QueryCalls(o.calls) == [] && UrisAdded(engine, o.calls) == [];
    assert QueryCalls(q.calls) == q.calls;
  }

  /** The stream call registerStream makes: none for a known stream. */
  function StreamCallIfNew(streams: seq<string>, streamUri: string): seq<EngineCall>
  {
    if streamUri in streams then [] else [StreamCall(streamUri)]
  }

  lemma MainCallSequence(engine: Engine, reg: Registry, ruleId: string, main: Planned)
    requires RegisterMain(engine, reg, ruleId, main).outcome.Ok?
    ensures RegisterMain(engine, reg, ruleId, main).calls ==
      StreamCallIfNew(reg.streams, main.streamUri) + [QueryCall(main.name, main.query)]
  {
  }

  lemma TunnelCallSequence(cfg: Config, engine: Engine, reg: Registry, ruleId: string, tunnel: Planned)
    requires RegisterTunnel(cfg, engine, reg, ruleId, tunnel).outcome.Ok?
    ensures var r := RegisterTunnel(cfg, engine, reg, ruleId, tunnel);
      && r.calls == StreamCallIfNew(reg.streams, tunnel.streamUri)
           + [QueryCall(tunnel.name, tunnel.query),
              ObserverCall(engine.registerQuery(tunnel.name, tunnel.query).uri, cfg.sdaUrl)]
      && (forall u :: u in r.registry.streams <==> u in reg.streams || u == tunnel.streamUri)
  {
    var s := RegisterStream(engine, reg, tunnel.streamUri);
    var q := RegisterQuery(engine, s.registry, ruleId, tunnel.name, tunnel.query);
    var o := AttachObserver(engine, q.registry, q.outcome.value, cfg.sdaUrl);
    assert s.calls + q.calls + o.calls == s.calls + (q.calls + o.calls);
  }

  /** The calls of a successful tunnel step, if there is a tunnel query. */
  function TunnelCalls(cfg: Config, engine: Engine, streams: seq<string>, tunnel: Option<Planned>): seq<EngineCall>
  {
    match tunnel
    case None => []
    case Some(t) =>
      StreamCallIfNew(streams, t.streamUri) + [QueryCall(t.name, t.query)]
        + match engine.registerQuery(t.name, t.query)
          case QueryAccepted(uri) => [ObserverCall(uri, cfg.sdaUrl)]
          case _ => []
  }

  /** The stream the tunnel step records, if there is a tunnel query. */
  function TunnelStreams(tunnel: Option<Planned>): seq<string>
  {
    if tunnel.Some? then [tunnel.value.streamUri] else []
  }

  lemma PlanCallSequence(cfg: Config, engine: Engine, reg: Registry, ruleId: string, plan: Plan)
    requires RegisterPlan(cfg, engine, reg, ruleId, plan).outcome.Ok?
    ensures RegisterPlan(cfg, engine, reg, ruleId, plan).calls ==
      TunnelCalls(cfg, engine, reg.streams, plan.tunnel)
        + StreamCallIfNew(reg.streams + TunnelStreams(plan.tunnel), plan.main.streamUri)
        + [QueryCall(plan.main.name, plan.main.query)]
  {
    match plan.tunnel
    case None =>
      MainCallSequence(engine, reg, ruleId, plan.main);
      assert reg.streams + TunnelStreams(plan.tunnel) == reg.streams;
    case Some(tunnel) =>
      var t := RegisterTunnel(cfg, engine, reg, ruleId, tunnel);
      TunnelCallSequence(cfg, engine, reg, ruleId, tunnel);
      MainCallSequence(engine, t.registry, ruleId, plan.main);
      assert StreamCallIfNew(t.registry.streams, plan.main.streamUri)
        == StreamCallIfNew(reg.streams + [tunnel.streamUri], plan.main.streamUri);
  }

  /** The order of a successful installation: with the secondary aggregator,
      the tunnel stream (the rule's own metric), the tunnel query and the
      observer on the returned URI; then the main stream and the main query.
      A stream already recorded, or recorded by the tunnel step, is not sent
      again. */
  lemma InstallRuleCallSequence(cfg: Config, lib: Library, engine: Engine, reg: Registry, rule: MonitoringRule,
                                sdaRequired: bool, sdaReturnedMetric: string, names: RandomNames)
    requires NamesAvailable(lib, reg, rule, sdaRequired, names)
    requires InstallRule(cfg, lib, engine, reg, rule, sdaRequired, sdaReturnedMetric, names).outcome.Ok?
    ensures CompileRule(cfg, lib, reg, rule, sdaRequired, sdaReturnedMetric, names).Ok?
    ensures var plan := CompileRule(cfg, lib, reg, rule, sdaRequired, sdaReturnedMetric, names).value;
      && (plan.tunnel.Some? <==> sdaRequired)
      && (sdaRequired ==> plan.tunnel.value.streamUri == SourceStreamUri(cfg, rule.metricName))
      && InstallRule(cfg, lib, engine, reg, rule, sdaRequired, sdaReturnedMetric, names).calls ==
           TunnelCalls(cfg, engine, reg.streams, plan.tunnel)
             + StreamCallIfNew(reg.streams + TunnelStreams(plan.tunnel), plan.main.streamUri)
             + [QueryCall(plan.main.name, plan.main.query)]
  {
    var plan := CompileRule(cfg, lib, reg, rule, sdaRequired, sdaReturnedMetric, names).value;
    PlanCallSequence(cfg, engine, reg, rule.id, plan);
  }

  /** With the secondary aggregator, the compiled main query reads the
      aggregator's metric stream and projects the raw value (INPUT) even when
      the rule aggregates; the tunnel query reads the rule's own metric. */
  lemma SecondaryAggregationPlan(cfg: Config, lib: Library, reg: Registry, rule: MonitoringRule,
                                 sdaReturnedMetric: string, names: RandomNames)
    requires NamesAvailable(lib, reg, rule, true, names)
    requires CompileRule(cfg, lib, reg, rule, true, sdaReturnedMetric, names).Ok?
    ensures var plan := CompileRule(cfg, lib, reg, rule, true, sdaReturnedMetric, names).value;
      && plan.tunnel.Some?
      && plan.main.streamUri == cfg.streamsUri + sdaReturnedMetric
      && plan.tunnel.value.streamUri == cfg.streamsUri + rule.metricName
      && Projection(plan.main.query.where.select)[1] == Input
      && Projection(plan.tunnel.value.query.select) == [Target, Input, Timestamp]
  {
    var plan := CompileRule(cfg, lib, reg, rule, true, sdaReturnedMetric, names).value;
    var name := NewQueryName(lib, reg.queries, rule.id, "", names.main);
    CompilerProperties.ActionQueryShape(cfg, lib, rule, name, plan.main.streamUri, true);
  }
}
