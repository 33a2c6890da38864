/** Concrete installations showing the behaviours of the code as written. */
module Scenarios {
  import opened Outcomes
  import opened Rules
  import opened Queries
  import opened Environment
  import opened Compiler
  import opened Manager
  import CompilerProperties

  const Cfg: Config := Config("http://dda/streams/", "http://kb/", "http://sda/observer")

  /** Names escape to themselves; every function takes one parameter, the input. */
  const Lib: Library := Library(s => s, f => 1, (f, k) => 0)

  /** The URI the accepting engine files a query under. */
  function Filed(name: string): string
  {
    "http://dda/queries/" + name
  }

  /** An engine that accepts everything and files queries under their names. */
  const Accepting: Engine := Engine(
    s => StreamAccepted,
    (n, q) => QueryAccepted(Filed(n)),
    (u, c) => ObserverAttached)

  const NoDraws: RandomNames := RandomNames([], [])

  function CpuRule(aggregation: Option<MetricAggregation>, actions: seq<Action>): MonitoringRule
  {
    MonitoringRule("cpuRule", "CpuUtilization", 60, 60, Some("METRIC > 0.8"), aggregation,
                   [MonitoredTarget("frontend1", VM)], actions)
  }

  const Publish: Action := Action(OutputMetric, [Parameter("name", "HighCpu")])

  /** An ungrouped rule on a VM is rejected by the graph pattern, after the
      select lists were built, and nothing is registered. */
  lemma UngroupedVmRuleRejected()
    ensures InstallRule(Cfg, Lib, Accepting, Empty, CpuRule(None, [Publish]), false, "", NoDraws)
      == Step(Empty, [], Err(UnsupportedTargetClass(VM)))
  {
    var rule := CpuRule(None, [Publish]);
    CompilerProperties.GraphPatternTable(rule);
    CompilerProperties.ActionDispatch(rule, false);
  }

  /** Any action other than OutputMetric is not implemented; the first such
      name is reported and nothing is registered. */
  lemma OtherActionRejected()
    ensures var rule := CpuRule(Some(MetricAggregation("Average", CloudProvider, [])),
                                [Publish, Action("EnableMonitoringRule", [])]);
      InstallRule(Cfg, Lib, Accepting, Empty, rule, false, "", NoDraws)
        == Step(Empty, [], Err(UnsupportedAction("EnableMonitoringRule")))
  {
    var rule := CpuRule(Some(MetricAggregation("Average", CloudProvider, [])),
                        [Publish, Action("EnableMonitoringRule", [])]);
    CompilerProperties.OutputVariables(rule, false);
    CompilerProperties.ActionDispatch(rule, false);
    assert rule.actions[0].name == OutputMetric && rule.actions[1].name != OutputMetric;
    assert AddActions(rule, false) == Err(UnsupportedAction("EnableMonitoringRule"));
    var name := NewQueryName(Lib, Empty.queries, rule.id, "", NoDraws.main);
    assert ActionQuery(Cfg, Lib, rule, name, SourceStreamUri(Cfg, rule.metricName), false)
      == Err(UnsupportedAction("EnableMonitoringRule"));
  }

  /** A rule averaged per cloud provider compiles to a single main query on
      the rule's metric stream, grouped by "?CloudProvider". */
  lemma CloudProviderAverageCompiles()
    ensures var rule := CpuRule(Some(MetricAggregation("Average", CloudProvider, [])), [Publish]);
      var c := CompileRule(Cfg, Lib, Empty, rule, false, "", NoDraws);
      && c.Ok?
      && c.value.tunnel == None
      && c.value.main.name == "cpuRule"
      && c.value.main.streamUri == "http://dda/streams/CpuUtilization"
      && c.value.main.query.where.groupBy == Some(Grouping(CloudProvider))
  {
    var rule := CpuRule(Some(MetricAggregation("Average", CloudProvider, [])), [Publish]);
    var name := NewQueryName(Lib, Empty.queries, rule.id, "", NoDraws.main);
    assert Lib.escapeName(rule.id) == "cpuRule";
    assert name == "cpuRule";
    var streamUri := SourceStreamUri(Cfg, rule.metricName);
    assert streamUri == "http://dda/streams/CpuUtilization";
    assert Lib.parameterCount("Average") == 1 && Lib.parameterIndex("Average", InputVariable) == 0;
    assert CompilerProperties.Compilable(Lib, rule, false);
    CompilerProperties.ActionQueryAcceptsExactly(Cfg, Lib, rule, name, streamUri, false);
    var q := ActionQuery(Cfg, Lib, rule, name, streamUri, false);
    assert q.Ok?;
    assert q.value.where.groupBy == Some(Grouping(CloudProvider)) by {
      CompilerProperties.ActionQueryShape(Cfg, Lib, rule, name, streamUri, false);
    }
    assert CompileRule(Cfg, Lib, Empty, rule, false, "", NoDraws) == Ok(Plan(Planned(name, streamUri, q.value), None));
  }

  /** With the accepting engine, registering a query on a fresh manager
      records its stream, files it under its URI and gives it to the rule. */
  lemma AcceptingMainRegistration(ruleId: string, main: Planned)
    ensures var uri := Filed(main.name);
      RegisterMain(Accepting, Empty, ruleId, main) ==
        Step(Registry([main.streamUri], map[uri := main.query], map[ruleId := [uri]]),
             [StreamCall(main.streamUri), QueryCall(main.name, main.query)], Ok(()))
  {
    assert Accepting.registerStream(main.streamUri) == StreamAccepted;
    var uri := Filed(main.name);
    assert Accepting.registerQuery(main.name, main.query) == QueryAccepted(uri);
    var s := RegisterStream(Accepting, Empty, main.streamUri);
    assert s == Step(Registry([main.streamUri], map[], map[]), [StreamCall(main.streamUri)], Ok(()));
    var q := RegisterQuery(Accepting, s.registry, ruleId, main.name, main.query);
    assert RuleQueries(s.registry, ruleId) + [uri] == [uri];
    assert q.registry == Registry([main.streamUri], map[uri := main.query], map[ruleId := [uri]]);
  }

  /** Installing that rule registers the stream and then the query, and the
      rule owns the one URI the engine returned. */
  lemma CloudProviderAverageInstalls()
    ensures var rule := CpuRule(Some(MetricAggregation("Average", CloudProvider, [])), [Publish]);
      var r := InstallRule(Cfg, Lib, Accepting, Empty, rule, false, "", NoDraws);
      && r.outcome == Ok(())
      && r.registry.streams == ["http://dda/streams/CpuUtilization"]
      && r.registry.ruleQueries == map["cpuRule" := [Filed("cpuRule")]]
      && r.registry.queries.Keys == {Filed("cpuRule")}
      && r.registry.queries[Filed("cpuRule")].where.groupBy == Some(Grouping(CloudProvider))
      && |r.calls| == 2
  {
    var rule := CpuRule(Some(MetricAggregation("Average", CloudProvider, [])), [Publish]);
    CloudProviderAverageCompiles();
    var plan := CompileRule(Cfg, Lib, Empty, rule, false, "", NoDraws).value;
    AcceptingMainRegistration(rule.id, plan.main);
    assert RegisterPlan(Cfg, Accepting, Empty, rule.id, plan) == RegisterMain(Accepting, Empty, rule.id, plan.main);
    assert InstallRule(Cfg, Lib, Accepting, Empty, rule, false, "", NoDraws)
      == RegisterPlan(Cfg, Accepting, Empty, rule.id, plan);
  }

  /** The OutputMetric action publishes the metric its "name" parameter
      names, about the cloud provider, carrying the aggregated value. */
  lemma CloudProviderAveragePublishes()
    ensures var rule := CpuRule(Some(MetricAggregation("Average", CloudProvider, [])), [Publish]);
      var q := ActionQuery(Cfg, Lib, rule, "cpuRule", "http://dda/streams/CpuUtilization", false);
      && q.Ok?
      && q.value.construct == [[ Triple(BlankNode, Res(MetricProperty), MetricRef("HighCpu")),
                                 Triple(BlankNode, Res(AboutResource), V(Grouping(CloudProvider))),
                                 Triple(BlankNode, Res(ValueProperty), V(Output)),
                                 Triple(BlankNode, Res(TimestampProperty), V(Timestamp)) ]]
  {
    var rule := CpuRule(Some(MetricAggregation("Average", CloudProvider, [])), [Publish]);
    assert Lib.parameterCount("Average") == 1 && Lib.parameterIndex("Average", InputVariable) == 0;
    assert CompilerProperties.Compilable(Lib, rule, false);
    CompilerProperties.ActionQueryAcceptsExactly(Cfg, Lib, rule, "cpuRule", "http://dda/streams/CpuUtilization", false);
    CompilerProperties.ActionQueryShape(Cfg, Lib, rule, "cpuRule", "http://dda/streams/CpuUtilization", false);
    var t := ConstructTemplate(Publish, Grouping(CloudProvider), Output);
    assert Publish.parameters[0].name == MetricNameParameter;
    assert t[0] == Triple(BlankNode, Res(MetricProperty), MetricRef("HighCpu"));
    assert t == [t[0]] + t[1..];
  }

  /** Grouping by VM does not collapse to the target variable: the query
      groups by "?VM". */
  lemma VmGroupingKeepsGroupingVariable()
    ensures var rule := CpuRule(Some(MetricAggregation("Average", VM, [])), [Publish]);
      var q := ActionQuery(Cfg, Lib, rule, "cpuRule", "http://dda/streams/CpuUtilization", false);
      && q.Ok?
      && q.value.where.groupBy == Some(Grouping(VM))
      && q.value.where.groupBy != Some(Target)
  {
    var rule := CpuRule(Some(MetricAggregation("Average", VM, [])), [Publish]);
    CompilerProperties.ActionQueryAcceptsExactly(Cfg, Lib, rule, "cpuRule", "http://dda/streams/CpuUtilization", false);
    CompilerProperties.ActionQueryShape(Cfg, Lib, rule, "cpuRule", "http://dda/streams/CpuUtilization", false);
  }

  /** Names are checked against query URIs: once a query registered under the
      rule's id is filed under a URI, the same name is handed out again. */
  lemma NameReusedAfterRegistration(q: Query)
    ensures var reg := RegisterQuery(Accepting, Empty, "cpuRule", "cpuRule", q).registry;
      && reg.queries.Keys == {"http://dda/queries/cpuRule"}
      && NewQueryName(Lib, reg.queries, "cpuRule", "", []) == "cpuRule"
  {
    assert Accepting.registerQuery("cpuRule", q) == QueryAccepted("http://dda/queries/cpuRule");
  }
}
