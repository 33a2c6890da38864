/** The query compiler of CSPARQLEngineManager: from a monitoring rule to the
    main continuous query and, when the secondary aggregator is involved, the
    tunnel query. Everything here is pure; a thrown exception is an `Err`. */
module Compiler {
  import opened Outcomes
  import opened Strings
  import opened Rules
  import opened Queries
  import opened Environment

  /** The token of a rule condition that stands for the monitored value. */
  const Placeholder: string := "METRIC"

  /** Suffix of the source the queries also read from (the knowledge base). */
  const DefaultGraph: string := "?graph=default"

  /** Name of the OutputMetric parameter that names the produced metric. */
  const MetricNameParameter: string := "name"

  // ---------------------------------------------------------------------
  // Variables

  /** Inner-query variable for an outer-query variable. */
  function InnerVar(v: Var): Var
  {
    match v
    case Output => Input
    case Timestamp => InputTimestamp
    case _ => v
  }

  /** getInnerQueryRequiredVars: the inner projection, position by position. */
  function InnerQueryRequiredVars(outer: seq<Var>): (inner: seq<Var>)
    ensures |inner| == |outer|
    ensures forall i | 0 <= i < |outer| :: outer[i] == Output ==> inner[i] == Input
    ensures forall i | 0 <= i < |outer| :: outer[i] == Timestamp ==> inner[i] == InputTimestamp
    ensures forall i | 0 <= i < |outer| :: outer[i] != Output && outer[i] != Timestamp ==> inner[i] == outer[i]
  {
    seq(|outer|, i requires 0 <= i < |outer| => InnerVar(outer[i]))
  }

  /** getOutputValueVariable */
  function OutputValueVariable(rule: MonitoringRule, sdaRequired: bool): Var
  {
    if sdaRequired || !rule.Grouped() then Input else Output
  }

  /** getMonitoredTargets: exactly one target is supported. */
  function MonitoredTargets(rule: MonitoringRule): (r: Result<seq<MonitoredTarget>>)
    ensures r.Ok? <==> |rule.targets| == 1
    ensures r.Ok? ==> r.value == rule.targets
    ensures r.Err? ==> r.failure == UnsupportedTargetCardinality(|rule.targets|)
  {
    if |rule.targets| != 1 then Err(UnsupportedTargetCardinality(|rule.targets|))
    else Ok(rule.targets)
  }

  /** The loop of getTargetClass, as written: the assignment sits in the
      else branch of the inner `if`, so it only runs when a class has already
      been found, and none ever is. */
  function TargetClassScan(targets: seq<MonitoredTarget>, found: Option<string>): (r: Result<Option<string>>)
    ensures r.Err? ==> r.failure == MixedTargetClasses
    decreases |targets|
  {
    if targets == [] then Ok(found)
    else if found.Some? then
      if found.value != targets[0].targetClass then Err(MixedTargetClasses)
      else TargetClassScan(targets[1..], Some(targets[0].targetClass))
    else TargetClassScan(targets[1..], found)
  }

  /** getTargetClass */
  function TargetClass(rule: MonitoringRule): Result<Option<string>>
  {
    var targets :- MonitoredTargets(rule);
    TargetClassScan(targets, None)
  }

  /** getGroupingClassVariable for a grouped rule: TARGET when the grouping
      class is the target class, otherwise "?" + grouping class. */
  function GroupingVariable(rule: MonitoringRule, agg: MetricAggregation): Result<Var>
  {
    var targetClass :- TargetClass(rule);
    Ok(if targetClass == Some(agg.groupingCategoryName) then Target else Grouping(agg.groupingCategoryName))
  }

  /** getGroupingClassVariable: null (None) for an ungrouped rule. */
  function GroupingClassVariable(rule: MonitoringRule): Result<Option<Var>>
  {
    match rule.aggregation
    case None => Ok(None)
    case Some(agg) =>
      var v :- GroupingVariable(rule, agg);
      Ok(Some(v))
  }

  /** getOutputTarget */
  function OutputTarget(rule: MonitoringRule): Result<Var>
  {
    match rule.aggregation
    case None => Ok(Target)
    case Some(agg) => GroupingVariable(rule, agg)
  }

  // ---------------------------------------------------------------------
  // Condition

  /** parseCondition: every METRIC token replaced by the output value variable. */
  function ParseCondition(condition: Option<string>, outputValueVariable: string): (r: Option<string>)
    ensures r.None? <==> condition.None?
    ensures condition.Some? && !Contains(condition.value, Placeholder) ==> r == condition
  {
    match condition
    case None => None
    case Some(c) =>
      assert !Contains(c, Placeholder) ==> ReplaceAll(c, Placeholder, outputValueVariable) == c by {
        if !Contains(c, Placeholder) {
          ReplaceAllWithoutOccurrence(c, Placeholder, outputValueVariable);
        }
      }
      Some(ReplaceAll(c, Placeholder, outputValueVariable))
  }

  // ---------------------------------------------------------------------
  // Graph pattern

  /** getTargetIDLiteral: the target id in double quotes. */
  function TargetIdLiteral(target: MonitoredTarget): string
  {
    "\"" + target.id + "\""
  }

  /** The four triples every pattern starts with. */
  function BasePattern(rule: MonitoringRule, target: MonitoredTarget): seq<Triple>
  {
    [ Triple(V(Datum), Res(MetricProperty), MetricRef(rule.metricName)),
      Triple(V(Datum), Res(AboutResource), V(Target)),
      Triple(V(Datum), Res(ValueProperty), V(Input)),
      Triple(V(Target), Res(IdProperty), Literal(TargetIdLiteral(target))) ]
  }

  /** createGraphPattern, including its fall-through: for a VM target the
      `break` is inside the grouping test, so an ungrouped VM rule reaches the
      default branch and is rejected like an unknown class. */
  function GraphPattern(rule: MonitoringRule): (r: Result<seq<Triple>>)
    ensures r.Ok? ==> |rule.targets| == 1 && |r.value| >= 5 && r.value[..4] == BasePattern(rule, rule.targets[0])
  {
    var targets :- MonitoredTargets(rule);
    var target := targets[0];
    var typed := BasePattern(rule, target) + [Triple(V(Target), Res(RdfType), Res(VmClass))];
    if target.targetClass == VM then
      match rule.aggregation
      case None => Err(UnsupportedTargetClass(target.targetClass))
      case Some(agg) =>
        if agg.groupingCategoryName == VM then Ok(typed)
        else if agg.groupingCategoryName == CloudProvider then
          var groupingVar :- GroupingVariable(rule, agg);
          Ok(typed + [Triple(V(Target), Res(CloudProviderProperty), V(groupingVar))])
        else Err(UnsupportedGroupingClass(agg.groupingCategoryName, target.targetClass))
    else Err(UnsupportedTargetClass(target.targetClass))
  }

  // ---------------------------------------------------------------------
  // Select lists

  /** The parameter array of an aggregate function fits its declared arity:
      the arity is not negative and every index the library gives is in it. */
  predicate ParametersFit(lib: Library, agg: MetricAggregation)
  {
    var f := agg.aggregateFunction;
    var n := lib.parameterCount(f);
    && 0 <= n
    && 0 <= lib.parameterIndex(f, InputVariable) < n
    && forall k | 0 <= k < |agg.parameters| :: 0 <= lib.parameterIndex(f, Named(agg.parameters[k].name)) < n
  }

  /** The value slot `j` ends with after `ps` are written in order, starting
      from `initial`: the value of the last parameter mapped to `j`. */
  function LastWrite(lib: Library, f: string, ps: seq<Parameter>, j: int, initial: Term): Term
    decreases |ps|
  {
    if ps == [] then initial
    else if lib.parameterIndex(f, Named(ps[|ps| - 1].name)) == j then Text(ps[|ps| - 1].value)
    else LastWrite(lib, f, ps[..|ps| - 1], j, initial)
  }

  /** The loop of getAggregateFunctionParameters over the rule's parameters. */
  function FillParameters(lib: Library, f: string, ps: seq<Parameter>, slots: seq<Term>): (r: Result<seq<Term>>)
    ensures r.Ok? <==> forall k | 0 <= k < |ps| :: 0 <= lib.parameterIndex(f, Named(ps[k].name)) < |slots|
    ensures r.Ok? ==> |r.value| == |slots|
    ensures r.Err? ==> r.failure.ParameterIndexOutOfBounds?
    decreases |ps|
  {
    if ps == [] then Ok(slots)
    else
      var j := lib.parameterIndex(f, Named(ps[0].name));
      if !(0 <= j < |slots|) then Err(ParameterIndexOutOfBounds(f, j))
      else FillParameters(lib, f, ps[1..], slots[j := Text(ps[0].value)])
  }

  /** getAggregateFunctionParameters: an array of the function's arity, the
      INPUT variable at the input position, then each rule parameter's value
      at the position the library gives for its name. */
  function AggregateParameters(lib: Library, agg: MetricAggregation): (r: Result<seq<Term>>)
    ensures r.Ok? <==> ParametersFit(lib, agg)
    ensures r.Ok? ==> |r.value| == lib.parameterCount(agg.aggregateFunction)
  {
    var f := agg.aggregateFunction;
    var n := lib.parameterCount(f);
    if n < 0 then Err(NegativeParameterCount(f, n))
    else
      var i := lib.parameterIndex(f, InputVariable);
      if !(0 <= i < n) then Err(ParameterIndexOutOfBounds(f, i))
      else FillParameters(lib, f, agg.parameters, seq(n, _ => Null)[i := V(Input)])
  }

  /** One iteration of addSelect. */
  function SelectItemFor(lib: Library, rule: MonitoringRule, v: Var): Result<SelectItem>
  {
    match v
    case Timestamp => Ok(Apply(Timestamp, Max, [V(InputTimestamp)]))
    case InputTimestamp => Ok(Apply(InputTimestamp, TimestampOf, [V(Datum), Res(AboutResource), V(Target)]))
    case Output =>
      (match rule.aggregation
       case Some(agg) =>
         var args :- AggregateParameters(lib, agg);
         Ok(Apply(Output, Aggregate(agg.aggregateFunction), args))
       case None => Ok(Plain(Output)))
    case _ => Ok(Plain(v))
  }

  /** addSelect: one select item per variable, in order. Only OUTPUT of a
      grouped rule needs the aggregate's parameters, so only it can fail. */
  function SelectItems(lib: Library, rule: MonitoringRule, vars: seq<Var>): (r: Result<seq<SelectItem>>)
    ensures r.Ok? ==> Projection(r.value) == vars
    ensures r.Ok? <==> (Output in vars && rule.Grouped() ==> ParametersFit(lib, rule.aggregation.value))
    ensures r.Ok? ==> forall i | 0 <= i < |vars| :: SelectItemFor(lib, rule, vars[i]) == Ok(r.value[i])
    decreases |vars|
  {
    if vars == [] then Ok([])
    else
      assert Output in vars <==> vars[0] == Output || Output in vars[1..] by {
        assert vars == [vars[0]] + vars[1..];
      }
      var item :- SelectItemFor(lib, rule, vars[0]);
      var rest :- SelectItems(lib, rule, vars[1..]);
      assert forall i | 1 <= i < |vars| :: vars[i] == vars[1..][i - 1] && ([item] + rest)[i] == rest[i - 1];
      Ok([item] + rest)
  }

  // ---------------------------------------------------------------------
  // Actions

  /** What addActions leaves behind: the required variables (null until an
      OutputMetric action sets them) and the construct templates it added. */
  datatype Actions = Actions(required: Option<seq<Var>>, construct: seq<seq<Triple>>)

  /** getParValue: the value of the first parameter with the given name. */
  function ParameterValue(ps: seq<Parameter>, key: string): (r: Option<string>)
    ensures r.None? <==> forall i | 0 <= i < |ps| :: ps[i].name != key
    ensures r.Some? ==> exists i | 0 <= i < |ps| ::
      ps[i].name == key && ps[i].value == r.value && forall j | 0 <= j < i :: ps[j].name != key
    decreases |ps|
  {
    if ps == [] then None
    else if ps[0].name == key then Some(ps[0].value)
    else
      var r := ParameterValue(ps[1..], key);
      assert r.Some? ==> exists i | 1 <= i < |ps| ::
        ps[i].name == key && ps[i].value == r.value && forall j | 0 <= j < i :: ps[j].name != key by {
        if r.Some? {
          var i :| 0 <= i < |ps[1..]| && ps[1..][i].name == key && ps[1..][i].value == r.value
            && forall j | 0 <= j < i :: ps[1..][j].name != key;
          assert ps[i + 1].name == key && ps[i + 1].value == r.value;
          assert forall j | 0 <= j < i + 1 :: ps[j].name != key by {
            forall j | 0 <= j < i + 1 ensures ps[j].name != key {
              if j > 0 { assert ps[j] == ps[1..][j - 1]; }
            }
          }
        }
      }
      r
  }

  /** The construct template of an OutputMetric action. A missing "name"
      parameter reads as "mo:null", as Java string concatenation does. */
  function ConstructTemplate(a: Action, target: Var, value: Var): (t: seq<Triple>)
    ensures |t| == 4
    ensures (forall j | 0 <= j < |a.parameters| :: a.parameters[j].name != MetricNameParameter) ==>
      t[0] == Triple(BlankNode, Res(MetricProperty), MetricRef("null"))
    ensures forall j | 0 <= j < |a.parameters| && a.parameters[j].name == MetricNameParameter
                       && (forall k | 0 <= k < j :: a.parameters[k].name != MetricNameParameter) ::
      t[0] == Triple(BlankNode, Res(MetricProperty), MetricRef(a.parameters[j].value))
    ensures t[1..] == [ Triple(BlankNode, Res(AboutResource), V(target)),
                        Triple(BlankNode, Res(ValueProperty), V(value)),
                        Triple(BlankNode, Res(TimestampProperty), V(Timestamp)) ]
  {
    var metric := match ParameterValue(a.parameters, MetricNameParameter)
      case Some(m) => m
      case None => "null";
    [ Triple(BlankNode, Res(MetricProperty), MetricRef(metric)),
      Triple(BlankNode, Res(AboutResource), V(target)),
      Triple(BlankNode, Res(ValueProperty), V(value)),
      Triple(BlankNode, Res(TimestampProperty), V(Timestamp)) ]
  }

  /** The loop of addActions: OutputMetric sets the required variables and
      adds a construct template; any other action name is not implemented. */
  function ScanActions(rule: MonitoringRule, sdaRequired: bool, actions: seq<Action>, acc: Actions): (r: Result<Actions>)
    ensures r.Ok? <==>
      && (forall i | 0 <= i < |actions| :: actions[i].name == OutputMetric)
      && (|actions| > 0 ==> OutputTarget(rule).Ok?)
    ensures r.Ok? && |actions| == 0 ==> r.value == acc
    ensures r.Ok? && |actions| > 0 ==>
      && OutputTarget(rule).Ok?
      && r.value.required == Some([OutputTarget(rule).value, OutputValueVariable(rule, sdaRequired), Timestamp])
    ensures r.Ok? ==> |r.value.construct| == |acc.construct| + |actions|
    ensures r.Err? && r.failure.UnsupportedAction? ==>
      exists i | 0 <= i < |actions| :: actions[i].name == r.failure.name && actions[i].name != OutputMetric
    ensures r.Err? && !r.failure.UnsupportedAction? ==> OutputTarget(rule) == Err(r.failure)
    decreases |actions|
  {
    if actions == [] then Ok(acc)
    else if actions[0].name == OutputMetric then
      var target :- OutputTarget(rule);
      var value := OutputValueVariable(rule, sdaRequired);
      var next := Actions(Some([target, value, Timestamp]), acc.construct + [ConstructTemplate(actions[0], target, value)]);
      var r := ScanActions(rule, sdaRequired, actions[1..], next);
      assert r.Err? && r.failure.UnsupportedAction? ==>
        exists i | 0 <= i < |actions| :: actions[i].name == r.failure.name && actions[i].name != OutputMetric by {
        if r.Err? && r.failure.UnsupportedAction? {
          var i :| 0 <= i < |actions[1..]| && actions[1..][i].name == r.failure.name && actions[1..][i].name != OutputMetric;
          assert actions[i + 1] == actions[1..][i];
        }
      }
      assert (forall i | 0 <= i < |actions| :: actions[i].name == OutputMetric)
         <==> (forall i | 0 <= i < |actions[1..]| :: actions[1..][i].name == OutputMetric) by {
        if forall i | 0 <= i < |actions[1..]| :: actions[1..][i].name == OutputMetric {
          forall i | 0 <= i < |actions| ensures actions[i].name == OutputMetric {
            if i > 0 { assert actions[i] == actions[1..][i - 1]; }
          }
        }
      }
      r
    else Err(UnsupportedAction(actions[0].name))
  }

  /** addActions */
  function AddActions(rule: MonitoringRule, sdaRequired: bool): Result<Actions>
  {
    ScanActions(rule, sdaRequired, rule.actions, Actions(None, []))
  }

  // ---------------------------------------------------------------------
  // Queries

  /** The knowledge-base source every query also reads from. */
  function KnowledgeBaseSource(cfg: Config): string
  {
    cfg.knowledgeBaseDataUrl + DefaultGraph
  }

  /** createActionQuery: the main query. Steps run in the source's order, so
      the first failure met is the one reported. */
  function ActionQuery(cfg: Config, lib: Library, rule: MonitoringRule, name: string, streamUri: string, sdaRequired: bool): (r: Result<Query>)
    ensures r.Ok? ==> r.value.name == name && r.value.stream == Window(streamUri, rule.timeWindow, rule.timeStep)
  {
    var actions :- AddActions(rule, sdaRequired);
    var required :- if actions.required.Some? then Ok(actions.required.value) else Err(MissingRequiredVariables);
    var outer :- SelectItems(lib, rule, required);
    var inner :- SelectItems(lib, rule, InnerQueryRequiredVars(required));
    var pattern :- GraphPattern(rule);
    var groupBy :- GroupingClassVariable(rule);
    var having := ParseCondition(rule.condition, Name(OutputValueVariable(rule, sdaRequired)));
    Ok(Query(
      name,
      actions.construct,
      [],
      Window(streamUri, rule.timeWindow, rule.timeStep),
      KnowledgeBaseSource(cfg),
      Body(outer, Subquery(Body(inner, Graph(pattern), None, None)), groupBy, having)))
  }

  /** createTunnelQuery: forwards the raw readings (target, value, timestamp)
      of the rule's own metric, with no grouping and no condition. */
  function TunnelQuery(cfg: Config, rule: MonitoringRule, name: string, streamUri: string): (r: Result<Query>)
    ensures r.Ok? <==> GraphPattern(rule).Ok?
    ensures r.Ok? ==> r.value.name == name && r.value.stream == Window(streamUri, rule.timeWindow, rule.timeStep)
    ensures r.Ok? ==>
      && r.value.construct == []
      && r.value.from == KnowledgeBaseSource(cfg)
      && Projection(r.value.select) == [Target, Input, Timestamp]
      && r.value.where.groupBy == None
      && r.value.where.having == None
      && r.value.where.where == Graph(GraphPattern(rule).value)
      && Projection(r.value.where.select) == [Target, Input, Timestamp]
      && r.value.where.select[2] == Apply(Timestamp, TimestampOf, [V(Datum), Res(AboutResource), V(Target)])
  {
    var pattern :- GraphPattern(rule);
    Ok(Query(
      name,
      [],
      [Plain(Target), Plain(Input), Plain(Timestamp)],
      Window(streamUri, rule.timeWindow, rule.timeStep),
      KnowledgeBaseSource(cfg),
      Body([Plain(Target), Plain(Input), Apply(Timestamp, TimestampOf, [V(Datum), Res(AboutResource), V(Target)])],
           Graph(pattern), None, None)))
  }
}
