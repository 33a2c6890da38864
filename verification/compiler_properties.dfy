/** Properties of the query compiler, stated over all rules. */
module CompilerProperties {
  import opened Outcomes
  import opened Strings
  import opened Rules
  import opened Queries
  import opened Environment
  import opened Compiler

  // ---------------------------------------------------------------------
  // Target class and grouping variable, as written

  /** The scan of getTargetClass never leaves null: it only assigns after a
      class has been found. */
  lemma {:induction false} TargetClassScanKeepsNull(targets: seq<MonitoredTarget>)
    ensures TargetClassScan(targets, None) == Ok(None)
    decreases |targets|
  {
    if targets != [] {
      TargetClassScanKeepsNull(targets[1..]);
    }
  }

  /** getTargetClass fails exactly when getMonitoredTargets does, and
      otherwise returns null. */
  lemma TargetClassIsAlwaysNull(rule: MonitoringRule)
    ensures TargetClass(rule) ==
      if |rule.targets| == 1 then Ok(None) else Err(UnsupportedTargetCardinality(|rule.targets|))
  {
    TargetClassScanKeepsNull(rule.targets);
  }

  /** Hence the grouping variable never collapses to TARGET: it is always
      "?" + grouping class, even when the grouping class is the target class. */
  lemma GroupingVariableNeverCollapses(rule: MonitoringRule, agg: MetricAggregation)
    ensures GroupingVariable(rule, agg) ==
      if |rule.targets| == 1 then Ok(Grouping(agg.groupingCategoryName))
      else Err(UnsupportedTargetCardinality(|rule.targets|))
  {
    TargetClassIsAlwaysNull(rule);
  }

  /** The variables an OutputMetric action projects: the value is INPUT
      exactly when the secondary aggregator is used or the rule is ungrouped,
      the target is TARGET for an ungrouped rule and "?" + grouping class
      for a grouped one. */
  lemma OutputVariables(rule: MonitoringRule, sdaRequired: bool)
    ensures OutputValueVariable(rule, sdaRequired) == Input <==> sdaRequired || !rule.Grouped()
    ensures OutputValueVariable(rule, sdaRequired) in {Input, Output}
    ensures !rule.Grouped() ==> OutputTarget(rule) == Ok(Target)
    ensures rule.Grouped() && |rule.targets| == 1 ==>
      OutputTarget(rule) == Ok(Grouping(rule.aggregation.value.groupingCategoryName))
    ensures rule.Grouped() && |rule.targets| != 1 ==>
      OutputTarget(rule) == Err(UnsupportedTargetCardinality(|rule.targets|))
  {
    if rule.Grouped() {
      GroupingVariableNeverCollapses(rule, rule.aggregation.value);
    }
  }

  // ---------------------------------------------------------------------
  // Inner projection

  /** The inner projection never holds an aggregated variable, and deriving
      it again changes nothing. */
  lemma InnerProjectionIsEventLevel(outer: seq<Var>)
    ensures Output !in InnerQueryRequiredVars(outer)
    ensures Timestamp !in InnerQueryRequiredVars(outer)
    ensures InnerQueryRequiredVars(InnerQueryRequiredVars(outer)) == InnerQueryRequiredVars(outer)
  {
    var inner := InnerQueryRequiredVars(outer);
    forall i | 0 <= i < |inner| ensures inner[i] != Output && inner[i] != Timestamp {
    }
  }

  // ---------------------------------------------------------------------
  // Condition

  /** The first METRIC of a condition becomes the variable name, the text
      before it is kept, and substitution continues after it. */
  lemma ConditionReplacesFirstPlaceholder(before: string, after: string, variable: string)
    requires forall j | 0 <= j < |before| :: !OccursAt(before + Placeholder + after, Placeholder, j)
    ensures ParseCondition(Some(before + Placeholder + after), variable) ==
      Some(before + variable + ReplaceAll(after, Placeholder, variable))
  {
    ReplaceAllFirstOccurrence(before, Placeholder, after, variable);
  }

  // ---------------------------------------------------------------------
  // Graph pattern

  /** The pattern a VM target starts with: base triples and the type triple. */
  function TypedVmPattern(rule: MonitoringRule): seq<Triple>
    requires |rule.targets| == 1
  {
    BasePattern(rule, rule.targets[0]) + [Triple(V(Target), Res(RdfType), Res(VmClass))]
  }

  /** The complete (target class, grouping class) table of createGraphPattern. */
  lemma GraphPatternTable(rule: MonitoringRule)
    ensures |rule.targets| != 1 ==>
      GraphPattern(rule) == Err(UnsupportedTargetCardinality(|rule.targets|))
    ensures |rule.targets| == 1 && rule.targets[0].targetClass != VM ==>
      GraphPattern(rule) == Err(UnsupportedTargetClass(rule.targets[0].targetClass))
    ensures |rule.targets| == 1 && rule.targets[0].targetClass == VM && !rule.Grouped() ==>
      GraphPattern(rule) == Err(UnsupportedTargetClass(VM))
    ensures |rule.targets| == 1 && rule.targets[0].targetClass == VM && rule.Grouped() ==>
      var gc := rule.aggregation.value.groupingCategoryName;
      GraphPattern(rule) ==
        if gc == VM then Ok(TypedVmPattern(rule))
        else if gc == CloudProvider then
          Ok(TypedVmPattern(rule) + [Triple(V(Target), Res(CloudProviderProperty), V(Grouping(CloudProvider)))])
        else Err(UnsupportedGroupingClass(gc, VM))
  {
    if rule.Grouped() {
      GroupingVariableNeverCollapses(rule, rule.aggregation.value);
    }
  }

  /** A variable is mentioned by a pattern when a triple has it as subject or object. */
  predicate Mentions(triples: seq<Triple>, v: Var)
  {
    exists k | 0 <= k < |triples| :: triples[k].s == V(v) || triples[k].o == V(v)
  }

  /** The typed VM pattern binds the datum, the target and the input, never a
      grouping variable. */
  lemma TypedVmPatternVariables(rule: MonitoringRule, gc: string)
    requires |rule.targets| == 1
    ensures !Mentions(TypedVmPattern(rule), Grouping(gc))
    ensures Mentions(TypedVmPattern(rule), Target) && Mentions(TypedVmPattern(rule), Input)
  {
    var p := TypedVmPattern(rule);
    assert |p| == 5;
    assert p[1].o == V(Target) && p[2].o == V(Input);
    forall k | 0 <= k < |p| ensures p[k].s != V(Grouping(gc)) && p[k].o != V(Grouping(gc)) {
      assert k == 0 || k == 1 || k == 2 || k == 3 || k == 4;
    }
  }

  // ---------------------------------------------------------------------
  // Aggregate parameters

  /** Writing the first parameter, then the rest, ends in the same slot value
      as the last-writer rule applied to the whole list. */
  lemma {:induction false} LastWriteFront(lib: Library, f: string, ps: seq<Parameter>, j: int, initial: Term)
    requires ps != []
    ensures LastWrite(lib, f, ps, j, initial) ==
      LastWrite(lib, f, ps[1..], j, if lib.parameterIndex(f, Named(ps[0].name)) == j then Text(ps[0].value) else initial)
    decreases |ps|
  {
    if |ps| > 1 {
      var front := ps[..|ps| - 1];
      assert front[1..] == ps[1..][..|ps[1..]| - 1];
      assert ps[1..][|ps[1..]| - 1] == ps[|ps| - 1];
      LastWriteFront(lib, f, front, j, initial);
    } else {
      assert ps[..0] == [];
    }
  }

  /** Each slot of the filled array holds the value of the last parameter the
      library maps to it, or what it held before. */
  lemma {:induction false} FillParametersLastWriteWins(lib: Library, f: string, ps: seq<Parameter>, slots: seq<Term>)
    requires FillParameters(lib, f, ps, slots).Ok?
    ensures forall j | 0 <= j < |slots| ::
      FillParameters(lib, f, ps, slots).value[j] == LastWrite(lib, f, ps, j, slots[j])
    decreases |ps|
  {
    if ps != [] {
      var k := lib.parameterIndex(f, Named(ps[0].name));
      var next := slots[k := Text(ps[0].value)];
      FillParametersLastWriteWins(lib, f, ps[1..], next);
      forall j | 0 <= j < |slots|
        ensures FillParameters(lib, f, ps, slots).value[j] == LastWrite(lib, f, ps, j, slots[j])
      {
        LastWriteFront(lib, f, ps, j, slots[j]);
      }
    }
  }

  /** getAggregateFunctionParameters succeeds exactly when the parameters fit
      the arity; then slot j holds the last rule parameter mapped to j, else
      INPUT at the input position, else null. */
  lemma AggregateParametersContents(lib: Library, agg: MetricAggregation)
    ensures AggregateParameters(lib, agg).Ok? <==> ParametersFit(lib, agg)
    ensures AggregateParameters(lib, agg).Ok? ==>
      var f := agg.aggregateFunction;
      var input := lib.parameterIndex(f, InputVariable);
      var r := AggregateParameters(lib, agg).value;
      && |r| == lib.parameterCount(f)
      && forall j | 0 <= j < |r| ::
           r[j] == LastWrite(lib, f, agg.parameters, j, if j == input then V(Input) else Null)
  {
    var f := agg.aggregateFunction;
    var n := lib.parameterCount(f);
    if ParametersFit(lib, agg) {
      var i := lib.parameterIndex(f, InputVariable);
      var slots := seq(n, _ => Null)[i := V(Input)];
      FillParametersLastWriteWins(lib, f, agg.parameters, slots);
    }
  }

  // ---------------------------------------------------------------------
  // Actions

  /** The first action that is not OutputMetric is reported as not
      implemented, provided the output target could be computed. */
  lemma {:induction false} FirstUnsupportedActionReported(rule: MonitoringRule, sdaRequired: bool, actions: seq<Action>, acc: Actions, i: int)
    requires OutputTarget(rule).Ok?
    requires 0 <= i < |actions| && actions[i].name != OutputMetric
    requires forall j | 0 <= j < i :: actions[j].name == OutputMetric
    ensures ScanActions(rule, sdaRequired, actions, acc) == Err(UnsupportedAction(actions[i].name))
    decreases |actions|
  {
    if i > 0 {
      var target := OutputTarget(rule).value;
      var value := OutputValueVariable(rule, sdaRequired);
      var next := Actions(Some([target, value, Timestamp]), acc.construct + [ConstructTemplate(actions[0], target, value)]);
      assert ScanActions(rule, sdaRequired, actions, acc) == ScanActions(rule, sdaRequired, actions[1..], next) by {
        assert actions[0].name == OutputMetric;
      }
      assert forall j | 0 <= j < i - 1 :: actions[1..][j].name == OutputMetric by {
        forall j | 0 <= j < i - 1 ensures actions[1..][j].name == OutputMetric {
          assert actions[1..][j] == actions[j + 1];
        }
      }
      assert actions[1..][i - 1] == actions[i];
      FirstUnsupportedActionReported(rule, sdaRequired, actions[1..], next, i - 1);
    }
  }

  /** One OutputMetric step of addActions: the template for the first action
      is appended and the scan goes on with the rest. */
  lemma ScanActionsStep(rule: MonitoringRule, sdaRequired: bool, actions: seq<Action>, acc: Actions)
    requires actions != [] && ScanActions(rule, sdaRequired, actions, acc).Ok?
    ensures OutputTarget(rule).Ok?
    ensures var target := OutputTarget(rule).value;
      var value := OutputValueVariable(rule, sdaRequired);
      ScanActions(rule, sdaRequired, actions, acc) ==
        ScanActions(rule, sdaRequired, actions[1..],
                    Actions(Some([target, value, Timestamp]), acc.construct + [ConstructTemplate(actions[0], target, value)]))
  {
    assert actions[0].name == OutputMetric;
  }

  /** addActions appends one construct template per action, in order: the
      earlier templates are kept and the i-th action's template names its
      metric and uses the output target and value variables. */
  lemma {:induction false} ScanActionsTemplates(rule: MonitoringRule, sdaRequired: bool, actions: seq<Action>, acc: Actions)
    requires ScanActions(rule, sdaRequired, actions, acc).Ok?
    ensures |actions| > 0 ==> OutputTarget(rule).Ok?
    ensures var r := ScanActions(rule, sdaRequired, actions, acc).value;
      && r.construct[..|acc.construct|] == acc.construct
      && forall i | 0 <= i < |actions| ::
           r.construct[|acc.construct| + i] == ConstructTemplate(actions[i], OutputTarget(rule).value, OutputValueVariable(rule, sdaRequired))
    decreases |actions|
  {
    if actions != [] {
      ScanActionsStep(rule, sdaRequired, actions, acc);
      var target := OutputTarget(rule).value;
      var value := OutputValueVariable(rule, sdaRequired);
      var next := Actions(Some([target, value, Timestamp]), acc.construct + [ConstructTemplate(actions[0], target, value)]);
      ScanActionsTemplates(rule, sdaRequired, actions[1..], next);
      var r := ScanActions(rule, sdaRequired, actions[1..], next).value;
      assert r.construct[..|next.construct|] == next.construct;
      assert r.construct[..|acc.construct|] == r.construct[..|next.construct|][..|acc.construct|];
      forall i | 0 <= i < |actions|
        ensures r.construct[|acc.construct| + i] == ConstructTemplate(actions[i], target, value)
      {
        if i == 0 {
          assert r.construct[|acc.construct|] == r.construct[..|next.construct|][|acc.construct|];
        } else {
          var j := i - 1;
          assert r.construct[|next.construct| + j] == ConstructTemplate(actions[1..][j], target, value);
          assert actions[1..][j] == actions[i];
        }
      }
    }
  }

  /** addActions dispatch: every OutputMetric action sets the required
      variables to [target, value, TIMESTAMP] (the last one wins, and all set
      the same), every other name is rejected, an empty list sets nothing. */
  lemma ActionDispatch(rule: MonitoringRule, sdaRequired: bool)
    ensures AddActions(rule, sdaRequired).Ok? <==>
      && (forall i | 0 <= i < |rule.actions| :: rule.actions[i].name == OutputMetric)
      && (|rule.actions| > 0 ==> OutputTarget(rule).Ok?)
    ensures AddActions(rule, sdaRequired).Ok? ==>
      && |AddActions(rule, sdaRequired).value.construct| == |rule.actions|
      && AddActions(rule, sdaRequired).value.required ==
           if |rule.actions| == 0 then None
           else Some([OutputTarget(rule).value, OutputValueVariable(rule, sdaRequired), Timestamp])
    ensures forall i | 0 <= i < |rule.actions| && rule.actions[i].name != OutputMetric
                       && (forall j | 0 <= j < i :: rule.actions[j].name == OutputMetric) ::
      AddActions(rule, sdaRequired) ==
        if OutputTarget(rule).Ok? then Err(UnsupportedAction(rule.actions[i].name))
        else if i == 0 then Err(UnsupportedAction(rule.actions[0].name))
        else Err(OutputTarget(rule).failure)
  {
    forall i | 0 <= i < |rule.actions| && rule.actions[i].name != OutputMetric
               && (forall j | 0 <= j < i :: rule.actions[j].name == OutputMetric)
      ensures AddActions(rule, sdaRequired) ==
        if OutputTarget(rule).Ok? then Err(UnsupportedAction(rule.actions[i].name))
        else if i == 0 then Err(UnsupportedAction(rule.actions[0].name))
        else Err(OutputTarget(rule).failure)
    {
      if OutputTarget(rule).Ok? {
        FirstUnsupportedActionReported(rule, sdaRequired, rule.actions, Actions(None, []), i);
      }
    }
  }

  /** addActions gives one construct template per action, in order. */
  lemma AddActionsTemplates(rule: MonitoringRule, sdaRequired: bool)
    requires AddActions(rule, sdaRequired).Ok?
    ensures |AddActions(rule, sdaRequired).value.construct| == |rule.actions|
    ensures forall i | 0 <= i < |rule.actions| ::
      AddActions(rule, sdaRequired).value.construct[i] ==
        ConstructTemplate(rule.actions[i], OutputTarget(rule).value, OutputValueVariable(rule, sdaRequired))
  {
    ScanActionsTemplates(rule, sdaRequired, rule.actions, Actions(None, []));
  }

  // ---------------------------------------------------------------------
  // Whole query

  /** The rules the compiler accepts, as written: one VM target, grouped by
      VM or CloudProvider, at least one action and only OutputMetric actions,
      and aggregate parameters that fit whenever the outer query aggregates. */
  predicate Compilable(lib: Library, rule: MonitoringRule, sdaRequired: bool)
  {
    && |rule.actions| > 0
    && (forall i | 0 <= i < |rule.actions| :: rule.actions[i].name == OutputMetric)
    && |rule.targets| == 1
    && rule.targets[0].targetClass == VM
    && rule.aggregation.Some?
    && rule.aggregation.value.groupingCategoryName in {VM, CloudProvider}
    && (!sdaRequired ==> ParametersFit(lib, rule.aggregation.value))
  }

  /** createActionQuery succeeds exactly on compilable rules. In particular no
      ungrouped rule compiles. */
  lemma ActionQueryAcceptsExactly(cfg: Config, lib: Library, rule: MonitoringRule, name: string, streamUri: string, sdaRequired: bool)
    ensures ActionQuery(cfg, lib, rule, name, streamUri, sdaRequired).Ok? <==> Compilable(lib, rule, sdaRequired)
  {
    ActionDispatch(rule, sdaRequired);
    OutputVariables(rule, sdaRequired);
    GraphPatternTable(rule);
    var actions := AddActions(rule, sdaRequired);
    if actions.Ok? && actions.value.required.Some? {
      var required := actions.value.required.value;
      InnerProjectionIsEventLevel(required);
    }
  }

  /** The shape of a compiled main query: outer projection [target, value,
      TIMESTAMP] grouped by the target, inner projection derived from it,
      the graph pattern innermost and the condition as HAVING. */
  lemma ActionQueryShape(cfg: Config, lib: Library, rule: MonitoringRule, name: string, streamUri: string, sdaRequired: bool)
    requires ActionQuery(cfg, lib, rule, name, streamUri, sdaRequired).Ok?
    ensures rule.aggregation.Some? && |rule.targets| == 1
    ensures
      var q := ActionQuery(cfg, lib, rule, name, streamUri, sdaRequired).value;
      var target := Grouping(rule.aggregation.value.groupingCategoryName);
      var value := OutputValueVariable(rule, sdaRequired);
      && q.name == name
      && q.stream == Window(streamUri, rule.timeWindow, rule.timeStep)
      && q.from == cfg.knowledgeBaseDataUrl + DefaultGraph
      && q.select == []
      && |q.construct| == |rule.actions|
      && (forall i | 0 <= i < |rule.actions| :: q.construct[i] == ConstructTemplate(rule.actions[i], target, value))
      && Projection(q.where.select) == [target, value, Timestamp]
      && q.where.groupBy == Some(target)
      && q.where.having == ParseCondition(rule.condition, Name(value))
      && q.where.where.Subquery?
      && Projection(q.where.where.body.select) == [target, Input, InputTimestamp]
      && q.where.where.body.where == Graph(GraphPattern(rule).value)
  {
    ActionQueryAcceptsExactly(cfg, lib, rule, name, streamUri, sdaRequired);
    ActionDispatch(rule, sdaRequired);
    AddActionsTemplates(rule, sdaRequired);
    OutputVariables(rule, sdaRequired);
    GroupingVariableNeverCollapses(rule, rule.aggregation.value);
  }

  /** What the outer select of a compiled main query computes: the grouping
      variable plainly; the value as the aggregate function over the
      parameter array (or plain INPUT with the secondary aggregator); and
      the timestamp as MAX of the event timestamps. */
  lemma ActionQueryOuterSelect(cfg: Config, lib: Library, rule: MonitoringRule, name: string, streamUri: string, sdaRequired: bool)
    requires ActionQuery(cfg, lib, rule, name, streamUri, sdaRequired).Ok?
    ensures rule.aggregation.Some?
    ensures var outer := ActionQuery(cfg, lib, rule, name, streamUri, sdaRequired).value.where.select;
      var agg := rule.aggregation.value;
      && |outer| == 3
      && outer[0] == Plain(Grouping(agg.groupingCategoryName))
      && (sdaRequired ==> outer[1] == Plain(Input))
      && (!sdaRequired ==>
            && AggregateParameters(lib, agg).Ok?
            && outer[1] == Apply(Output, Aggregate(agg.aggregateFunction), AggregateParameters(lib, agg).value))
      && outer[2] == Apply(Timestamp, Max, [V(InputTimestamp)])
  {
    ActionQueryShape(cfg, lib, rule, name, streamUri, sdaRequired);
    var outer := ActionQuery(cfg, lib, rule, name, streamUri, sdaRequired).value.where.select;
    OutputVariables(rule, sdaRequired);
    assert SelectItemFor(lib, rule, Projection(outer)[0]) == Ok(outer[0]);
    assert SelectItemFor(lib, rule, Projection(outer)[1]) == Ok(outer[1]);
    assert SelectItemFor(lib, rule, Projection(outer)[2]) == Ok(outer[2]);
  }

  /** What the subquery's select of a compiled main query computes: the
      grouping variable and INPUT plainly, and the event timestamp as the
      timestamp function of the datum, aboutResource and the target. */
  lemma ActionQueryInnerSelect(cfg: Config, lib: Library, rule: MonitoringRule, name: string, streamUri: string, sdaRequired: bool)
    requires ActionQuery(cfg, lib, rule, name, streamUri, sdaRequired).Ok?
    ensures rule.aggregation.Some?
    ensures var inner := ActionQuery(cfg, lib, rule, name, streamUri, sdaRequired).value.where.where.body.select;
      && |inner| == 3
      && inner[0] == Plain(Grouping(rule.aggregation.value.groupingCategoryName))
      && inner[1] == Plain(Input)
      && inner[2] == Apply(InputTimestamp, TimestampOf, [V(Datum), Res(AboutResource), V(Target)])
  {
    ActionQueryShape(cfg, lib, rule, name, streamUri, sdaRequired);
    var inner := ActionQuery(cfg, lib, rule, name, streamUri, sdaRequired).value.where.where.body.select;
    OutputVariables(rule, sdaRequired);
    assert SelectItemFor(lib, rule, Projection(inner)[0]) == Ok(inner[0]);
    assert SelectItemFor(lib, rule, Projection(inner)[1]) == Ok(inner[1]);
    assert SelectItemFor(lib, rule, Projection(inner)[2]) == Ok(inner[2]);
  }

  /** Building the main query involves the graph pattern, so once it has been
      built the tunnel query cannot fail: no compile error can happen after
      the first registration. */
  lemma TunnelCompilesAfterMain(cfg: Config, lib: Library, rule: MonitoringRule, name: string, streamUri: string,
                                sdaRequired: bool, tunnelName: string, tunnelStreamUri: string)
    requires ActionQuery(cfg, lib, rule, name, streamUri, sdaRequired).Ok?
    ensures TunnelQuery(cfg, rule, tunnelName, tunnelStreamUri).Ok?
  {
  }

  /** Consequence of the missing collapse: with VM grouping the queries
      project "?VM", which the pattern never binds, while with CloudProvider
      grouping every projected plain variable is bound by the pattern. */
  lemma GroupingVariableBinding(cfg: Config, lib: Library, rule: MonitoringRule, name: string, streamUri: string, sdaRequired: bool)
    requires ActionQuery(cfg, lib, rule, name, streamUri, sdaRequired).Ok?
    ensures rule.aggregation.Some?
    ensures var pattern := GraphPattern(rule).value;
      var gc := rule.aggregation.value.groupingCategoryName;
      && Grouping(gc) in Projection(ActionQuery(cfg, lib, rule, name, streamUri, sdaRequired).value.where.where.body.select)
      && (gc == VM ==> !Mentions(pattern, Grouping(VM)))
      && (gc == CloudProvider ==> Mentions(pattern, Grouping(CloudProvider)) && Mentions(pattern, Target) && Mentions(pattern, Input))
  {
    ActionQueryAcceptsExactly(cfg, lib, rule, name, streamUri, sdaRequired);
    var gc := rule.aggregation.value.groupingCategoryName;
    assert Grouping(gc) in Projection(ActionQuery(cfg, lib, rule, name, streamUri, sdaRequired).value.where.where.body.select) by {
      ActionQueryShape(cfg, lib, rule, name, streamUri, sdaRequired);
    }
    GraphPatternTable(rule);
    var pattern := GraphPattern(rule).value;
    TypedVmPatternVariables(rule, gc);
    if gc == CloudProvider {
      assert pattern[5].o == V(Grouping(CloudProvider));
      assert pattern[1].o == V(Target) && pattern[2].o == V(Input);
    }
  }
}
