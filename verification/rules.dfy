/** The monitoring-rule descriptor the manager compiles, as far as the
    manager reads it, and the vocabulary names it dispatches on. */
module Rules {
  import opened Outcomes

  datatype Parameter = Parameter(name: string, value: string)

  datatype Action = Action(name: string, parameters: seq<Parameter>)

  datatype MonitoredTarget = MonitoredTarget(id: string, targetClass: string)

  datatype MetricAggregation = MetricAggregation(
    aggregateFunction: string,
    groupingCategoryName: string,
    parameters: seq<Parameter>)

  /** A null action list behaves as an empty one, and so does a null
      aggregation parameter list; both are plain sequences here. */
  datatype MonitoringRule = MonitoringRule(
    id: string,
    metricName: string,
    timeWindow: int,
    timeStep: int,
    condition: Option<string>,
    aggregation: Option<MetricAggregation>,
    targets: seq<MonitoredTarget>,
    actions: seq<Action>)
  {
    /** A rule is grouped when it declares a metric aggregation. */
    predicate Grouped() {
      aggregation.Some?
    }
  }

  /** Class names of the monitoring ontology the graph pattern knows. */
  const VM: string := "VM"
  const CloudProvider: string := "CloudProvider"

  /** The only action the manager implements. */
  const OutputMetric: string := "OutputMetric"
}
