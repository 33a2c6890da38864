# Monitoring manager: rule compiler and query registry

This project models the core of the MODAClouds monitoring manager's
`CSPARQLEngineManager` and its `Observer` value class. The manager turns a
monitoring rule (a metric, a window, an optional aggregation grouped by a
class of resources, one monitored target, a condition and a list of actions)
into continuous C-SPARQL queries, and installs them on a remote stream
engine. It also keeps a registry of what it installed.

The model has two halves, both pure Dafny values and functions:

- **The query compiler** (`compiler.dfy`). It covers the inner projection,
  the output target and value variables, the `METRIC` substitution in the
  condition and the action dispatch. It also covers the
  (target class, grouping class) table of the graph pattern, the aggregate
  function's parameter array, and the main and tunnel queries. A query is a
  datatype (`queries.dfy`), not rendered text.
- **The registry** (`manager.dfy`). It holds `registeredStreams`,
  `registeredQueries` (query URI to the query) and `ruleQueriesMap`.
  The registry is a value threaded through `registerStream`,
  `registerQuery`, `attachObserver`, `getNewQueryName` and the
  `installRule` sequence. Each step also returns the calls it sent to the
  engine, in order.

Everything the manager calls but does not implement is a parameter
(`environment.dfy`):

- `Library` stands for the query builder's `escapeName` and
  `FunctionParameter` lookups.
- `Engine` stands for the remote stream engine, as functions from a
  request to a reply.
- `Config` holds the streams URI, the knowledge-base URL and the secondary
  aggregator's URL.
- `RandomNames` lists the names `generateRandomName` would produce.

`compiler_properties.dfy` and `manager_properties.dfy` hold the
all-inputs lemmas. `observer.dfy` models `Observer`. `addresses.dfy` models
`cleanAddress`. `scenarios.dfy` shows concrete rules going through the
whole pipeline.

The model follows the code as written, including four behaviours that a
reader of the method names would not expect (line numbers refer to
`CSPARQLEngineManager.java`):

- **The grouping variable never collapses to TARGET.**
  `getGroupingClassVariable` returns TARGET when the grouping class equals
  the target class (:303-304). But `getTargetClass` assigns only inside
  `if (targetClass != null)`, because its `else` binds to the inner `if`
  (:313-318). It therefore always returns null, and the TARGET branch is
  dead. The grouping variable is always `"?" + groupingClass`. A VM-grouped
  query groups by `?VM`, which its pattern never binds
  (`GroupingVariableBinding`).
- **No ungrouped rule compiles.** In `createGraphPattern` the `break` of the
  VM case (:504) sits inside `if (groupingClass != null)` (:490-505). An
  ungrouped VM rule falls through to the `default` throw for the target
  class (:506-509) (`ActionQueryAcceptsExactly`,
  `UngroupedVmRuleRejected`).
- **An unknown grouping class has its own error.** For a VM target, a
  grouping class other than VM or CloudProvider throws the "grouping class
  ... for target ..." error (:498-502). It is kept apart from the
  target-class error as `UnsupportedGroupingClass`.
- **Query names are checked against URIs.** `getNewQueryName` tests a
  candidate against the keys of `registeredQueries` (:377). Those keys are
  the URIs the engine returned (:168-169), not query names. A name is
  therefore handed out again after its query is registered
  (`NameReusedAfterRegistration`).

`registerStream` asks the engine only for a stream that is not yet in
`registeredStreams` (:181). A known stream makes no engine call at all.

## Model

| member | source | states |
|---|---|---|
| Compiler.InnerQueryRequiredVars | src/main/java/it/polimi/modaclouds/monitoring/monitoring_manager/CSPARQLEngineManager.java:223-240 | The inner projection has the outer one's length and maps it position by position: OUTPUT to INPUT, TIMESTAMP to INPUT_TIMESTAMP, every other variable to itself. |
| CompilerProperties.InnerProjectionIsEventLevel | src/main/java/it/polimi/modaclouds/monitoring/monitoring_manager/CSPARQLEngineManager.java:223-240 | The inner projection never holds OUTPUT or TIMESTAMP, so it has no aggregated variable, and mapping it again changes nothing. |
| Compiler.MonitoredTargets | src/main/java/it/polimi/modaclouds/monitoring/monitoring_manager/CSPARQLEngineManager.java:334-341 | Succeeds if and only if the rule has exactly one monitored target, and then returns the rule's own target list. Any other count fails with the cardinality error carrying that count. |
| Compiler.TargetClassScan | src/main/java/it/polimi/modaclouds/monitoring/monitoring_manager/CSPARQLEngineManager.java:308-321 | The only failure the target-class loop can raise is the "targets of different classes" error. |
| CompilerProperties.TargetClassIsAlwaysNull | src/main/java/it/polimi/modaclouds/monitoring/monitoring_manager/CSPARQLEngineManager.java:308-321 | For every rule with one target, getTargetClass returns null; with any other number of targets it fails with the cardinality error. |
| CompilerProperties.GroupingVariableNeverCollapses | src/main/java/it/polimi/modaclouds/monitoring/monitoring_manager/CSPARQLEngineManager.java:297-321 | The grouping variable of a one-target rule is always "?" + grouping class, even when the grouping class equals the target class. |
| CompilerProperties.OutputVariables | src/main/java/it/polimi/modaclouds/monitoring/monitoring_manager/CSPARQLEngineManager.java:434-450 | The output value is INPUT if and only if the secondary aggregator is used or the rule is ungrouped, and OUTPUT otherwise. The output target is TARGET when ungrouped and "?" + grouping class when grouped. |
| Compiler.ParseCondition | src/main/java/it/polimi/modaclouds/monitoring/monitoring_manager/CSPARQLEngineManager.java:469-472 | A null condition stays null and only a null condition gives null. A condition without METRIC comes back unchanged. |
| CompilerProperties.ConditionReplacesFirstPlaceholder | src/main/java/it/polimi/modaclouds/monitoring/monitoring_manager/CSPARQLEngineManager.java:469-472 | The first METRIC is replaced by the variable name, the text before it is kept verbatim, and substitution resumes right after it (left to right, no overlaps). |
| Compiler.GraphPattern | src/main/java/it/polimi/modaclouds/monitoring/monitoring_manager/CSPARQLEngineManager.java:474-486 | A pattern exists only for a one-target rule. Its first four triples are always the metric, aboutResource, value and quoted-id triples, and at least one more follows. |
| CompilerProperties.GraphPatternTable | src/main/java/it/polimi/modaclouds/monitoring/monitoring_manager/CSPARQLEngineManager.java:474-512 | The whole table: a target count other than one fails on cardinality; a non-VM target fails on target class; an ungrouped VM target also fails on target class; VM by VM adds the type triple only; VM by CloudProvider adds the type triple and the cloudProvider triple; any other grouping class fails. |
| CompilerProperties.GroupingVariableBinding | src/main/java/it/polimi/modaclouds/monitoring/monitoring_manager/CSPARQLEngineManager.java:474-512 | In a compiled query the inner select projects "?" + grouping class. The pattern never binds ?VM for VM grouping, and binds ?CloudProvider, TARGET and INPUT for CloudProvider grouping. |
| Compiler.FillParameters | src/main/java/it/polimi/modaclouds/monitoring/monitoring_manager/CSPARQLEngineManager.java:278-285 | Filling succeeds if and only if every rule parameter's index is inside the array; the array keeps its length; the only failure is an out-of-bounds index. |
| CompilerProperties.FillParametersLastWriteWins | src/main/java/it/polimi/modaclouds/monitoring/monitoring_manager/CSPARQLEngineManager.java:278-285 | After filling, each slot holds the value of the last parameter the library maps to it, or what it held before when none does. |
| Compiler.AggregateParameters | src/main/java/it/polimi/modaclouds/monitoring/monitoring_manager/CSPARQLEngineManager.java:271-287 | The parameter array is built if and only if the arity is not negative and every index fits it, and then its length is the function's arity. |
| CompilerProperties.AggregateParametersContents | src/main/java/it/polimi/modaclouds/monitoring/monitoring_manager/CSPARQLEngineManager.java:271-287 | Slot j of the array holds the last rule parameter mapped to j, otherwise INPUT at the input position, otherwise null. |
| Compiler.SelectItems | src/main/java/it/polimi/modaclouds/monitoring/monitoring_manager/CSPARQLEngineManager.java:242-269 | A select list projects exactly the requested variables, in order, and item i is what addSelect builds for variable i: MAX of INPUT_TIMESTAMP for TIMESTAMP; the timestamp function of DATUM, aboutResource and TARGET for INPUT_TIMESTAMP; for a grouped rule, the aggregate function over the parameter array for OUTPUT; a plain variable otherwise. It fails only when it must aggregate OUTPUT for a grouped rule whose parameters do not fit. |
| CompilerProperties.ActionQueryOuterSelect | src/main/java/it/polimi/modaclouds/monitoring/monitoring_manager/CSPARQLEngineManager.java:242-269 | In a compiled main query, the outer select is the grouping variable, then the aggregate function applied to the parameter array as OUTPUT (plain INPUT with the secondary aggregator), then MAX of INPUT_TIMESTAMP as TIMESTAMP. |
| CompilerProperties.ActionQueryInnerSelect | src/main/java/it/polimi/modaclouds/monitoring/monitoring_manager/CSPARQLEngineManager.java:242-269 | In a compiled main query, the subquery selects the grouping variable, INPUT, and the timestamp function of DATUM, aboutResource and TARGET as INPUT_TIMESTAMP. |
| Compiler.ParameterValue | src/main/java/it/polimi/modaclouds/monitoring/monitoring_manager/CSPARQLEngineManager.java:452-458 | Gives null exactly when no parameter has the key, and otherwise the value of the first parameter that has it. |
| Compiler.ConstructTemplate | src/main/java/it/polimi/modaclouds/monitoring/monitoring_manager/CSPARQLEngineManager.java:401-406 | An OutputMetric template has four triples on one blank node. The metric is "mo:" followed by the value of the first parameter called "name", or "mo:null" when there is none. Then come aboutResource (the output target), value (the output value) and timestamp (TIMESTAMP). |
| Compiler.ScanActions | src/main/java/it/polimi/modaclouds/monitoring/monitoring_manager/CSPARQLEngineManager.java:387-432 | The action loop succeeds if and only if every action is OutputMetric and, when there is one, the output target can be computed. It adds one construct template per action. A not-implemented error names an action in the list that is not OutputMetric. |
| CompilerProperties.ScanActionsTemplates | src/main/java/it/polimi/modaclouds/monitoring/monitoring_manager/CSPARQLEngineManager.java:393-406 | The action loop keeps the templates already given and appends, for the i-th action, the template built from that action with the output target and output value variables. |
| CompilerProperties.FirstUnsupportedActionReported | src/main/java/it/polimi/modaclouds/monitoring/monitoring_manager/CSPARQLEngineManager.java:393-428 | The first action that is not OutputMetric is the one reported as not implemented. |
| CompilerProperties.ActionDispatch | src/main/java/it/polimi/modaclouds/monitoring/monitoring_manager/CSPARQLEngineManager.java:387-432 | addActions accepts exactly the all-OutputMetric lists. It sets the required variables to [output target, output value, TIMESTAMP], or leaves them null for an empty list. It reports the first other action name, or the output target's error when that comes first. |
| CompilerProperties.AddActionsTemplates | src/main/java/it/polimi/modaclouds/monitoring/monitoring_manager/CSPARQLEngineManager.java:387-432 | A successful addActions gives one construct template per action, in order: the i-th is the template built from the i-th action with the output target and output value variables. |
| Compiler.ActionQuery | src/main/java/it/polimi/modaclouds/monitoring/monitoring_manager/CSPARQLEngineManager.java:202-221 | A compiled main query carries the given name and reads the given stream with the rule's window and step. |
| CompilerProperties.ActionQueryAcceptsExactly | src/main/java/it/polimi/modaclouds/monitoring/monitoring_manager/CSPARQLEngineManager.java:202-221 | createActionQuery succeeds exactly for rules with one VM target, grouping by VM or CloudProvider, a non-empty all-OutputMetric action list, and fitting aggregate parameters whenever the outer query aggregates. |
| CompilerProperties.ActionQueryShape | src/main/java/it/polimi/modaclouds/monitoring/monitoring_manager/CSPARQLEngineManager.java:202-221 | A compiled main query reads the knowledge base's default graph and has no outer select. Its i-th construct is the template of the i-th action, about the grouping variable and carrying the output value. Its body projects [grouping, value, TIMESTAMP], groups by the grouping variable and has the substituted condition. Its subquery projects [grouping, INPUT, INPUT_TIMESTAMP] over the graph pattern. |
| Compiler.TunnelQuery | src/main/java/it/polimi/modaclouds/monitoring/monitoring_manager/CSPARQLEngineManager.java:343-364 | The tunnel query compiles exactly when the graph pattern does, under the given name, stream, window and step. It reads the knowledge base's default graph and has no construct. It projects TARGET, INPUT and TIMESTAMP. Its body selects TARGET and INPUT and derives TIMESTAMP as the timestamp function of DATUM, aboutResource and TARGET over the rule's graph pattern, with no GROUP BY and no HAVING. |
| CompilerProperties.TunnelCompilesAfterMain | src/main/java/it/polimi/modaclouds/monitoring/monitoring_manager/CSPARQLEngineManager.java:117-134 | Whenever the main query compiles, the tunnel query compiles too, so installRule never fails on the tunnel after its main query compiled. |
| Manager.GetQuery | src/main/java/it/polimi/modaclouds/monitoring/monitoring_manager/CSPARQLEngineManager.java:518-520 | A query URI gives the registered query exactly when it is a key of registeredQueries, and null otherwise. |
| Manager.FirstFreeDraw | src/main/java/it/polimi/modaclouds/monitoring/monitoring_manager/CSPARQLEngineManager.java:373-381 | The retry loop ends on the first random name whose suffixed form is not taken; every earlier draw was taken. |
| Manager.NewQueryName | src/main/java/it/polimi/modaclouds/monitoring/monitoring_manager/CSPARQLEngineManager.java:373-381 | The new name ends with the suffix and is not a key of registeredQueries. It is the escaped rule id plus suffix when that is free, and otherwise the first free random name plus suffix. |
| Manager.RegisterStream | src/main/java/it/polimi/modaclouds/monitoring/monitoring_manager/CSPARQLEngineManager.java:179-200 | A known stream makes no engine call and changes nothing. Otherwise one call is made; success or an "already exists" message appends the stream, and any other refusal fails and leaves the registry unchanged. Queries and rule lists are never touched. |
| ManagerProperties.RegisterStreamNoDuplicates | src/main/java/it/polimi/modaclouds/monitoring/monitoring_manager/CSPARQLEngineManager.java:179-200 | A duplicate-free stream list stays duplicate-free, and after success the stream is recorded exactly once. |
| ManagerProperties.RegisterStreamIdempotent | src/main/java/it/polimi/modaclouds/monitoring/monitoring_manager/CSPARQLEngineManager.java:179-181 | Registering a stream again after success makes no engine call and changes nothing. |
| ManagerProperties.RegisterStreamRefusal | src/main/java/it/polimi/modaclouds/monitoring/monitoring_manager/CSPARQLEngineManager.java:186-197 | A refusal whose message contains "already exists" counts as success and appends the stream. Any other refusal fails with the stream's error and changes nothing. |
| Manager.RegisterQuery | src/main/java/it/polimi/modaclouds/monitoring/monitoring_manager/CSPARQLEngineManager.java:164-177 | One engine call is made. On success the returned URI maps to the query and is appended to the rule's list, created when absent; nothing else changes. A refused query is an internal error, an unreachable server a DDA connection error, and failure changes nothing. |
| ManagerProperties.RegisterQueryThenGetQuery | src/main/java/it/polimi/modaclouds/monitoring/monitoring_manager/CSPARQLEngineManager.java:164-177 | After registerQuery, getQuery finds the query under the returned URI, every other URI answers as before, and the rule owns the URI. |
| Manager.AttachObserver | src/main/java/it/polimi/modaclouds/monitoring/monitoring_manager/CSPARQLEngineManager.java:145-162 | Attaching an observer makes one call and never changes the registry. It succeeds exactly when the engine attaches the observer. An observer error becomes the SDA connection failure, and a server error becomes the DDA connection failure. |
| Manager.CompileRule | src/main/java/it/polimi/modaclouds/monitoring/monitoring_manager/CSPARQLEngineManager.java:114-134 | Before anything is registered, the main query is the createActionQuery result for a name not yet taken. It reads the stream of the rule's metric, or of the aggregator's metric with the secondary aggregator. A tunnel query exists exactly with the secondary aggregator. It is the createTunnelQuery result on the rule's own metric, under a free name ending in "Tunnel". |
| ManagerProperties.CompileRuleAcceptsExactly | src/main/java/it/polimi/modaclouds/monitoring/monitoring_manager/CSPARQLEngineManager.java:114-134 | The construction half of installRule succeeds exactly for the rules createActionQuery accepts. Otherwise it fails with the main query's error, since the tunnel query always compiles once the main one has. |
| Manager.RegisterMain | src/main/java/it/polimi/modaclouds/monitoring/monitoring_manager/CSPARQLEngineManager.java:141-142 | A successful main registration calls the engine for the query, preceded by the stream unless it was known, and leaves the stream recorded. |
| Manager.RegisterTunnel | src/main/java/it/polimi/modaclouds/monitoring/monitoring_manager/CSPARQLEngineManager.java:135-139 | A successful tunnel registration sends the optional stream call, the query and then the observer. The observer points the returned query URI at the secondary aggregator. |
| Manager.InstallRule | src/main/java/it/polimi/modaclouds/monitoring/monitoring_manager/CSPARQLEngineManager.java:114-156 | A rule that does not compile leaves the registry unchanged and calls nothing. A successful installation makes main calls only, or tunnel calls followed by main calls. |
| ManagerProperties.RegisterPlanSound | src/main/java/it/polimi/modaclouds/monitoring/monitoring_manager/CSPARQLEngineManager.java:127-143 | The registration steps, for any engine replies: the streams gain exactly the acknowledged ones, and the rule's list gains exactly the returned URIs, each registered. No registered query is dropped, other rules are untouched, no known stream is sent again, and consistency is kept. |
| ManagerProperties.RegisterStreamAnswered | src/main/java/it/polimi/modaclouds/monitoring/monitoring_manager/CSPARQLEngineManager.java:179-200 | A stream step succeeds exactly when every call it made was acknowledged: none for a known stream, else an accepted or "already exists" reply. Otherwise it fails with "could not register stream" for that stream. |
| ManagerProperties.RegisterQueryAnswered | src/main/java/it/polimi/modaclouds/monitoring/monitoring_manager/CSPARQLEngineManager.java:164-167 | A query step succeeds exactly when the engine returns a URI. A QueryErrorException is reported as the internal error (:145-147), and a ServerErrorException as the DDA connection failure (:148-151). |
| ManagerProperties.AttachObserverAnswered | src/main/java/it/polimi/modaclouds/monitoring/monitoring_manager/CSPARQLEngineManager.java:159-162 | An observer step succeeds exactly when the engine attaches the observer. An ObserverErrorException is reported as the SDA connection failure (:152-155), and a ServerErrorException as the DDA connection failure (:148-151). |
| ManagerProperties.RegisterPlanAnswered | src/main/java/it/polimi/modaclouds/monitoring/monitoring_manager/CSPARQLEngineManager.java:127-156 | The registration half succeeds exactly when the engine acknowledges every call. Otherwise its last call is the first refused one, and the failure is the one that refusal maps to. |
| ManagerProperties.InstallRuleAnswered | src/main/java/it/polimi/modaclouds/monitoring/monitoring_manager/CSPARQLEngineManager.java:114-157 | installRule succeeds if and only if the rule compiles and the engine acknowledges every call made. A compiled rule that fails stops at the first refused call, and reports the exception that call raises as installRule maps it. |
| ManagerProperties.InstallRuleSound | src/main/java/it/polimi/modaclouds/monitoring/monitoring_manager/CSPARQLEngineManager.java:114-177 | Whatever the engine answers, the streams gain exactly the acknowledged ones, and the rule's list gains exactly the returned URIs, each registered. No registered query is dropped, other rules are untouched, and no known stream is sent again. A consistent registry stays consistent, with no rollback after a late failure. |
| ManagerProperties.InstallRuleRegistersPlannedQueries | src/main/java/it/polimi/modaclouds/monitoring/monitoring_manager/CSPARQLEngineManager.java:114-143 | A successful installation registers the tunnel query (secondary aggregator only) and then the main query, each once, and the rule gains one URI per query. |
| ManagerProperties.InstallRuleCallSequence | src/main/java/it/polimi/modaclouds/monitoring/monitoring_manager/CSPARQLEngineManager.java:114-143 | The exact call order of a successful installation: tunnel stream (if new), tunnel query, observer, then main stream (if new) and main query. |
| ManagerProperties.SecondaryAggregationPlan | src/main/java/it/polimi/modaclouds/monitoring/monitoring_manager/CSPARQLEngineManager.java:117-134 | With the secondary aggregator, the main query reads the aggregator's metric stream and projects INPUT as the value. The tunnel query reads the rule's metric and projects TARGET, INPUT, TIMESTAMP. |
| Observers.Uri | src/main/java/it/polimi/modaclouds/monitoring/monitoring_manager/Observer.java:47-49 | An observer's URI starts with its query URI, ends with "/observers/" + id, and is exactly as long as those parts together. |
| Observers.WithQueryUri | src/main/java/it/polimi/modaclouds/monitoring/monitoring_manager/Observer.java:43-45 | setQueryUri changes the query URI only; the id and the callback URL stay. |
| Observers.QueryUriRecovered | src/main/java/it/polimi/modaclouds/monitoring/monitoring_manager/Observer.java:47-49 | Given the id, the query URI is recovered from the observer's URI. |
| Observers.UriInjective | src/main/java/it/polimi/modaclouds/monitoring/monitoring_manager/Observer.java:47-49 | Two observers with the same id and the same URI observe the same query. |
| Observers.SetQueryUriThenUri | src/main/java/it/polimi/modaclouds/monitoring/monitoring_manager/Observer.java:43-49 | After setQueryUri(q), the URI starts with q, ends with "/observers/" + id, and gives back q. |
| Observers.SetQueryUriOverwrites | src/main/java/it/polimi/modaclouds/monitoring/monitoring_manager/Observer.java:43-45 | The last setQueryUri wins, and setting the current query URI changes nothing. |
| Addresses.CleanAddress | src/main/java/it/polimi/modaclouds/monitoring/monitoring_manager/CSPARQLEngineManager.java:106-112 | The result is never longer than the input. It is the text after the first "://" (or the whole address), less one trailing "/" when present. |
| Addresses.SchemeAndSlashRemoved | src/main/java/it/polimi/modaclouds/monitoring/monitoring_manager/CSPARQLEngineManager.java:106-112 | For a scheme without ':' and any host, cleaning scheme + "://" + host + "/" gives the host. |
| Addresses.BareHostUnchanged | src/main/java/it/polimi/modaclouds/monitoring/monitoring_manager/CSPARQLEngineManager.java:106-112 | A host without "://" and without a trailing "/" comes back unchanged. |
| Addresses.OneSlashOnly | src/main/java/it/polimi/modaclouds/monitoring/monitoring_manager/CSPARQLEngineManager.java:106-112 | Only one trailing slash is dropped. |
| Scenarios.UngroupedVmRuleRejected | src/main/java/it/polimi/modaclouds/monitoring/monitoring_manager/CSPARQLEngineManager.java:487-510 | An ungrouped rule on one VM is rejected with the target-class error, with no engine call and no registry change. |
| Scenarios.OtherActionRejected | src/main/java/it/polimi/modaclouds/monitoring/monitoring_manager/CSPARQLEngineManager.java:393-428 | A rule with an EnableMonitoringRule action is rejected as not implemented, with no engine call and no registry change. |
| Scenarios.CloudProviderAverageInstalls | src/main/java/it/polimi/modaclouds/monitoring/monitoring_manager/CSPARQLEngineManager.java:114-143 | A rule averaging CPU per cloud provider installs: one stream and one query are registered, the query groups by ?CloudProvider, and the rule owns the returned URI. |
| Scenarios.CloudProviderAveragePublishes | src/main/java/it/polimi/modaclouds/monitoring/monitoring_manager/CSPARQLEngineManager.java:396-406 | The compiled query's one construct publishes "mo:HighCpu", from the action's "name" parameter, about ?CloudProvider, carrying OUTPUT. |
| Scenarios.VmGroupingKeepsGroupingVariable | src/main/java/it/polimi/modaclouds/monitoring/monitoring_manager/CSPARQLEngineManager.java:297-321 | A VM-grouped rule on a VM target groups by ?VM, not by TARGET. |
| Scenarios.NameReusedAfterRegistration | src/main/java/it/polimi/modaclouds/monitoring/monitoring_manager/CSPARQLEngineManager.java:373-381 | After a query named after the rule is filed under a URI, getNewQueryName hands out the same name again. |

## Left out

- `isSubclassOf` and the dataset accessor (src/main/java/it/polimi/modaclouds/monitoring/monitoring_manager/CSPARQLEngineManager.java:67, :522-531): a SPARQL query over the network, and unused.
- The manager's constructor, `loadConfig` and `createURL` (:79-104): they read configuration singletons and build `java.net.URL` values. The addresses they produce are the `Config` parameter, and only `cleanAddress` is modelled.
- The stream engine client: its replies are the `Engine` parameter, not a real client.
- Query text: `getCSPARQL`, `createQueryTemplate`, `addPrefixes` and the builder's own `MalformedQueryException` are external library behaviour. The registry maps each URI to the `Query` value instead of its text, and window lengths stay integers rather than "60s" strings.
- Logging.
- Manager.NewQueryName: the random-name loop has no termination argument. The names it would draw are a finite sequence given as a parameter, with the precondition that one of them is free.
- Manager.InstallRule: requires a free tunnel name whenever the secondary aggregator is used, even when the main query fails to compile first (the source would then fail before drawing tunnel names).
- Manager.CompileRule: the same tunnel-name precondition as `Manager.InstallRule`.
- Null inputs:
  - A null action list leaves the required variables null (:390-391), as an empty one does.
  - A null aggregation parameter list is skipped (:277), like an empty one.
  - Both lists are plain sequences here.
  - A null target list would throw a NullPointerException at `targets.size()` (:337). The types exclude it.
  - A null action parameter list would throw one in `getParValue` (:453). The types exclude it too.
  - A null grouping name, parameter value or exception message is likewise excluded.
- The missing-actions crash: a rule with no action leaves the required variables null, and `addSelect` would then throw a NullPointerException. The model reports it as `MissingRequiredVariables`.
- `QueryVars` and `Vocabulary` are not part of this model. The variables are a datatype whose spellings are stand-ins, used only for the condition substitution. The class names are taken to be "VM" and "CloudProvider".
- The Observer getters and constructor: the datatype's fields and constructor are them.
- The REST server, the browser UI, the deployment example and the knowledge-base mockup: plumbing and seed data with no logic of the core.
