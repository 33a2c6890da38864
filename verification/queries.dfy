/** The continuous queries the manager builds, as values: what the query
    builder is told, not the text it renders. */
module Queries {
  import opened Outcomes

  /** Query variables. `Grouping(c)` is the variable written "?" + c. */
  datatype Var =
    | Target
    | Input
    | Output
    | Timestamp
    | InputTimestamp
    | Datum
    | Grouping(groupingClass: string)

  /** Functions a select item can apply. */
  datatype Function = Max | TimestampOf | Aggregate(name: string)

  /** Ontology terms used by the patterns (monitoring ontology and RDF). */
  datatype Resource =
    | MetricProperty
    | AboutResource
    | ValueProperty
    | IdProperty
    | TimestampProperty
    | RdfType
    | VmClass
    | CloudProviderProperty

  /** `MetricRef(m)` is the prefixed name "mo:" + m; `Text` is a parameter
      value passed through as text; `Null` is a Java null argument. */
  datatype Term =
    | V(v: Var)
    | Res(resource: Resource)
    | MetricRef(metric: string)
    | Literal(text: string)
    | Text(s: string)
    | Null
    | BlankNode

  datatype Triple = Triple(s: Term, p: Term, o: Term)

  /** Either a plain projected variable or a variable defined by a function. */
  datatype SelectItem =
    | Plain(v: Var)
    | Apply(v: Var, fn: Function, args: seq<Term>)

  datatype Pattern = Graph(triples: seq<Triple>) | Subquery(body: Body)

  datatype Body = Body(
    select: seq<SelectItem>,
    where: Pattern,
    groupBy: Option<Var>,
    having: Option<string>)

  /** FROM STREAM <streamUri> [RANGE range s STEP step s] */
  datatype Window = Window(streamUri: string, range: int, step: int)

  /** `construct` holds every construct template given to the builder, in order. */
  datatype Query = Query(
    name: string,
    construct: seq<seq<Triple>>,
    select: seq<SelectItem>,
    stream: Window,
    from: string,
    where: Body)

  /** The variables a select list projects, in order. */
  function Projection(items: seq<SelectItem>): (vs: seq<Var>)
    ensures |vs| == |items|
    ensures forall i | 0 <= i < |items| :: vs[i] == items[i].v
  {
    seq(|items|, i requires 0 <= i < |items| => items[i].v)
  }

  /** Spelling of a variable inside query text. The spellings of the fixed
      variables are stand-ins: the QueryVars class is not part of this model. */
  function Name(v: Var): string
  {
    match v
    case Target => "?target"
    case Input => "?input"
    case Output => "?output"
    case Timestamp => "?timestamp"
    case InputTimestamp => "?inputTimestamp"
    case Datum => "?datum"
    case Grouping(c) => "?" + c
  }
}
