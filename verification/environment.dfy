/** What the manager depends on but does not implement: configuration, the
    query-builder library's lookup functions, random names and the remote
    stream engine. Each is an oracle the model is parameterised by. */
module Environment {
  import opened Queries

  /** Addresses read from configuration at start-up. */
  datatype Config = Config(
    streamsUri: string,
    knowledgeBaseDataUrl: string,
    sdaUrl: string)

  /** Which parameter of an aggregate function is asked for. */
  datatype ParameterKey = InputVariable | Named(name: string)

  /** Library lookups: CSquery.escapeName and FunctionParameter's
      getNumberOfParameters / getParameterIdx. */
  datatype Library = Library(
    escapeName: string -> string,
    parameterCount: string -> int,
    parameterIndex: (string, ParameterKey) -> int)

  /** The names CSquery.generateRandomName yields while the main query name
      and the tunnel query name are looked for. */
  datatype RandomNames = RandomNames(main: seq<string>, tunnel: seq<string>)

  /** Reply to a stream registration: an acknowledgement, or an exception
      with its message. */
  datatype StreamReply = StreamAccepted | StreamRefused(message: string)

  /** Reply to a query registration: the query URI, a QueryErrorException or
      a ServerErrorException. */
  datatype QueryReply = QueryAccepted(uri: string) | QueryRefused | QueryServerDown

  /** Reply to attaching an observer: success, an ObserverErrorException or a
      ServerErrorException. */
  datatype ObserverReply = ObserverAttached | ObserverRefused | ObserverServerDown

  /** The remote stream engine, answering each request. */
  datatype Engine = Engine(
    registerStream: string -> StreamReply,
    registerQuery: (string, Query) -> QueryReply,
    addObserver: (string, string) -> ObserverReply)

  /** A request sent to the engine. */
  datatype EngineCall =
    | StreamCall(streamUri: string)
    | QueryCall(name: string, query: Query)
    | ObserverCall(queryUri: string, callbackUrl: string)

  datatype CallKind = StreamKind | QueryKind | ObserverKind

  function Kind(c: EngineCall): CallKind
  {
    match c
    case StreamCall(_) => StreamKind
    case QueryCall(_, _) => QueryKind
    case ObserverCall(_, _) => ObserverKind
  }

  function Kinds(calls: seq<EngineCall>): (ks: seq<CallKind>)
    ensures |ks| == |calls|
    ensures forall i | 0 <= i < |calls| :: ks[i] == Kind(calls[i])
  {
    seq(|calls|, i requires 0 <= i < |calls| => Kind(calls[i]))
  }
}
