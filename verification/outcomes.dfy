/** Optional values, the failures a rule installation can end in, and the
    result type that carries them. */
module Outcomes {

  /** A Java reference that may be null. */
  datatype Option<+T> = None | Some(value: T)

  /** Every way compiling or installing a monitoring rule can fail. The
      comments name the exception the manager raises at that point. */
  datatype Failure =
      /** NotImplementedException: zero or several monitored targets */
    | UnsupportedTargetCardinality(count: nat)
      /** RuleInstallationException: targets of different classes */
    | MixedTargetClasses
      /** NotImplementedException: an action other than OutputMetric */
    | UnsupportedAction(name: string)
      /** NullPointerException: no action set the required variables */
    | MissingRequiredVariables
      /** NegativeArraySizeException: the library reports a negative arity */
    | NegativeParameterCount(aggregate: string, arity: int)
      /** ArrayIndexOutOfBoundsException: a parameter index outside the arity */
    | ParameterIndexOutOfBounds(aggregate: string, index: int)
      /** NotImplementedException: grouping class not handled for the target class */
    | UnsupportedGroupingClass(groupingClass: string, targetClass: string)
      /** NotImplementedException: target class not handled */
    | UnsupportedTargetClass(targetClass: string)
      /** RuleInstallationException: the engine refused a stream */
    | StreamNotRegistered(streamUri: string)
      /** RuleInstallationException "Internal error": the engine refused a query */
    | InternalError
      /** RuleInstallationException: the stream engine (DDA) could not be reached */
    | DdaConnectionFailed
      /** RuleInstallationException: attaching the aggregator (SDA) observer failed */
    | SdaConnectionFailed

  datatype Result<+T> = Ok(value: T) | Err(failure: Failure) {

    predicate IsFailure() {
      Err?
    }

    function PropagateFailure<U>(): Result<U>
      requires Err?
    {
      Err(failure)
    }

    function Extract(): T
      requires Ok?
    {
      value
    }
  }
}
