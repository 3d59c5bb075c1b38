/*
 * The values a failed attempt can throw, and the classification rule shared by
 * ConstantPolicy and ExpoPolicy (src/ConstantPolicy.ts:14, src/ExpoPolicy.ts:14):
 * an error is fatal when it carries a response whose status is at least 400.
 */
module Errors {

  /** An optional JavaScript property: `None` is `undefined`. */
  datatype Option<T> = None | Some(value: T)

  /** The `response` object a failed request may carry. */
  datatype Response = Response(status: Option<int>)

  /**
   * What a failing call throws: a falsy value (`undefined`, `null`), or an
   * object with or without a `response` property.
   */
  datatype Error = NoError | Thrown(response: Option<Response>)

  /** HTTP status codes from this value on mark a failure as fatal. */
  const FatalStatus: int := 400

  /** Fatal: a truthy error whose response is present and has a status of at least 400. */
  predicate IsFatal(err: Error): (fatal: bool)
    ensures fatal <==>
      err.Thrown? && err.response.Some? && err.response.value.status.Some?
      && err.response.value.status.value >= FatalStatus
  {
    match err
    case NoError => false
    case Thrown(None) => false
    case Thrown(Some(Response(None))) => false
    case Thrown(Some(Response(Some(status)))) => status >= FatalStatus
  }

  /** The fatal error the retryer specification throws: `{response: {status: 500}}`. */
  const ServerError: Error := Thrown(Some(Response(Some(500))))

  /** A plain `new Error('API failed')`, which has no response. */
  const PlainError: Error := Thrown(None)
}
