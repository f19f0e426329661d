/**
 * The errors the modelled code sends or rejects with (the restify-errors
 * classes, plus the bare values a promise can be rejected with), and what a
 * request-handling wrapper does with a request.
 */
module Restify {
  import opened Values

  datatype Error =
    | NotFound(message: string)
    | InternalServer(message: string)
    | NotAuthorized(message: string)
    | NotAcceptable(message: string)
    | UnprocessableEntity(message: string)
    /** JavaScript TypeError, e.g. calling `.match` on something that is not a string */
    | TypeError
    /** a promise rejected with a plain value, as in `reject("Not content")` */
    | Reason(value: Value)

  /** The error the data source manager synthesises when no backend has the resource. */
  const ResourceNotFound: Error := NotFound("Resource not found")

  /**
   * What a middleware or a decorated route handler does with one request:
   * it sends an error response and stops, it hands the request on (calls
   * `next`, or runs the original handler, exactly once), or an exception
   * escapes from it.
   */
  datatype Effect =
    | Respond(error: Error)
    | Proceed
    | Throw(thrown: Error)

  /** How many times the next handler in the chain runs. */
  function NextCalls(e: Effect): (n: nat)
    ensures n <= 1
    ensures n == 1 <==> e.Proceed?
  {
    if e.Proceed? then 1 else 0
  }
}
