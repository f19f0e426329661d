/**
 * The token check in front of every route: a request whose HTTP method is
 * one of the checked ones, on a path that is not exempt, and without the
 * configured token is answered with NotAuthorized "invalid Token" and goes
 * no further; every other request is handed on to the next handler.
 * The configured token (read from configuration at runtime) is a parameter.
 */
module Security {
  import opened Wrappers
  import opened Restify

  const CheckedMethods: seq<string> := ["GET", "POST", "PUT", "PATCH", "DELETE"]
  const ExemptPaths: seq<string> := ["/ping"]

  /** The parts of a request the check looks at: method, route path, authorization header. */
  datatype Request = Request(verb: string, routePath: string, authorization: Option<string>)

  /** The method is found in the list of checked methods. */
  predicate ShouldValidateMethod(verb: string): (checked: bool)
    ensures checked <==> verb == "GET" || verb == "POST" || verb == "PUT" || verb == "PATCH" || verb == "DELETE"
  {
    verb in CheckedMethods
  }

  /** The path is not found in the list of exempt paths. */
  predicate ShouldValidatePath(path: string): (checked: bool)
    ensures checked <==> path != "/ping"
  {
    path !in ExemptPaths
  }

  /** `!!token && configured === token`: a non-empty header equal to the configured token. */
  predicate TokenIsValid(token: Option<string>, configured: string): (valid: bool)
    ensures valid <==> token == Some(configured) && configured != ""
  {
    token.Some? && token.value != "" && configured == token.value
  }

  function SecurityMiddleware(req: Request, configured: string): (e: Effect)
    ensures e == Proceed || e == Respond(NotAuthorized("invalid Token"))
    ensures e.Respond? <==>
      ShouldValidateMethod(req.verb) && ShouldValidatePath(req.routePath) && !TokenIsValid(req.authorization, configured)
    ensures NextCalls(e) == (if e.Respond? then 0 else 1)
  {
    if ShouldValidateMethod(req.verb) && ShouldValidatePath(req.routePath) && !TokenIsValid(req.authorization, configured) then
      Respond(NotAuthorized("invalid Token"))
    else
      Proceed
  }

  /** A missing or empty token is never valid, whatever the configured token. */
  lemma EmptyTokenNeverValid(configured: string)
    ensures !TokenIsValid(None, configured)
    ensures !TokenIsValid(Some(""), configured)
  {
  }

  /** A request carrying the configured (non-empty) token always passes. */
  lemma ConfiguredTokenPasses(verb: string, path: string, configured: string)
    requires configured != ""
    ensures SecurityMiddleware(Request(verb, path, Some(configured)), configured) == Proceed
  {
  }

  /** Unchecked methods and the ping path pass whatever token they carry. */
  lemma UncheckedRequestsPass(req: Request, configured: string)
    requires !ShouldValidateMethod(req.verb) || req.routePath == "/ping"
    ensures SecurityMiddleware(req, configured) == Proceed
  {
  }
}
