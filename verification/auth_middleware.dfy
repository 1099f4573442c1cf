/**
  The server-side `authMiddleware` of middlewares/auth.ts. Per request it
  rejects a falsy access token without any provider call, otherwise sends
  the token to the provider's "/auth/me" endpoint, rejects when the response
  is not ok, and otherwise calls `next` once with the context extended by
  the `{id, username, email}` projection of the response body.

  The provider is a function from the Authorization header value it
  receives to the response it sends back.
 */
module AuthMiddleware {
  import opened JsValues

  const ME_URL: string := "https://dummyjson.com/auth/me"
  const NO_TOKEN_MESSAGE: string := "Unauthorized: No access token provided"
  const INVALID_TOKEN_MESSAGE: string := "Unauthorized: Invalid token"

  datatype ContextUser = ContextUser(id: int, username: string, email: string)

  /** `AuthContext`: both keys optional. */
  datatype AuthContext = AuthContext(user: Option<ContextUser>, accessToken: Option<string>)

  /** The JSON body of an ok "/auth/me" response. */
  datatype MeBody = MeBody(id: int, username: string, email: string, firstName: string, lastName: string)

  /** What `fetch` settles with: a response (ok or not) or a rejection. */
  datatype FetchResult = Response(ok: bool, body: MeBody) | NetworkError

  /** How the middleware ends one request. */
  datatype Outcome =
    | Rejected(message: string)      // one of the two "Unauthorized" errors
    | FetchRejected                  // the rejection of `fetch`, passed on
    | CallNext(context: AuthContext) // the single call of `next`, with the context it runs under

  /** A provider request: the URL fetched and its Authorization header. */
  datatype Request = Request(url: string, authorization: string)

  /** The outcome, and every provider request made on the way. */
  datatype Handled = Handled(outcome: Outcome, requests: seq<Request>)

  /** The `{id, username, email}` the middleware keeps of the provider's body. */
  function Project(body: MeBody): (u: ContextUser)
    ensures u.id == body.id && u.username == body.username && u.email == body.email
  {
    ContextUser(body.id, body.username, body.email)
  }

  function Authenticate(context: AuthContext, fetchMe: string -> FetchResult): (h: Handled)
    // a falsy token is rejected before any provider request
    ensures !Truthy(context.accessToken) ==> h == Handled(Rejected(NO_TOKEN_MESSAGE), [])
    // otherwise exactly one request, carrying the token as a bearer credential
    ensures Truthy(context.accessToken) ==> h.requests == [Request(ME_URL, "Bearer " + context.accessToken.value)]
    // a response that is not ok is rejected as an invalid token; next runs exactly
    // when the provider accepted the token, under the request's context plus the
    // provider's id, username and email
    ensures Truthy(context.accessToken) ==>
              var response := fetchMe("Bearer " + context.accessToken.value);
              && (h.outcome == Rejected(INVALID_TOKEN_MESSAGE) <==> response.Response? && !response.ok)
              && (h.outcome == FetchRejected <==> response.NetworkError?)
              && (h.outcome.CallNext? <==> response.Response? && response.ok)
              && (h.outcome.CallNext? ==> h.outcome.context == context.(user := Some(Project(response.body))))
    // no request is let through without the provider's confirmation
    ensures h.outcome.CallNext? ==> Truthy(context.accessToken) && h.outcome.context.user.Some?
  {
    if !Truthy(context.accessToken) then Handled(Rejected(NO_TOKEN_MESSAGE), [])
    else
      var authorization := "Bearer " + context.accessToken.value;
      var request := Request(ME_URL, authorization);
      match fetchMe(authorization)
      case NetworkError => Handled(FetchRejected, [request])
      case Response(ok, body) =>
        if !ok then Handled(Rejected(INVALID_TOKEN_MESSAGE), [request])
        else Handled(CallNext(context.(user := Some(Project(body)))), [request])
  }
}
