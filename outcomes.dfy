/**
 * How the pages see the network and the session store: the outcome of an
 * awaited request, and the calls a handler makes into code outside this
 * model (the session store's `login`/`logout`, the router's `navigate`,
 * a DOM scroll and a toast), listed in the order they are made.
 */
module Outcomes {
  import opened Wrappers
  import opened Js
  import opened Users

  /** A rejected request: the HTTP response, if any, its body, and the body's `msg`. */
  datatype ErrorData = ErrorData(msg: Option<string>)
  datatype ErrorResponse = ErrorResponse(data: Option<ErrorData>)
  datatype RequestError = RequestError(response: Option<ErrorResponse>)

  /** An awaited request either resolves with a body or throws. */
  datatype Reply<T> = Ok(body: T) | Failed(error: RequestError)

  /**
   * A resolved response as the pages unwrap it: one that carries its
   * payload in `data`, or one that is the payload itself.
   */
  datatype Envelope<T> = WithData(data: T) | Bare(payload: T)

  function Unwrap<T>(e: Envelope<T>): T
  {
    match e
    case WithData(d) => d
    case Bare(p) => p
  }

  /** The server explained the rejection: the response body has a non-empty `msg`. */
  predicate HasServerMessage(err: RequestError)
  {
    err.response.Some? && err.response.value.data.Some? && Truthy(err.response.value.data.value.msg)
  }

  /** The server's explanation when it gave one, else `fallback`. */
  function ServerMessageOr(err: RequestError, fallback: string): (m: string)
    ensures HasServerMessage(err) ==> m == err.response.value.data.value.msg.value
    ensures !HasServerMessage(err) ==> m == fallback
  {
    if err.response.Some? && err.response.value.data.Some?
    then Or(err.response.value.data.value.msg, fallback)
    else fallback
  }

  /** The body of a successful login or registration: a user and a token, either of which may be missing. */
  datatype AuthReply = AuthReply(user: Option<User>, token: Option<string>)

  /** The `state` passed with a navigation; only `scrollToAbout` is ever set. */
  datatype NavState = NavState(scrollToAbout: Option<bool>)

  datatype ToastKind = Success | Error

  datatype Effect =
    | CallLogin(user: Option<User>, token: Option<string>)
    | CallLogout
    | Navigate(to: string, state: Option<NavState>)
    | ScrollToAbout
    | Toast(kind: ToastKind, message: string)
}
