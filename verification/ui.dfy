/**
 What a page handler does besides updating its own state: session calls on the (unseen)
 authentication context, navigation, and toasts. A handler is modelled as one sequential step
 that yields a `Reaction`.
 */
module Ui {
  import opened Js
  import opened Http

  datatype ToastKind = Success | Error

  datatype Effect =
    | Logout                               // logout() of the authentication context
    | SignIn(token: string)                // login(token) of the authentication context
    | Navigate(path: string)               // navigate(path)
    | Back                                 // navigate(-1)
    | Toast(kind: ToastKind, text: Option<string>)  // toast.success / toast.error; None is `undefined`

  /**
   The result of one handler run: the requests it issued, in order; the page state rendered while
   the first request is pending (`None` when nothing was sent); the page state once the handler's
   `finally` has run; and the UI effects, in order.
   */
  datatype Reaction<S> = Reaction(requests: seq<Request>, awaiting: Option<S>, state: S, effects: seq<Effect>)

  function ErrorToast(text: string): Effect {
    Toast(Error, Some(text))
  }

  /** `logout(); navigate('/login')`: what every page does when the session is gone. */
  const Expel: seq<Effect> := [Logout, Navigate("/login")]

  /** The operator is signed out and sent to the login page. */
  predicate Expelled(effects: seq<Effect>) {
    Logout in effects && Navigate("/login") in effects
  }

  /**
   The guard every authenticated handler starts with: with no usable token it signs the operator
   out, redirects to /login and sends nothing.
   */
  function NoSession<S>(final: S): (r: Reaction<S>)
    ensures r.requests == [] && r.awaiting == None && r.state == final
    ensures Expelled(r.effects) && |r.effects| == 2
  {
    Reaction([], None, final, Expel)
  }

  /** Connection-error texts the pages use (they differ in wording). */
  const ConnectionCheck := "Erro de conexão. Confira sua internet"
  const ConnectionVerify := "Erro de conexão. Verifique sua internet"
  const UnexpectedText := "Erro inesperado"

  /**
   The session discipline of a handler that treats 401 as expiry: a request goes out exactly when
   there is a token, and the operator is expelled exactly when there is no token or the reply is a
   401 — and then nothing else happens.
   */
  ghost predicate ExpelsOnExpiry<S, T>(token: Option<string>, reply: Outcome<T>, r: Reaction<S>) {
    && (r.requests != [] <==> Truthy(token))
    && (r.awaiting.Some? <==> Truthy(token))
    && (Logout in r.effects <==> (!Truthy(token) || Classify(reply) == SessionExpired))
    && (Logout in r.effects ==> r.effects == Expel)
  }

  /**
   How the create and edit forms report a failed request, by class: a 401 expels, a rejection
   shows the server's message (missing when the server sent none), a request without a response
   shows the connection text, and anything else is unexpected.
   */
  ghost predicate ReportsFailure<T>(reply: Outcome<T>, effects: seq<Effect>) {
    match Classify(reply)
    case Accepted => false
    case SessionExpired => effects == Expel
    case RemoteRejection(message) => effects == [Toast(Error, message)]
    case TransportFailure => effects == [ErrorToast(ConnectionCheck)]
    case Unexpected => effects == [ErrorToast(UnexpectedText)]
  }

  /** The four-branch `catch` block those forms share. */
  function CatchFourWay<T>(reply: Outcome<T>): (effects: seq<Effect>)
    requires !reply.Ok?
    ensures ReportsFailure(reply, effects)
    ensures Logout in effects <==> Unauthorized(reply)
  {
    if Unauthorized(reply) then Expel
    else if reply.HttpError? then [Toast(Error, reply.message)]
    else if reply.NoResponse? then [ErrorToast(ConnectionCheck)]
    else [ErrorToast(UnexpectedText)]
  }
}
