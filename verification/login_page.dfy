/**
 The login page's `handleSubmit`: a required-field check, the login request, and a three-way
 classification of failures. A successful reply must carry a token, which is handed to the
 authentication context before going to the dashboard.
 */
module LoginPage {
  import opened Js
  import opened Http
  import opened Ui

  /** The body of a login reply, as far as the page reads it. */
  datatype LoginReply = LoginReply(token: Option<string>)

  datatype State = State(loading: bool)

  const FillInFields := "Please fill in all fields"
  const InvalidReply := "Resposta inválida do servidor"
  const LoginErrorText := "Login error"

  function LoginRequest(email: string, password: string): Request {
    Request(POST, "/auth/login", None, [("email", Str(email)), ("password", Str(password))])
  }

  /** The catch block: a response's message (or 'Login error'), the connection text, or 'Erro inesperado'. */
  function Failure<T>(reply: Outcome<T>): Effect
    requires !reply.Ok?
  {
    if reply.HttpError? then ErrorToast(Or(reply.message, LoginErrorText))
    else if reply.NoResponse? then ErrorToast(ConnectionVerify)
    else ErrorToast(UnexpectedText)
  }

  function Submit(s: State, email: string, password: string, reply: Outcome<LoginReply>): (r: Reaction<State>)
    // an empty field: one error toast, no loading state, no request
    ensures email == "" || password == "" ==>
              r.requests == [] && r.awaiting == None && r.state == s && r.effects == [ErrorToast(FillInFields)]
    // otherwise: exactly the login request, loading while it is pending and not afterwards
    ensures email != "" && password != "" ==>
              && r.requests == [LoginRequest(email, password)]
              && r.awaiting == Some(State(true))
              && r.state == State(false)
    // a token in the reply signs in and goes to the dashboard; every other path shows one error
    // toast and leaves the session alone
    ensures (email != "" && password != "" && reply.Ok? && Truthy(reply.body.token)) ==>
              r.effects == [SignIn(reply.body.token.value), Navigate("/dashboard")]
    ensures !(email != "" && password != "" && reply.Ok? && Truthy(reply.body.token)) ==>
              |r.effects| == 1 && r.effects[0].Toast? && r.effects[0].kind == Error
    ensures email != "" && password != "" && reply.Ok? && !Truthy(reply.body.token) ==>
              r.effects == [ErrorToast(InvalidReply)]
    ensures email != "" && password != "" && reply.HttpError? ==>
              r.effects == [ErrorToast(Or(reply.message, LoginErrorText))]
    ensures email != "" && password != "" && reply == NoResponse ==> r.effects == [ErrorToast(ConnectionVerify)]
    ensures email != "" && password != "" && reply == Thrown ==> r.effects == [ErrorToast(UnexpectedText)]
    ensures Logout !in r.effects
  {
    if email == "" || password == "" then
      Reaction([], None, s, [ErrorToast(FillInFields)])
    else
      var pending := s.(loading := true);
      var done := pending.(loading := false);
      var effects :=
        match reply
        case Ok(data) =>
          if Truthy(data.token) then [SignIn(data.token.value), Navigate("/dashboard")]
          else [ErrorToast(InvalidReply)]
        case _ => [Failure(reply)];
      Reaction([LoginRequest(email, password)], Some(pending), done, effects)
  }

  /**
   The login page reads a failure by the console's error classes, except that it has no session
   to end: a 401 is shown like any other rejection, with the server's message or 'Login error'.
   */
  lemma FailureFollowsClass(s: State, email: string, password: string, reply: Outcome<LoginReply>)
    requires email != "" && password != "" && !reply.Ok?
    ensures Classify(reply) == SessionExpired ==>
              Submit(s, email, password, reply).effects == [ErrorToast(Or(reply.message, LoginErrorText))]
    ensures Classify(reply).RemoteRejection? ==>
              Submit(s, email, password, reply).effects == [ErrorToast(Or(Classify(reply).message, LoginErrorText))]
    ensures Classify(reply) == TransportFailure ==> Submit(s, email, password, reply).effects == [ErrorToast(ConnectionVerify)]
    ensures Classify(reply) == Unexpected ==> Submit(s, email, password, reply).effects == [ErrorToast(UnexpectedText)]
    ensures !Expelled(Submit(s, email, password, reply).effects)
  {
  }
}
