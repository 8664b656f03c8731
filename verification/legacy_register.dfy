/**
 The older registration page (`handleRegister` of the `frontend/` tree): both messages are
 cleared, three checks run in order — all fields filled, a password of at least eight
 characters, matching passwords — and only then is the account requested.
 */
module LegacyRegister {
  import opened Js
  import opened Http
  import opened Ui

  datatype Form = Form(name: string, email: string, password: string, repeatPassword: string)

  /** The page's `error` and `success` messages; "" shows nothing. */
  datatype State = State(error: string, success: string)

  const Initial := State("", "")

  const MinPasswordLength := 8
  const FillAll := "Preencha todos os campos"
  const TooShort := "A senha precisa ter ao menos 8 caracteres"
  const Mismatch := "As senhas não coincidem"
  const Registered := "Cadastro realizado com sucesso!"
  const RegisterFailed := "Erro ao cadastrar usuário."

  predicate Filled(f: Form) {
    f.name != "" && f.email != "" && f.password != "" && f.repeatPassword != ""
  }

  /** The ordered checks; the first that fails gives the one error reported. */
  function Validate(f: Form): (r: Option<string>)
    ensures r == Some(FillAll) <==> !Filled(f)
    ensures r == Some(TooShort) <==> Filled(f) && |f.password| < MinPasswordLength
    ensures r == Some(Mismatch) <==> Filled(f) && |f.password| >= MinPasswordLength && f.password != f.repeatPassword
    ensures r == None <==> Filled(f) && |f.password| >= MinPasswordLength && f.password == f.repeatPassword
  {
    if !Filled(f) then Some(FillAll)
    else if |f.password| < MinPasswordLength then Some(TooShort)
    else if f.password != f.repeatPassword then Some(Mismatch)
    else None
  }

  function RegisterRequest(f: Form): Request {
    Request(POST, "/auth/register", None,
      [("name", Str(f.name)), ("email", Str(f.email)), ("password", Str(f.password)),
       ("repeat_password", Str(f.repeatPassword))])
  }

  function Submit(s: State, f: Form, reply: Outcome<Envelope<()>>): (r: Reaction<State>)
    // a failed check: its message, no success message, no request
    ensures Validate(f).Some? ==>
              r.requests == [] && r.state == State(Validate(f).value, "") && r.effects == []
    // all checks pass: exactly one request, sent with both messages cleared
    ensures Validate(f).None? ==> r.requests == [RegisterRequest(f)] && r.awaiting == Some(Initial)
    ensures Validate(f).None? && reply.Ok? ==> r.state == State("", Registered) && r.effects == [Navigate("/login")]
    ensures Validate(f).None? && !reply.Ok? ==>
              r.state == State(Or(ResponseMessage(reply), RegisterFailed), "") && r.effects == []
    // exactly one of the two messages is shown afterwards
    ensures (r.state.error == "") != (r.state.success == "")
  {
    var cleared := State("", "");
    match Validate(f)
    case Some(message) => Reaction([], None, cleared.(error := message), [])
    case None =>
      if reply.Ok? then
        Reaction([RegisterRequest(f)], Some(cleared), cleared.(success := Registered), [Navigate("/login")])
      else
        Reaction([RegisterRequest(f)], Some(cleared), cleared.(error := Or(ResponseMessage(reply), RegisterFailed)), [])
  }

  /** A request is sent exactly when the three checks pass, and then with `repeat_password` from the repeat field. */
  lemma SendsOnlyValidForms(s: State, f: Form, reply: Outcome<Envelope<()>>)
    ensures Submit(s, f, reply).requests != [] <==>
              Filled(f) && |f.password| >= MinPasswordLength && f.password == f.repeatPassword
    ensures Submit(s, f, reply).requests != [] ==>
              ("repeat_password", Str(f.repeatPassword)) in Submit(s, f, reply).requests[0].body
  {
  }

  /** Both messages are cleared before any check, so what was shown before has no influence. */
  lemma PreviousMessagesCleared(s1: State, s2: State, f: Form, reply: Outcome<Envelope<()>>)
    ensures Submit(s1, f, reply) == Submit(s2, f, reply)
  {
  }
}
