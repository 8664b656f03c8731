/**
 The registration page's `handleSubmit`: the four inputs are posted as they are (the page has no
 client-side validation) and the reply is shown as a toast. The page never touches the session.
 */
module RegisterPage {
  import opened Js
  import opened Http
  import opened Ui
  import LegacyRegister

  datatype Form = Form(name: string, email: string, password: string, repeatPassword: string)

  const ConnectionVerifyDot := "Erro de conexão. Verifique sua internet."

  function RegisterBody(f: Form): Fields {
    [("name", Str(f.name)), ("email", Str(f.email)), ("password", Str(f.password)),
     ("repeat_password", Str(f.repeatPassword))]
  }

  function Submit(f: Form, reply: Outcome<Envelope<()>>): (r: Reaction<()>)
    // every submission is sent, whatever the inputs hold
    ensures |r.requests| == 1 && r.requests[0].verb == POST && r.requests[0].path == "/auth/register"
    ensures r.requests[0].authorization == None
    ensures Keys(r.requests[0].body) == ["name", "email", "password", "repeat_password"]
    ensures ("name", Str(f.name)) in r.requests[0].body && ("email", Str(f.email)) in r.requests[0].body
    ensures ("password", Str(f.password)) in r.requests[0].body
    ensures ("repeat_password", Str(f.repeatPassword)) in r.requests[0].body
    // success: the server's message and the login page
    ensures reply.Ok? ==> r.effects == [Toast(Success, reply.body.message), Navigate("/login")]
    // failure: one error toast, by class
    ensures reply.HttpError? ==> r.effects == [Toast(Error, reply.message)]
    ensures reply == NoResponse ==> r.effects == [ErrorToast(ConnectionVerifyDot)]
    ensures reply == Thrown ==> r.effects == [ErrorToast(UnexpectedText)]
    // the session is never touched
    ensures forall e :: e in r.effects ==> !e.Logout? && !e.SignIn?
  {
    var body := RegisterBody(f);
    var request := Request(POST, "/auth/register", None, body);
    var effects :=
      match reply
      case Ok(data) => [Toast(Success, data.message), Navigate("/login")]
      case HttpError(_, message) => [Toast(Error, message)]
      case NoResponse => [ErrorToast(ConnectionVerifyDot)]
      case Thrown => [ErrorToast(UnexpectedText)];
    Reaction([request], Some(()), (), effects)
  }

  /**
   This page posts the same request as the older registration page; it only skips the checks the
   older page makes before sending.
   */
  lemma SameRequestAsLegacy(f: Form, legacy: LegacyRegister.State, reply: Outcome<Envelope<()>>)
    ensures var form := LegacyRegister.Form(f.name, f.email, f.password, f.repeatPassword);
            && Submit(f, reply).requests == [LegacyRegister.RegisterRequest(form)]
            && (LegacyRegister.Validate(form).None? <==>
                  LegacyRegister.Submit(legacy, form, reply).requests == Submit(f, reply).requests)
  {
  }
}
