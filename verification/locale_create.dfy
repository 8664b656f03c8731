/**
 The location creation page's `handleSubmit`: the form is posted to `/locations` with the
 capacity parsed by `parseInt` and an empty description left out, and the outcome is reported
 by the four-branch `catch` block of the forms.
 */
module LocaleCreate {
  import opened Js
  import opened Http
  import opened Ui

  /** The four inputs, as the text they hold. */
  datatype Form = Form(name: string, address: string, maxPeople: string, description: string)

  datatype State = State(loading: bool)

  /** The `POST` body: the capacity goes through `parseInt`, an empty description becomes `undefined`. */
  function PostBody(f: Form): (body: Fields)
    ensures Keys(body) == ["name", "address", "max_people", "description"]
    ensures ("name", Str(f.name)) in body && ("address", Str(f.address)) in body
    ensures ("max_people", Number(ParseInt(f.maxPeople))) in body
    ensures ("description", Undefined) in body <==> f.description == ""
    ensures f.description != "" ==> ("description", Str(f.description)) in body
  {
    var capacity := Number(ParseInt(f.maxPeople));
    var body := [("name", Str(f.name)), ("address", Str(f.address)), ("max_people", capacity),
                 ("description", TextOrUndefined(f.description))];
    assert ("description", Undefined) in body ==> body[3].1 == Undefined;
    body
  }

  function Submit(s: State, f: Form, token: Option<string>, reply: Outcome<Envelope<()>>): (r: Reaction<State>)
    ensures ExpelsOnExpiry(token, reply, r)
    ensures Truthy(token) ==> r.requests == [Request(POST, "/locations", Bearer(token), PostBody(f))]
    // loading while the request is pending, and not once the handler is done, on every path
    ensures r.awaiting.Some? ==> r.awaiting.value.loading
    ensures !r.state.loading
    // success: the server's message as it is (possibly missing) and the home page
    ensures Truthy(token) && reply.Ok? ==> r.effects == [Toast(Success, reply.body.message), Navigate("/")]
    ensures Truthy(token) && !reply.Ok? ==> ReportsFailure(reply, r.effects)
  {
    var pending := s.(loading := true);
    var done := pending.(loading := false);
    if !Truthy(token) then NoSession(done)
    else
      var request := Request(POST, "/locations", Bearer(token), PostBody(f));
      var effects :=
        if reply.Ok? then [Toast(Success, reply.body.message), Navigate("/")]
        else CatchFourWay(reply);
      Reaction([request], Some(pending), done, effects)
  }

  /** A capacity typed as a decimal integer reaches the API as that number. */
  lemma TypedCapacityIsSent(name: string, address: string, n: int, description: string)
    ensures ("max_people", Num(n)) in PostBody(Form(name, address, IntText(n), description))
  {
    ParseIntText(n);
  }

  /** An empty capacity input is sent as NaN: `parseInt("")` finds no digits. */
  lemma EmptyCapacityIsNaN(name: string, address: string, description: string)
    ensures ("max_people", NaN) in PostBody(Form(name, address, "", description))
  {
  }
}
