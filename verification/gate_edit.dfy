/**
 The gate edit page: `loadGate` fills the form, `handleSubmit` sends the tag and status back
 with `PUT`, and `handleDelete` removes the gate and returns to its location's gate list.
 */
module GateEdit {
  import opened Js
  import opened Http
  import opened Ui
  import opened Entities

  /** The edited fields; the location is only kept to return to after a delete. */
  datatype GateForm = GateForm(tag: string, status: string, locationId: Option<string>)

  datatype State = State(loading: bool, submitting: bool, deleteModal: bool, form: GateForm)

  const EmptyForm := GateForm("", "ativado", None)

  const Initial := State(true, false, false, EmptyForm)

  const LoadFailed := "Erro ao carregar catraca"
  const Updated := "Catraca atualizada com sucesso"
  const Deleted := "Catraca excluída com sucesso"
  const DeleteFailed := "Erro ao excluir catraca"

  /** `tag || ''`, `status || 'ativado'` and the record's location. */
  function FormOf(g: Gate): (f: GateForm)
    ensures f.tag == g.tag && f.locationId == g.locationId
    ensures f.status != ""
    ensures g.status != "" ==> f.status == g.status
  {
    GateForm(g.tag, OrText(g.status, "ativado"), g.locationId)
  }

  function GateRequest(verb: Verb, id: string, token: Option<string>, body: Fields): Request {
    Request(verb, "/gates/" + id, Bearer(token), body)
  }

  /**
   `loadGate`. A reply without a record makes reading its fields throw, which the `catch`
   block reports like a failure without a response.
   */
  function Load(s: State, id: string, token: Option<string>, reply: Outcome<Envelope<Gate>>): (r: Reaction<State>)
    ensures ExpelsOnExpiry(token, reply, r)
    ensures Truthy(token) ==> r.requests == [GateRequest(GET, id, token, [])]
    ensures r.awaiting.Some? ==> r.awaiting.value.loading
    ensures !r.state.loading
    ensures Truthy(token) && reply.Ok? && reply.body.data.Some? ==>
              r.state.form == FormOf(reply.body.data.value) && r.effects == []
    ensures !(Truthy(token) && reply.Ok? && reply.body.data.Some?) ==> r.state.form == s.form
    // any other failure: the server's message or the default text, then one step back
    ensures Truthy(token) && !(reply.Ok? && reply.body.data.Some?) && !Unauthorized(reply) ==>
              r.effects == [ErrorToast(Or(ResponseMessage(reply), LoadFailed)), Back]
  {
    var pending := s.(loading := true);
    var done := pending.(loading := false);
    if !Truthy(token) then NoSession(done)
    else
      var request := GateRequest(GET, id, token, []);
      if reply.Ok? && reply.body.data.Some? then
        Reaction([request], Some(pending), done.(form := FormOf(reply.body.data.value)), [])
      else
        var effects :=
          if Unauthorized(reply) then Expel
          else [ErrorToast(Or(ResponseMessage(reply), LoadFailed)), Back];
        Reaction([request], Some(pending), done, effects)
  }

  /** `handleSubmit`: only the tag and the status are sent; the location never is. */
  function Submit(s: State, id: string, token: Option<string>, reply: Outcome<Envelope<()>>): (r: Reaction<State>)
    ensures ExpelsOnExpiry(token, reply, r)
    ensures Truthy(token) ==>
              r.requests == [GateRequest(PUT, id, token, [("tag", Str(s.form.tag)), ("status", Str(s.form.status))])]
    ensures Truthy(token) ==>
              && Keys(r.requests[0].body) == ["tag", "status"]
              && ("tag", Str(s.form.tag)) in r.requests[0].body
              && ("status", Str(s.form.status)) in r.requests[0].body
    ensures r.awaiting.Some? ==> r.awaiting.value.submitting
    ensures !r.state.submitting && r.state.form == s.form
    ensures Truthy(token) && reply.Ok? ==>
              r.effects == [Toast(Success, Some(Or(reply.body.message, Updated))), Navigate("/gate/" + id)]
    ensures Truthy(token) && !reply.Ok? ==> ReportsFailure(reply, r.effects)
  {
    var pending := s.(submitting := true);
    var done := pending.(submitting := false);
    if !Truthy(token) then NoSession(done)
    else
      var body := [("tag", Str(s.form.tag)), ("status", Str(s.form.status))];
      var effects :=
        if reply.Ok? then [Toast(Success, Some(Or(reply.body.message, Updated))), Navigate("/gate/" + id)]
        else CatchFourWay(reply);
      Reaction([GateRequest(PUT, id, token, body)], Some(pending), done, effects)
  }

  /** The location's gate list, as the template literal writes it (a missing location reads "null"). */
  function GateListPath(locationId: Option<string>): string {
    "/locale/gates/" + Interpolate(locationId)
  }

  /**
   `handleDelete`: a three-branch `catch` (a 401, a response, anything else) and a `finally`
   that releases the button and closes the confirmation modal.
   */
  function Delete(s: State, id: string, token: Option<string>, reply: Outcome<Envelope<()>>): (r: Reaction<State>)
    ensures ExpelsOnExpiry(token, reply, r)
    ensures Truthy(token) ==> r.requests == [GateRequest(DELETE, id, token, [])]
    ensures r.awaiting.Some? ==> r.awaiting.value.submitting
    ensures !r.state.submitting && !r.state.deleteModal && r.state.form == s.form
    ensures Truthy(token) && reply.Ok? ==>
              r.effects == [Toast(Success, Some(Or(reply.body.message, Deleted))), Navigate(GateListPath(s.form.locationId))]
    ensures Truthy(token) && reply.HttpError? && reply.status != 401 ==> r.effects == [Toast(Error, reply.message)]
    ensures Truthy(token) && (reply == NoResponse || reply == Thrown) ==> r.effects == [ErrorToast(DeleteFailed)]
  {
    var pending := s.(submitting := true);
    var done := pending.(submitting := false, deleteModal := false);
    if !Truthy(token) then NoSession(done)
    else
      var effects :=
        if reply.Ok? then [Toast(Success, Some(Or(reply.body.message, Deleted))), Navigate(GateListPath(s.form.locationId))]
        else if Unauthorized(reply) then Expel
        else if reply.HttpError? then [Toast(Error, reply.message)]
        else [ErrorToast(DeleteFailed)];
      Reaction([GateRequest(DELETE, id, token, [])], Some(pending), done, effects)
  }

  /** Loading a gate and saving untouched sends its own tag and its status (or "ativado"). */
  lemma LoadThenSaveSendsGate(id: string, token: Option<string>, g: Gate, message: Option<string>,
                              reply: Outcome<Envelope<()>>)
    requires Truthy(token)
    ensures var loaded := Load(Initial, id, token, Ok(Envelope(Some(g), message))).state;
            var body := Submit(loaded, id, token, reply).requests[0].body;
            && ("tag", Str(g.tag)) in body
            && ("status", Str(if g.status != "" then g.status else "ativado")) in body
  {
  }

  /**
   After a load, a successful delete returns to the gate list of the gate's own location; a
   delete before any record was loaded goes to "/locale/gates/null".
   */
  lemma DeleteReturnsToLocation(id: string, token: Option<string>, g: Gate, loadMessage: Option<string>,
                                message: Option<string>)
    requires Truthy(token) && g.locationId.Some?
    ensures var loaded := Load(Initial, id, token, Ok(Envelope(Some(g), loadMessage))).state;
            Navigate("/locale/gates/" + g.locationId.value) in Delete(loaded, id, token, Ok(Envelope(Some(()), message))).effects
    ensures Navigate("/locale/gates/null") in Delete(Initial, id, token, Ok(Envelope(Some(()), message))).effects
  {
    assert GateListPath(Initial.form.locationId) == "/locale/gates/null";
  }
}
