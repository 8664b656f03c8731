/**
 The location edit page: `loadLocation` fills the form from the record, `handleSubmit` sends
 the form back with `PUT`, and `handleDelete` removes the location. Unlike the other pages it
 has no 401 branch: a failed request only shows a generic toast, and only a missing token
 signs the operator out.
 */
module LocaleEdit {
  import opened Js
  import opened Http
  import opened Ui
  import opened Entities

  /** The form fields; `maxPeople` holds the input's text. */
  datatype Form = Form(name: string, address: string, maxPeople: string, description: string, mapsUrl: string)

  datatype State = State(loading: bool, submitting: bool, deleteModal: bool, form: Form)

  const LoadFailed := "Erro ao carregar local"
  const SaveFailed := "Erro ao salvar alterações"
  const DeleteFailed := "Erro ao excluir local"
  const Saved := "Local atualizado com sucesso"
  const Deleted := "Local excluído"

  /** `field || ""` for each field of the record; a zero capacity is falsy and gives "". */
  function FormOf(l: Location): Form {
    Form(l.name, l.address, if l.maxPeople != 0 then IntText(l.maxPeople) else "", l.description, l.mapsUrl)
  }

  /** The `PUT` body: empty optional texts become `undefined`, the capacity goes through `parseInt`. */
  function PutBody(f: Form): (body: Fields)
    ensures Keys(body) == ["name", "address", "max_people", "description", "google_maps_url"]
    ensures ("name", Str(f.name)) in body && ("address", Str(f.address)) in body
    ensures ("max_people", Number(ParseInt(f.maxPeople))) in body
    ensures ("description", Undefined) in body <==> f.description == ""
    ensures f.description != "" ==> ("description", Str(f.description)) in body
    ensures ("google_maps_url", Undefined) in body <==> f.mapsUrl == ""
    ensures f.mapsUrl != "" ==> ("google_maps_url", Str(f.mapsUrl)) in body
  {
    [("name", Str(f.name)), ("address", Str(f.address)), ("max_people", Number(ParseInt(f.maxPeople))),
     ("description", TextOrUndefined(f.description)), ("google_maps_url", TextOrUndefined(f.mapsUrl))]
  }

  function DetailsPath(id: string): string {
    "/location/" + id
  }

  function Load(s: State, id: string, token: Option<string>, reply: Outcome<Envelope<Location>>): (r: Reaction<State>)
    ensures r.requests != [] <==> Truthy(token)
    ensures Truthy(token) ==> r.requests == [Request(GET, "/locations/" + id, Bearer(token), [])]
    ensures !r.state.loading
    // only a missing token signs out: a 401 is handled like any other failure
    ensures Logout in r.effects <==> !Truthy(token)
    ensures !Truthy(token) ==> r.effects == Expel
    // a record fills the form; any failure (a missing record included) goes back to the details page
    ensures Truthy(token) && reply.Ok? && reply.body.data.Some? ==>
              r.state.form == FormOf(reply.body.data.value) && r.effects == []
    ensures Truthy(token) && !(reply.Ok? && reply.body.data.Some?) ==>
              r.state.form == s.form && r.effects == [ErrorToast(LoadFailed), Navigate(DetailsPath(id))]
  {
    var pending := s.(loading := true);
    if !Truthy(token) then NoSession(pending.(loading := false))
    else
      var request := Request(GET, "/locations/" + id, Bearer(token), []);
      if reply.Ok? && reply.body.data.Some? then
        Reaction([request], Some(pending), pending.(form := FormOf(reply.body.data.value), loading := false), [])
      else
        Reaction([request], Some(pending), pending.(loading := false), [ErrorToast(LoadFailed), Navigate(DetailsPath(id))])
  }

  function Submit(s: State, id: string, token: Option<string>, reply: Outcome<Envelope<()>>): (r: Reaction<State>)
    ensures r.requests != [] <==> Truthy(token)
    ensures Truthy(token) ==> r.requests == [Request(PUT, "/locations/" + id, Bearer(token), PutBody(s.form))]
    ensures Logout in r.effects <==> !Truthy(token)
    ensures !Truthy(token) ==> r.effects == Expel
    ensures !r.state.submitting && r.state.form == s.form
    ensures r.awaiting.Some? ==> r.awaiting.value.submitting
    ensures Truthy(token) && reply.Ok? ==>
              r.effects == [Toast(Success, Some(Or(reply.body.message, Saved))), Navigate(DetailsPath(id))]
    // one generic toast for every failure, 401 included
    ensures Truthy(token) && !reply.Ok? ==> r.effects == [ErrorToast(SaveFailed)]
  {
    var pending := s.(submitting := true);
    if !Truthy(token) then NoSession(pending.(submitting := false))
    else
      var request := Request(PUT, "/locations/" + id, Bearer(token), PutBody(s.form));
      var effects :=
        if reply.Ok? then [Toast(Success, Some(Or(reply.body.message, Saved))), Navigate(DetailsPath(id))]
        else [ErrorToast(SaveFailed)];
      Reaction([request], Some(pending), pending.(submitting := false), effects)
  }

  function Delete(s: State, id: string, token: Option<string>, reply: Outcome<Envelope<()>>): (r: Reaction<State>)
    ensures r.requests != [] <==> Truthy(token)
    ensures Truthy(token) ==> r.requests == [Request(DELETE, "/locations/" + id, Bearer(token), [])]
    ensures Logout in r.effects <==> !Truthy(token)
    ensures !Truthy(token) ==> r.effects == Expel
    // on every path the button is released and the confirmation modal closed
    ensures !r.state.submitting && !r.state.deleteModal
    ensures Truthy(token) && reply.Ok? ==> r.effects == [Toast(Success, Some(Or(reply.body.message, Deleted))), Navigate("/")]
    ensures Truthy(token) && !reply.Ok? ==> r.effects == [ErrorToast(DeleteFailed)]
  {
    var pending := s.(submitting := true);
    var done := pending.(submitting := false, deleteModal := false);
    if !Truthy(token) then NoSession(done)
    else
      var request := Request(DELETE, "/locations/" + id, Bearer(token), []);
      var effects :=
        if reply.Ok? then [Toast(Success, Some(Or(reply.body.message, Deleted))), Navigate("/")]
        else [ErrorToast(DeleteFailed)];
      Reaction([request], Some(pending), done, effects)
  }

  /**
   Deleting from a loaded page removes the record that was loaded: the same path and bearer
   header as the load, no body, and the form untouched. Only a successful delete leaves the
   page, for the location list rather than the details page.
   */
  lemma LoadThenDeleteRemovesRecord(s: State, id: string, token: Option<string>,
                                    loadReply: Outcome<Envelope<Location>>, reply: Outcome<Envelope<()>>)
    requires Truthy(token)
    ensures var loaded := Load(s, id, token, loadReply);
            var d := Delete(loaded.state, id, token, reply);
            && |d.requests| == 1 && |loaded.requests| == 1
            && d.requests[0] == loaded.requests[0].(verb := DELETE)
            && d.state.form == loaded.state.form
            && (Navigate("/") in d.effects <==> reply.Ok?)
            && Navigate(DetailsPath(id)) !in d.effects
  {
  }

  /**
   Loading a location and saving the form untouched sends the record back: the same name,
   address and capacity, and the optional texts, an empty one left out as `undefined`. A zero
   capacity is falsy when the form is filled, so it is sent as NaN.
   */
  lemma LoadThenSaveSendsRecord(s: State, id: string, token: Option<string>, l: Location, message: Option<string>,
                                reply: Outcome<Envelope<()>>)
    requires Truthy(token)
    ensures var loaded := Load(s, id, token, Ok(Envelope(Some(l), message))).state;
            var body := Submit(loaded, id, token, reply).requests[0].body;
            && ("name", Str(l.name)) in body
            && ("address", Str(l.address)) in body
            && ("max_people", if l.maxPeople != 0 then Num(l.maxPeople) else NaN) in body
            && ("description", TextOrUndefined(l.description)) in body
            && ("google_maps_url", TextOrUndefined(l.mapsUrl)) in body
  {
    if l.maxPeople != 0 {
      ParseIntText(l.maxPeople);
    }
  }
}
