/**
 The gate creation page. It needs the location the gate belongs to, passed in the navigation
 state; without one the page reports the problem, goes home and renders nothing. Otherwise
 `handleSubmit` posts the tag, the location and the chosen status (initially "ativado").
 */
module GateCreate {
  import opened Js
  import opened Http
  import opened Ui

  datatype State = State(status: string, loading: bool)

  /** `useState("ativado")` and `useState(false)`. */
  const Initial := State("ativado", false)

  const NoLocation := "Local não identificado"
  const Created := "Catraca cadastrada com sucesso"

  /** What a render does: the form, or nothing after a toast and a redirect home. */
  datatype Render = Form | Nothing(effects: seq<Effect>)

  /** The render-time guard on `location.state?.locationId`. */
  function Mount(locationId: Option<string>): (v: Render)
    ensures v == Form <==> Truthy(locationId)
    ensures !Truthy(locationId) ==> v.effects == [ErrorToast(NoLocation), Navigate("/")]
    ensures v.Nothing? ==> Logout !in v.effects
  {
    if Truthy(locationId) then Form else Nothing([ErrorToast(NoLocation), Navigate("/")])
  }

  function GateBody(tag: string, locationId: string, status: string): Fields {
    [("tag", Str(tag)), ("location_id", Str(locationId)), ("status", Str(status))]
  }

  /**
   `handleSubmit`, which only exists once the guard has let the page render, so the location is
   a non-empty text.
   */
  function Submit(s: State, tag: string, locationId: string, token: Option<string>,
                  reply: Outcome<Envelope<()>>): (r: Reaction<State>)
    requires locationId != ""
    ensures ExpelsOnExpiry(token, reply, r)
    ensures Truthy(token) ==> |r.requests| == 1 && r.requests[0].verb == POST && r.requests[0].path == "/gates"
    ensures Truthy(token) ==> r.requests[0].authorization == Bearer(token)
    // exactly the tag, the location and the selected status
    ensures Truthy(token) ==>
              && Keys(r.requests[0].body) == ["tag", "location_id", "status"]
              && ("tag", Str(tag)) in r.requests[0].body
              && ("location_id", Str(locationId)) in r.requests[0].body
              && ("status", Str(s.status)) in r.requests[0].body
    ensures r.awaiting.Some? ==> r.awaiting.value.loading
    ensures !r.state.loading && r.state.status == s.status
    // success goes to the location's page with the server's message or a default one
    ensures Truthy(token) && reply.Ok? ==>
              r.effects == [Toast(Success, Some(Or(reply.body.message, Created))), Navigate("/location/" + locationId)]
    ensures Truthy(token) && !reply.Ok? ==> ReportsFailure(reply, r.effects)
  {
    var pending := s.(loading := true);
    var done := pending.(loading := false);
    if !Truthy(token) then NoSession(done)
    else
      var request := Request(POST, "/gates", Bearer(token), GateBody(tag, locationId, s.status));
      var effects :=
        if reply.Ok? then [Toast(Success, Some(Or(reply.body.message, Created))), Navigate("/location/" + locationId)]
        else CatchFourWay(reply);
      Reaction([request], Some(pending), done, effects)
  }

  /** A gate submitted without touching the status selector is created "ativado". */
  lemma DefaultStatusIsActive(tag: string, locationId: string, token: Option<string>, reply: Outcome<Envelope<()>>)
    requires locationId != "" && Truthy(token)
    ensures ("status", Str("ativado")) in Submit(Initial, tag, locationId, token, reply).requests[0].body
  {
  }
}
