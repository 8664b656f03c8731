/**
 The location details page: `loadLocation` fetches one location, and the page shows a loading
 view, a not-found view or the details (with the occupancy bar of `CapacityBar`). The occupancy
 shown is the `current_people` snapshot of the record; nothing is derived from movement history.
 */
module LocaleDetails {
  import opened Js
  import opened Http
  import opened Ui
  import opened Entities
  import opened CapacityBar

  datatype State = State(location: Option<Location>, loading: bool)

  /** `useState(null)` and `useState(true)`. */
  const Initial := State(None, true)

  datatype View = LoadingView | NotFoundView | DetailsView(location: Location)

  /** The render: loading first, then a missing location, then the details. */
  function ViewOf(s: State): (v: View)
    ensures v == LoadingView <==> s.loading
    ensures v == NotFoundView <==> !s.loading && s.location.None?
    ensures v.DetailsView? ==> s.location == Some(v.location)
  {
    if s.loading then LoadingView
    else if s.location.None? then NotFoundView
    else DetailsView(s.location.value)
  }

  const LoadFailed := "Erro ao carregar local"

  function LocationRequest(id: string, token: Option<string>): Request {
    Request(GET, "/locations/" + id, Bearer(token), [])
  }

  function LoadLocation(s: State, id: string, token: Option<string>, reply: Outcome<Envelope<Location>>): (r: Reaction<State>)
    ensures ExpelsOnExpiry(token, reply, r)
    ensures !r.state.loading
    ensures r.awaiting.Some? ==> ViewOf(r.awaiting.value) == LoadingView
    ensures Truthy(token) ==> r.requests == [LocationRequest(id, token)]
    // only a successful reply changes the location, to the record it carries
    ensures Truthy(token) && reply.Ok? ==> r.state.location == reply.body.data && r.effects == []
    ensures !(Truthy(token) && reply.Ok?) ==> r.state.location == s.location
    // any other failure is one error toast with the server's message, if it sent one
    ensures Truthy(token) && !reply.Ok? && Classify(reply) != SessionExpired ==>
              r.effects == [ErrorToast(Or(ResponseMessage(reply), LoadFailed))]
  {
    var pending := s.(loading := true);
    if !Truthy(token) then NoSession(pending.(loading := false))
    else
      var request := LocationRequest(id, token);
      if reply.Ok? then
        Reaction([request], Some(pending), pending.(location := reply.body.data, loading := false), [])
      else
        var effects :=
          if Unauthorized(reply) then Expel
          else [ErrorToast(Or(ResponseMessage(reply), LoadFailed))];
        Reaction([request], Some(pending), pending.(loading := false), effects)
  }

  /** When the first load of the page fails without expelling, the not-found view is shown. */
  lemma FailedLoadShowsNotFound(id: string, token: Option<string>, reply: Outcome<Envelope<Location>>)
    requires !(Truthy(token) && reply.Ok?)
    ensures ViewOf(LoadLocation(Initial, id, token, reply).state) == NotFoundView
  {
  }

  /** A loaded location is the record the details view shows; `CapacityBar` derives its bar from that record. */
  lemma LoadedLocationShowsDetails(id: string, token: Option<string>, l: Location, message: Option<string>)
    requires Truthy(token)
    ensures ViewOf(LoadLocation(Initial, id, token, Ok(Envelope(Some(l), message))).state) == DetailsView(l)
  {
  }
}
