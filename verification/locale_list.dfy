/**
 The operator's location list (`List`): `loadLocations` fetches the operator's locations and the
 page shows them, or an empty state. Failures other than a 401 are silent.
 */
module LocaleList {
  import opened Js
  import opened Http
  import opened Ui
  import opened Entities

  datatype State = State(locations: seq<Location>, loading: bool)

  /** `useState([])` and `useState(true)`. */
  const Initial := State([], true)

  const NoLocations := "Você não possui locais cadastrados"

  const LocationsRequest := Request(GET, "/auth/locations", None, [])

  /** `data && data.data && data.data.length > 0 ? data.data : []`. */
  function Normalise(data: Option<seq<Location>>): (l: seq<Location>)
    ensures l != [] <==> data.Some? && data.value != []
    ensures l != [] ==> l == data.value
  {
    if data.Some? && |data.value| > 0 then data.value else []
  }

  function Load(s: State, token: Option<string>, reply: Outcome<Envelope<seq<Location>>>): (r: Reaction<State>)
    ensures ExpelsOnExpiry(token, reply, r)
    ensures Truthy(token) ==> r.requests == [LocationsRequest.(authorization := Bearer(token))]
    ensures r.awaiting.Some? ==> r.awaiting.value.loading
    ensures !r.state.loading
    ensures Truthy(token) && reply.Ok? ==> r.state.locations == Normalise(reply.body.data) && r.effects == []
    // a failure that does not expel empties the list and says nothing
    ensures Truthy(token) && !reply.Ok? && !Unauthorized(reply) ==> r.state.locations == [] && r.effects == []
  {
    var pending := s.(loading := true);
    var done := pending.(loading := false);
    if !Truthy(token) then NoSession(done)
    else
      var request := LocationsRequest.(authorization := Bearer(token));
      if reply.Ok? then Reaction([request], Some(pending), done.(locations := Normalise(reply.body.data)), [])
      else if Unauthorized(reply) then Reaction([request], Some(pending), done, Expel)
      else Reaction([request], Some(pending), done.(locations := []), [])
  }

  datatype View = LoadingView | EmptyView(message: string) | ListView(locations: seq<Location>)

  function ViewOf(s: State): (v: View)
    ensures v == LoadingView <==> s.loading
    ensures v == EmptyView(NoLocations) <==> !s.loading && s.locations == []
    ensures v.ListView? ==> v.locations == s.locations && s.locations != []
  {
    if s.loading then LoadingView
    else if s.locations == [] then EmptyView(NoLocations)
    else ListView(s.locations)
  }

  /**
   Once loaded, the page lists the locations exactly when the server sent a non-empty list; a
   missing list, an empty one, and a failure that does not expel all show the empty state.
   */
  lemma ListedIffSent(s: State, token: Option<string>, reply: Outcome<Envelope<seq<Location>>>)
    requires Truthy(token) && !Unauthorized(reply)
    ensures ViewOf(Load(s, token, reply).state).ListView? <==> reply.Ok? && reply.body.data.Some? && reply.body.data.value != []
    ensures ViewOf(Load(s, token, reply).state).ListView? ==> ViewOf(Load(s, token, reply).state).locations == reply.body.data.value
    ensures !ViewOf(Load(s, token, reply).state).ListView? ==> ViewOf(Load(s, token, reply).state) == EmptyView(NoLocations)
  {
  }
}
