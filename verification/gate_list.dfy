/**
 The gate list of one location. The location comes from the route parameter or, failing that,
 from the navigation state; `loadGates` fetches the location and then its gates, and the page
 shows a card per gate or an empty state.
 */
module GateList {
  import opened Js
  import opened Http
  import opened Ui
  import opened Entities

  datatype State = State(gates: seq<Gate>, location: Option<Location>, loading: bool)

  /** `useState([])`, `useState(null)` and `useState(true)`. */
  const Initial := State([], None, true)

  const NoLocation := "Local não identificado"
  const LoadFailed := "Erro ao carregar catracas"

  /** `routeId || state?.locationId`. */
  function ResolveId(routeId: Option<string>, stateId: Option<string>): (id: Option<string>)
    ensures Truthy(routeId) ==> id == routeId
    ensures !Truthy(routeId) ==> id == stateId
    ensures Truthy(id) <==> Truthy(routeId) || Truthy(stateId)
  {
    if Truthy(routeId) then routeId else stateId
  }

  function LocationRequest(id: string, token: Option<string>): Request {
    Request(GET, "/locations/" + id, Bearer(token), [])
  }

  function GatesRequest(id: string, token: Option<string>): Request {
    Request(GET, "/locations/" + id + "/gates", Bearer(token), [])
  }

  /** Whether a request failed: the location's or, once it had succeeded, the gates'. */
  predicate Failed(locationReply: Outcome<Envelope<Location>>, gatesReply: Outcome<Envelope<seq<Gate>>>) {
    !locationReply.Ok? || !gatesReply.Ok?
  }

  /** Whether the failure that ended the handler was a 401. */
  predicate Expired(locationReply: Outcome<Envelope<Location>>, gatesReply: Outcome<Envelope<seq<Gate>>>) {
    if !locationReply.Ok? then Unauthorized(locationReply) else Unauthorized(gatesReply)
  }

  /** The server's message of the failure that ended the handler. */
  function FailureMessage(locationReply: Outcome<Envelope<Location>>, gatesReply: Outcome<Envelope<seq<Gate>>>): Option<string> {
    if !locationReply.Ok? then ResponseMessage(locationReply) else ResponseMessage(gatesReply)
  }

  /**
   `loadGates`: the token check, then the id check, then the location request and, only once
   it has succeeded, the gates request.
   */
  function LoadGates(s: State, id: Option<string>, token: Option<string>,
                     locationReply: Outcome<Envelope<Location>>,
                     gatesReply: Outcome<Envelope<seq<Gate>>>): (r: Reaction<State>)
    ensures !r.state.loading
    // the token is checked before the id
    ensures !Truthy(token) ==> r.requests == [] && r.effects == Expel
    ensures Truthy(token) && !Truthy(id) ==>
              r.requests == [] && r.awaiting == None && r.effects == [ErrorToast(NoLocation), Navigate("/")]
    // the location is fetched first, and the gates only after it arrived
    ensures r.requests != [] <==> Truthy(token) && Truthy(id)
    ensures r.requests != [] ==> r.requests[0] == LocationRequest(id.value, token)
    ensures |r.requests| == 2 <==> Truthy(token) && Truthy(id) && locationReply.Ok?
    ensures |r.requests| == 2 ==> r.requests[1] == GatesRequest(id.value, token)
    ensures r.awaiting.Some? ==> r.awaiting.value.loading
    // the session ends exactly on a missing token or a 401 from either request
    ensures Logout in r.effects <==> !Truthy(token) || (Truthy(id) && Failed(locationReply, gatesReply) && Expired(locationReply, gatesReply))
    // both requests succeed: the location and the gates (a missing list reads as empty), quietly
    ensures Truthy(token) && Truthy(id) && !Failed(locationReply, gatesReply) ==>
              && r.state.location == locationReply.body.data
              && r.state.gates == (if gatesReply.body.data.Some? then gatesReply.body.data.value else [])
              && r.effects == []
    // any other failure: a toast and no gates
    ensures Truthy(token) && Truthy(id) && Failed(locationReply, gatesReply) && !Expired(locationReply, gatesReply) ==>
              r.state.gates == [] && r.effects == [ErrorToast(Or(FailureMessage(locationReply, gatesReply), LoadFailed))]
  {
    var pending := s.(loading := true);
    var done := pending.(loading := false);
    if !Truthy(token) then NoSession(done)
    else if !Truthy(id) then Reaction([], None, done, [ErrorToast(NoLocation), Navigate("/")])
    else
      var first := LocationRequest(id.value, token);
      var requests := if locationReply.Ok? then [first, GatesRequest(id.value, token)] else [first];
      var located := if locationReply.Ok? then done.(location := locationReply.body.data) else done;
      if Failed(locationReply, gatesReply) then
        var effects :=
          if Expired(locationReply, gatesReply) then Expel
          else [ErrorToast(Or(FailureMessage(locationReply, gatesReply), LoadFailed))];
        var final := if Expired(locationReply, gatesReply) then located else located.(gates := []);
        Reaction(requests, Some(pending), final, effects)
      else
        var gates := if gatesReply.body.data.Some? then gatesReply.body.data.value else [];
        Reaction(requests, Some(pending), located.(gates := gates), [])
  }

  /** The mount effect as written: `if (id) loadGates()`. */
  function Mount(s: State, routeId: Option<string>, stateId: Option<string>, token: Option<string>,
                 locationReply: Outcome<Envelope<Location>>,
                 gatesReply: Outcome<Envelope<seq<Gate>>>): (r: Reaction<State>)
    ensures !Truthy(ResolveId(routeId, stateId)) ==> r == Reaction([], None, s, [])
    ensures Truthy(ResolveId(routeId, stateId)) ==> !r.state.loading
  {
    var id := ResolveId(routeId, stateId);
    if Truthy(id) then LoadGates(s, id, token, locationReply, gatesReply) else Reaction([], None, s, [])
  }

  /** The mount effect as its missing-location branch intends it: `loadGates()` unconditionally. */
  function MountCorrected(s: State, routeId: Option<string>, stateId: Option<string>, token: Option<string>,
                          locationReply: Outcome<Envelope<Location>>,
                          gatesReply: Outcome<Envelope<seq<Gate>>>): (r: Reaction<State>)
    ensures !r.state.loading
    ensures Truthy(token) && !Truthy(ResolveId(routeId, stateId)) ==> r.effects == [ErrorToast(NoLocation), Navigate("/")]
    ensures Truthy(ResolveId(routeId, stateId)) ==>
              r == Mount(s, routeId, stateId, token, locationReply, gatesReply)
  {
    LoadGates(s, ResolveId(routeId, stateId), token, locationReply, gatesReply)
  }

  /** One card of the list: the gate's tag and its status badge. */
  datatype Card = Card(gateId: string, tag: string, badge: string)

  datatype View = LoadingView | EmptyView(message: string) | CardsView(cards: seq<Card>)

  const NoGates := "Nenhuma catraca cadastrada neste local"

  function ViewOf(s: State): (v: View)
    ensures v == LoadingView <==> s.loading
    ensures v == EmptyView(NoGates) <==> !s.loading && s.gates == []
    ensures v.CardsView? ==> |v.cards| == |s.gates| > 0
    ensures v.CardsView? ==> forall i :: 0 <= i < |v.cards| ==>
              v.cards[i].tag == s.gates[i].tag && (v.cards[i].badge == "Ativado" <==> s.gates[i].status == "ativado")
  {
    if s.loading then LoadingView
    else if s.gates == [] then EmptyView(NoGates)
    else CardsView(seq(|s.gates|, i requires 0 <= i < |s.gates| => Card(s.gates[i].id, s.gates[i].tag, StatusLabel(s.gates[i].status))))
  }

  /**
   As written, a page reached with neither a route parameter nor a location in the navigation
   state never leaves the loading view, and the "Local não identificado" toast of `loadGates`
   is never shown.
   */
  lemma MissingIdLoadsForever(token: Option<string>, locationReply: Outcome<Envelope<Location>>,
                              gatesReply: Outcome<Envelope<seq<Gate>>>)
    ensures var r := Mount(Initial, None, None, token, locationReply, gatesReply);
            ViewOf(r.state) == LoadingView && r.effects == []
  {
  }

  /** Corrected, every mount ends the loading view, and a missing location is reported and left. */
  lemma CorrectedMountSettles(routeId: Option<string>, stateId: Option<string>, token: Option<string>,
                              locationReply: Outcome<Envelope<Location>>,
                              gatesReply: Outcome<Envelope<seq<Gate>>>)
    ensures ViewOf(MountCorrected(Initial, routeId, stateId, token, locationReply, gatesReply).state) != LoadingView
    ensures Truthy(token) && !Truthy(routeId) && !Truthy(stateId) ==>
              Navigate("/") in MountCorrected(Initial, routeId, stateId, token, locationReply, gatesReply).effects
  {
  }

  /** A failed load that does not expel shows the empty state. */
  lemma FailureShowsEmptyState(s: State, id: Option<string>, token: Option<string>,
                               locationReply: Outcome<Envelope<Location>>,
                               gatesReply: Outcome<Envelope<seq<Gate>>>)
    requires Truthy(token) && Truthy(id) && Failed(locationReply, gatesReply) && !Expired(locationReply, gatesReply)
    ensures ViewOf(LoadGates(s, id, token, locationReply, gatesReply).state) == EmptyView(NoGates)
  {
  }
}
