/**
 The gate details page: `loadGate` fetches the gate and, once it has arrived, `loadLogs` fetches
 its movement history. The page shows the gate's tag, its status badge and one row per
 movement; it does not derive any occupancy from the history.
 */
module GateDetails {
  import opened Js
  import opened Http
  import opened Ui
  import opened Entities

  /** `logs` is `None` when the page has stored `undefined` in it. */
  datatype State = State(gate: Option<Gate>, logs: Option<seq<LogEntry>>, loading: bool, loadingLogs: bool)

  /** `useState(null)`, `useState([])`, `useState(true)` and `useState(false)`. */
  const Initial := State(None, Some([]), true, false)

  const GateFailed := "Erro ao carregar catraca"
  const LogsFailed := "Erro ao carregar logs da catraca"
  const NoMovements := "Sem movimentações por aqui"

  function GateRequest(id: string, token: Option<string>): Request {
    Request(GET, "/gates/" + id, Bearer(token), [])
  }

  function HistoryRequest(id: string, token: Option<string>): Request {
    Request(GET, "/gates/" + id + "/history", Bearer(token), [])
  }

  /** `token || getToken()`: the token handed over, else the one stored now. */
  function LogsToken(token: Option<string>, stored: Option<string>): (t: Option<string>)
    ensures Truthy(token) ==> t == token
    ensures !Truthy(token) ==> t == stored
  {
    if Truthy(token) then token else stored
  }

  /**
   `loadLogs` as written: a reply's list is stored as it is, so a reply without one stores
   `undefined`. Any failure, a 401 included, shows a toast and empties the list; it never ends
   the session.
   */
  function LoadLogs(s: State, id: string, token: Option<string>, stored: Option<string>,
                    reply: Outcome<Envelope<seq<LogEntry>>>): (r: Reaction<State>)
    ensures r.requests == [HistoryRequest(id, LogsToken(token, stored))]
    ensures r.awaiting == Some(s.(loadingLogs := true))
    ensures !r.state.loadingLogs && r.state.gate == s.gate && r.state.loading == s.loading
    ensures reply.Ok? ==> r.state.logs == reply.body.data && r.effects == []
    ensures !reply.Ok? ==> r.state.logs == Some([]) && r.effects == [ErrorToast(Or(ResponseMessage(reply), LogsFailed))]
    ensures Logout !in r.effects
  {
    var pending := s.(loadingLogs := true);
    var done := pending.(loadingLogs := false);
    var request := HistoryRequest(id, LogsToken(token, stored));
    if reply.Ok? then Reaction([request], Some(pending), done.(logs := reply.body.data), [])
    else Reaction([request], Some(pending), done.(logs := Some([])), [ErrorToast(Or(ResponseMessage(reply), LogsFailed))])
  }

  /** `loadLogs` with `data.data || []`, as the gate list page reads its own list. */
  function LoadLogsCorrected(s: State, id: string, token: Option<string>, stored: Option<string>,
                             reply: Outcome<Envelope<seq<LogEntry>>>): (r: Reaction<State>)
    ensures r.state.logs.Some?
    ensures reply.Ok? && reply.body.data.Some? ==> r == LoadLogs(s, id, token, stored, reply)
    ensures !reply.Ok? ==> r == LoadLogs(s, id, token, stored, reply)
    ensures reply.Ok? && reply.body.data.None? ==> r.state.logs == Some([]) && r.effects == []
  {
    var r := LoadLogs(s, id, token, stored, reply);
    if r.state.logs.None? then r.(state := r.state.(logs := Some([]))) else r
  }

  /**
   `loadGate`: the token check, the gate request, and on success the history request with the
   same token (its own failure is reported by `loadLogs`). The history request is not awaited;
   the two are taken here as one sequential step.
   */
  function LoadGate(s: State, id: string, token: Option<string>, stored: Option<string>,
                    gateReply: Outcome<Envelope<Gate>>,
                    logsReply: Outcome<Envelope<seq<LogEntry>>>): (r: Reaction<State>)
    // a failed history request never ends the session: only the token and the gate's reply do
    ensures ExpelsOnExpiry(token, gateReply, r)
    ensures Truthy(token) ==> r.requests[0] == GateRequest(id, token)
    // the history is fetched exactly when the gate arrived, with the same credential
    ensures |r.requests| == 2 <==> Truthy(token) && gateReply.Ok?
    ensures |r.requests| == 2 ==> r.requests[1] == HistoryRequest(id, token)
    ensures r.awaiting.Some? ==> r.awaiting.value.loading
    ensures !r.state.loading && (r.state.loadingLogs ==> s.loadingLogs)
    ensures Truthy(token) && gateReply.Ok? ==> r.state.gate == gateReply.body.data
    // the reply's list is stored as it is, `undefined` included
    ensures Truthy(token) && gateReply.Ok? && logsReply.Ok? ==> r.state.logs == logsReply.body.data && r.effects == []
    ensures Truthy(token) && gateReply.Ok? && !logsReply.Ok? ==>
              r.state.logs == Some([]) && r.effects == [ErrorToast(Or(ResponseMessage(logsReply), LogsFailed))]
    ensures !(Truthy(token) && gateReply.Ok?) ==> r.state.gate == s.gate && r.state.logs == s.logs
    ensures Truthy(token) && !gateReply.Ok? && !Unauthorized(gateReply) ==>
              r.effects == [ErrorToast(Or(ResponseMessage(gateReply), GateFailed))]
  {
    var pending := s.(loading := true);
    var done := pending.(loading := false);
    if !Truthy(token) then NoSession(done)
    else
      var request := GateRequest(id, token);
      if gateReply.Ok? then
        var logs := LoadLogs(done.(gate := gateReply.body.data), id, token, stored, logsReply);
        Reaction([request] + logs.requests, Some(pending), logs.state, logs.effects)
      else
        var effects :=
          if Unauthorized(gateReply) then Expel
          else [ErrorToast(Or(ResponseMessage(gateReply), GateFailed))];
        Reaction([request], Some(pending), done, effects)
  }

  /**
   `loadGate` calling the corrected `loadLogs`: the same requests, effects and gate, and the
   same history except that a reply without a list leaves an empty one instead of `undefined`.
   */
  function LoadGateCorrected(s: State, id: string, token: Option<string>, stored: Option<string>,
                             gateReply: Outcome<Envelope<Gate>>,
                             logsReply: Outcome<Envelope<seq<LogEntry>>>): (r: Reaction<State>)
    ensures var w := LoadGate(s, id, token, stored, gateReply, logsReply);
            && r.requests == w.requests && r.awaiting == w.awaiting && r.effects == w.effects
            && r.state.(logs := w.state.logs) == w.state
            && (r.state.logs != w.state.logs ==> w.state.logs == None && r.state.logs == Some([]))
    ensures Truthy(token) && gateReply.Ok? ==> r.state.logs.Some?
  {
    var pending := s.(loading := true);
    var done := pending.(loading := false);
    if !Truthy(token) then NoSession(done)
    else
      var request := GateRequest(id, token);
      if gateReply.Ok? then
        var logs := LoadLogsCorrected(done.(gate := gateReply.body.data), id, token, stored, logsReply);
        Reaction([request] + logs.requests, Some(pending), logs.state, logs.effects)
      else
        var effects :=
          if Unauthorized(gateReply) then Expel
          else [ErrorToast(Or(ResponseMessage(gateReply), GateFailed))];
        Reaction([request], Some(pending), done, effects)
  }

  /** The movement panel: one row per record, or the empty-history message. */
  datatype History = Rows(entries: seq<LogEntry>) | Empty(message: string)

  /**
   What the page renders; `RenderFailure` is the render throwing because it reads the length of
   an `undefined` list.
   */
  datatype View = LoadingView | NotFoundView | RenderFailure | DetailsView(gate: Gate, badge: string, history: History)

  function ViewOf(s: State): (v: View)
    ensures v == LoadingView <==> s.loading
    ensures v == NotFoundView <==> !s.loading && s.gate.None?
    ensures v == RenderFailure <==> !s.loading && s.gate.Some? && s.logs.None?
    ensures v.DetailsView? ==> s.gate == Some(v.gate) && (v.badge == "Ativado" <==> v.gate.status == "ativado")
    ensures v.DetailsView? ==> (v.history == Empty(NoMovements) <==> s.logs == Some([]))
    ensures v.DetailsView? && v.history.Rows? ==> s.logs == Some(v.history.entries)
  {
    if s.loading then LoadingView
    else if s.gate.None? then NotFoundView
    else if s.logs.None? then RenderFailure
    else
      var history := if s.logs.value == [] then Empty(NoMovements) else Rows(s.logs.value);
      DetailsView(s.gate.value, StatusLabel(s.gate.value.status), history)
  }

  /**
   As written, a history reply without a list makes the page fail to render, even though the
   gate itself loaded.
   */
  lemma HistoryWithoutListFailsRender(g: Gate, id: string, token: string, gateMessage: Option<string>,
                                      message: Option<string>)
    requires token != ""
    ensures var loaded := State(Some(g), Some([]), false, false);
            ViewOf(LoadLogs(loaded, id, Some(token), None, Ok(Envelope(None, message))).state) == RenderFailure
    ensures ViewOf(LoadGate(Initial, id, Some(token), None, Ok(Envelope(Some(g), gateMessage)),
                            Ok(Envelope(None, message))).state) == RenderFailure
  {
  }

  /** With the corrected `loadLogs`, a loaded page always renders the gate or the not-found view. */
  lemma LoadedPageRenders(s: State, id: string, token: Option<string>, stored: Option<string>,
                          gateReply: Outcome<Envelope<Gate>>,
                          logsReply: Outcome<Envelope<seq<LogEntry>>>)
    requires s.logs.Some?
    ensures var v := ViewOf(LoadGateCorrected(s, id, token, stored, gateReply, logsReply).state);
            v.NotFoundView? || v.DetailsView?
  {
  }

  /** A gate that fails to load, for whatever reason, leaves the not-found view. */
  lemma FailedGateShowsNotFound(id: string, token: Option<string>, stored: Option<string>,
                                gateReply: Outcome<Envelope<Gate>>,
                                logsReply: Outcome<Envelope<seq<LogEntry>>>)
    requires !gateReply.Ok?
    ensures ViewOf(LoadGate(Initial, id, token, stored, gateReply, logsReply).state) == NotFoundView
  {
  }
}
