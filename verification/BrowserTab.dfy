/**
 One browser tab: token storage, the shared `refreshPromise`, and the calls
 waiting on it.  Each function is one stretch of code between two awaits.
 */
module BrowserTab {
  import opened Prelude
  import opened RefreshTokens

  type CallId = nat
  type FlightId = nat

  /** Where an API call is: a fetch is out, it awaits a refresh, or it has returned or thrown. */
  datatype Phase =
    | Fetching(retry: bool)
    | Awaiting(flight: Option<FlightId>)
    | Finished

  datatype Call = Call(phase: Phase, fetches: nat)

  /**
   `refreshPromise` names the refresh in flight; `settled` holds the results of
   finished ones.  An access token is named by the refresh token issued with it.
   */
  datatype Tab = Tab(
    access: Option<Jti>,
    refresh: Option<Jwt>,
    refreshPromise: Option<FlightId>,
    settled: map<FlightId, bool>,
    calls: map<CallId, Call>)

  function SetTokens(tab: Tab, jwt: Jwt): Tab {
    tab.(access := Some(jwt.jti), refresh := Some(jwt))
  }

  function ClearTokens(tab: Tab): Tab {
    tab.(access := None, refresh := None)
  }

  /** A refresh to await, and the refresh token to post if this call starts it. */
  datatype Attempt = Attempt(tab: Tab, flight: Option<FlightId>, post: Option<Jwt>)

  function AttemptRefresh(tab: Tab, newFlight: FlightId): Attempt {
    if tab.refresh.None? then Attempt(tab, None, None)
    else if tab.refreshPromise.None? then
      Attempt(tab.(refreshPromise := Some(newFlight)), Some(newFlight), tab.refresh)
    else Attempt(tab, tab.refreshPromise, None)
  }

  function StartCall(tab: Tab, c: CallId): Tab {
    tab.(calls := tab.calls[c := Call(Fetching(true), 1)])
  }

  function OnResponse(tab: Tab, c: CallId, unauthorized: bool, newFlight: FlightId): Attempt
    requires c in tab.calls && tab.calls[c].phase.Fetching?
  {
    var call := tab.calls[c];
    if unauthorized && call.phase.retry then
      var a := AttemptRefresh(tab, newFlight);
      a.(tab := a.tab.(calls := tab.calls[c := call.(phase := Awaiting(a.flight))]))
    else
      Attempt(tab.(calls := tab.calls[c := call.(phase := Finished)]), None, None)
  }

  /** The refresh function body after its fetch: store the new pair, clear `refreshPromise`. */
  function OnRefreshAnswer(tab: Tab, f: FlightId, answer: Option<Jwt>): Tab {
    var stored := if answer.Some? then SetTokens(tab, answer.value) else tab;
    stored.(refreshPromise := None, settled := tab.settled[f := answer.Some?])
  }

  /** A waiting call continues: fetch once more, or give up and clear the tokens. */
  function ResumeCall(tab: Tab, c: CallId): Tab
    requires c in tab.calls && tab.calls[c].phase.Awaiting?
    requires tab.calls[c].phase.flight.Some? ==> tab.calls[c].phase.flight.value in tab.settled
  {
    var call := tab.calls[c];
    if call.phase.flight.Some? && tab.settled[call.phase.flight.value] then
      tab.(calls := tab.calls[c := Call(Fetching(false), call.fetches + 1)])
    else
      ClearTokens(tab).(calls := tab.calls[c := call.(phase := Finished)])
  }
}
