/** The API client of one tab, proved against the functions of `BrowserTab`. */
module ApiClient {
  import opened Prelude
  import opened RefreshTokens
  import opened BrowserTab

  /** The module variables and storage entries of the tab, updated in place. */
  class Browser {
    var accessToken: Option<Jti>
    var refreshToken: Option<Jwt>
    var refreshPromise: Option<FlightId>
    var settled: map<FlightId, bool>
    var calls: map<CallId, Call>

    function State(): Tab
      reads this
    {
      Tab(accessToken, refreshToken, refreshPromise, settled, calls)
    }

    constructor ()
      ensures State() == Tab(None, None, None, map[], map[])
    {
      accessToken, refreshToken, refreshPromise, settled, calls := None, None, None, map[], map[];
    }

    method SetTokens(jwt: Jwt)
      modifies `accessToken, `refreshToken
      ensures State() == BrowserTab.SetTokens(old(State()), jwt)
    {
      accessToken := Some(jwt.jti);
      refreshToken := Some(jwt);
    }

    method ClearTokens()
      modifies `accessToken, `refreshToken
      ensures State() == BrowserTab.ClearTokens(old(State()))
    {
      accessToken := None;
      refreshToken := None;
    }

    method AttemptRefresh(newFlight: FlightId) returns (flight: Option<FlightId>, post: Option<Jwt>)
      modifies `refreshPromise
      ensures Attempt(State(), flight, post) == BrowserTab.AttemptRefresh(old(State()), newFlight)
    {
      var token := refreshToken;
      post := None;
      if token.None? {
        return None, None;
      }
      if refreshPromise.None? {
        refreshPromise := Some(newFlight);
        post := token;
      }
      flight := refreshPromise;
    }

    method StartCall(c: CallId)
      modifies `calls
      ensures State() == BrowserTab.StartCall(old(State()), c)
    {
      calls := calls[c := Call(Fetching(true), 1)];
    }

    method OnResponse(c: CallId, unauthorized: bool, newFlight: FlightId) returns (post: Option<Jwt>)
      requires c in calls && calls[c].phase.Fetching?
      modifies `refreshPromise, `calls
      ensures var a := BrowserTab.OnResponse(old(State()), c, unauthorized, newFlight);
              State() == a.tab && post == a.post
    {
      post := None;
      if unauthorized && calls[c].phase.retry {
        var flight;
        flight, post := AttemptRefresh(newFlight);
        calls := calls[c := calls[c].(phase := Awaiting(flight))];
      } else {
        calls := calls[c := calls[c].(phase := Finished)];
      }
    }

    method OnRefreshAnswer(f: FlightId, answer: Option<Jwt>)
      modifies this
      ensures State() == BrowserTab.OnRefreshAnswer(old(State()), f, answer)
    {
      if answer.Some? {
        SetTokens(answer.value);
      }
      settled := settled[f := answer.Some?];
      refreshPromise := None;
    }

    method ResumeCall(c: CallId)
      requires c in calls && calls[c].phase.Awaiting?
      requires calls[c].phase.flight.Some? ==> calls[c].phase.flight.value in settled
      modifies this
      ensures State() == BrowserTab.ResumeCall(old(State()), c)
    {
      var flight := calls[c].phase.flight;
      if flight.Some? && settled[flight.value] {
        calls := calls[c := Call(Fetching(false), calls[c].fetches + 1)];
      } else {
        ClearTokens();
        calls := calls[c := calls[c].(phase := Finished)];
      }
    }
  }
}
