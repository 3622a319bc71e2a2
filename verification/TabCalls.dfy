/** The story of one API call of the tab: when it waits, when it is retried, and how it ends. */
module TabCalls {
  import opened Prelude
  import opened RefreshTokens
  import opened BrowserTab
  import opened TabSession

  /** The refresh `flight` has ended, and the server's new tokens were stored. */
  predicate Succeeded(tab: Tab, flight: Option<FlightId>) {
    flight.Some? && flight.value in tab.settled && tab.settled[flight.value]
  }

  /** There was nothing to refresh with, or the refresh `flight` has ended without tokens. */
  predicate FailedToRefresh(tab: Tab, flight: Option<FlightId>) {
    flight.None? || (flight.value in tab.settled && !tab.settled[flight.value])
  }

  /**
   Where a call is that got a 401 and was told to await `flight`: still waiting; or
   retried once, which happens only after a refresh that succeeded; or given up,
   which happens only after one that failed.
   */
  ghost predicate Story(tab: Tab, c: CallId, flight: Option<FlightId>) {
    c in tab.calls &&
    match tab.calls[c].phase
    case Awaiting(awaited) => awaited == flight && tab.calls[c].fetches == 1
    case Fetching(retry) => !retry && tab.calls[c].fetches == 2 && Succeeded(tab, flight)
    case Finished =>
      if tab.calls[c].fetches == 2 then Succeeded(tab, flight)
      else tab.calls[c].fetches == 1 && FailedToRefresh(tab, flight)
  }

  /** The refresh a 401 makes a call wait for: the pending one, or a new one if there is a token to post. */
  function AwaitedAfter401(tab: Tab, newFlight: FlightId): Option<FlightId> {
    if tab.refresh.None? then None
    else if tab.refreshPromise.Some? then tab.refreshPromise
    else Some(newFlight)
  }

  /** A first 401 makes the call wait; the stored token is posted exactly if no refresh is pending. */
  lemma UnauthorizedWaits(w: World, c: CallId, f: FlightId)
    requires CallsInv(w) && Enabled(w, Respond(c, true, f)) && w.tab.calls[c].phase == Fetching(true)
    ensures var w' := Next(w, Respond(c, true, f));
            w'.tab.calls[c].phase == Awaiting(AwaitedAfter401(w.tab, f)) && Story(w'.tab, c, AwaitedAfter401(w.tab, f))
    ensures Next(w, Respond(c, true, f)).flights ==
            if w.tab.refresh.Some? && w.tab.refreshPromise.None? then w.flights[f := Sent(w.tab.refresh.value)]
            else w.flights
  {
  }

  /** Any other response ends the call, without a refresh. */
  lemma ResponseFinishes(w: World, c: CallId, unauthorized: bool, f: FlightId)
    requires Enabled(w, Respond(c, unauthorized, f)) && !(unauthorized && w.tab.calls[c].phase == Fetching(true))
    ensures Next(w, Respond(c, unauthorized, f)) ==
            w.(tab := w.tab.(calls := w.tab.calls[c := w.tab.calls[c].(phase := Finished)]))
  {
  }

  /** A delivered answer with tokens is stored and ends the refresh well; any other ends it badly and stores nothing. */
  lemma AnswerIsStored(w: World, f: FlightId)
    requires Enabled(w, Settle(f))
    ensures var tab, tab', answer := w.tab, Next(w, Settle(f)).tab, w.flights[f].answer;
            tab'.refreshPromise == None && tab'.settled == tab.settled[f := answer.Some?] && tab'.calls == tab.calls &&
            (answer.Some? ==> tab'.refresh == answer && tab'.access == Some(answer.value.jti)) &&
            (answer.None? ==> tab'.refresh == tab.refresh && tab'.access == tab.access)
  {
  }

  /** A call that gives up signs the tab out; one that is retried keeps the tokens. */
  lemma GivingUpSignsOut(w: World, c: CallId)
    requires Enabled(w, Resume(c))
    ensures var tab' := Next(w, Resume(c)).tab;
            if Succeeded(w.tab, w.tab.calls[c].phase.flight)
            then tab'.refresh == w.tab.refresh && tab'.access == w.tab.access && tab'.calls[c].phase == Fetching(false)
            else tab'.refresh == None && tab'.access == None && tab'.calls[c].phase == Finished
  {
  }

  /** No step rewrites the result of a refresh. */
  lemma ResultsStay(w: World, s: Step, f: FlightId)
    requires SingleFlight(w) && Enabled(w, s) && f in w.tab.settled
    ensures f in Next(w, s).tab.settled && Next(w, s).tab.settled[f] == w.tab.settled[f]
  {
  }

  lemma StoryGoesOn(w: World, s: Step, c: CallId, flight: Option<FlightId>)
    requires SingleFlight(w) && CallsInv(w) && Enabled(w, s) && Story(w.tab, c, flight)
    ensures Story(Next(w, s).tab, c, flight)
  {
    if flight.Some? && flight.value in w.tab.settled {
      ResultsStay(w, s, flight.value);
    }
  }

  lemma {:induction false} StoryOfCall(lossless: bool, t: Trace, i: nat, k: nat, c: CallId, flight: Option<FlightId>)
    requires ValidTrace(lossless, t) && i <= k < |t.worlds| && Story(t.worlds[i].tab, c, flight)
    ensures Story(t.worlds[k].tab, c, flight)
    decreases k
  {
    if i == k {
    } else {
      StoryOfCall(lossless, t, i, k - 1, c, flight);
      TraceKeepsInv(lossless, t, k - 1);
      assert Allowed(lossless, t.worlds[k - 1], t.steps[k - 1]);
      StoryGoesOn(t.worlds[k - 1], t.steps[k - 1], c, flight);
    }
  }

  /**
   Over every interleaving, a call that got its first 401 at step `i` waits for the
   refresh it was told to await, is fetched a second time only if that refresh
   brought tokens, and gives up only if it did not; once the call has ended, it
   was retried exactly if the refresh succeeded.
   */
  lemma RetriedIffRefreshed(lossless: bool, t: Trace, i: nat, k: nat, c: CallId, f: FlightId)
    requires ValidTrace(lossless, t) && i < |t.steps| && i < k < |t.worlds|
    requires t.steps[i] == Respond(c, true, f) && t.worlds[i].tab.calls[c].phase == Fetching(true)
    ensures var flight, tab := AwaitedAfter401(t.worlds[i].tab, f), t.worlds[k].tab;
            Story(tab, c, flight) &&
            (tab.calls[c].phase.Finished? ==> (tab.calls[c].fetches == 2 <==> Succeeded(tab, flight)))
  {
    TraceKeepsInv(lossless, t, i);
    UnauthorizedWaits(t.worlds[i], c, f);
    StoryOfCall(lossless, t, i + 1, k, c, AwaitedAfter401(t.worlds[i].tab, f));
  }

  /** A step gives a refresh a good result only by delivering an answer with tokens. */
  lemma ResultStep(w: World, s: Step, f: FlightId)
    requires SingleFlight(w) && Enabled(w, s)
    ensures Succeeded(Next(w, s).tab, Some(f)) <==>
            Succeeded(w.tab, Some(f)) || (s == Settle(f) && w.flights[f].answer.Some?)
  {
  }

  /** A refresh has a good result exactly if an answer with tokens was delivered for it. */
  lemma {:induction false} ResultIsAnswer(lossless: bool, t: Trace, k: nat, f: FlightId)
    requires ValidTrace(lossless, t) && k < |t.worlds|
    ensures Succeeded(t.worlds[k].tab, Some(f)) <==>
            exists j :: 0 <= j < k && t.steps[j] == Settle(f) && f in t.worlds[j].flights &&
                        t.worlds[j].flights[f].Answered? && t.worlds[j].flights[f].answer.Some?
  {
    if k == 0 {
    } else {
      ResultIsAnswer(lossless, t, k - 1, f);
      TraceKeepsInv(lossless, t, k - 1);
      assert Allowed(lossless, t.worlds[k - 1], t.steps[k - 1]);
      ResultStep(t.worlds[k - 1], t.steps[k - 1], f);
    }
  }
}
