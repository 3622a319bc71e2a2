/**
 The tab and the server together: every interleaving of any number of calls,
 refreshes, sign-ins of this tab, and requests of other sessions.
 */
module TabSession {
  import opened Prelude
  import opened RefreshTokens
  import opened RefreshTokenRuns
  import opened BrowserTab

  /** A refresh request on the wire: still travelling, or answered (`None` when it did not yield tokens). */
  datatype Flight = Sent(token: Jwt) | Answered(token: Jwt, answer: Option<Jwt>)

  /** `signIns` are tokens the server issued to this tab that have not reached it yet. */
  datatype World = World(server: Server, tab: Tab, flights: map<FlightId, Flight>, signIns: set<Jwt>)

  datatype Step =
    | Start(call: CallId)
    | Respond(call: CallId, unauthorized: bool, newFlight: FlightId)
    | ServeFlight(flight: FlightId, event: Event)
    | LoseRequest(flight: FlightId)
    | LoseAnswer(flight: FlightId)
    | Settle(flight: FlightId)
    | Resume(call: CallId)
    | ServeSignIn(event: Event)
    | DeliverSignIn(jwt: Jwt)
    | Elsewhere(event: Event)

  predicate IsSignIn(q: Request) {
    q.Register? || q.Login? || q.GoogleSignIn?
  }

  /** The families this tab holds a token of, in storage or on the wire. */
  function OwnFamilies(w: World): set<Family> {
    (if w.tab.refresh.Some? then {w.tab.refresh.value.fam} else {}) +
    (set f | f in w.flights :: w.flights[f].token.fam) +
    (set jwt | jwt in w.signIns :: jwt.fam)
  }

  ghost predicate Enabled(w: World, s: Step) {
    match s
    case Start(c) => c !in w.tab.calls
    case Respond(c, _, f) =>
      c in w.tab.calls && w.tab.calls[c].phase.Fetching? && f !in w.flights && f !in w.tab.settled
    case ServeFlight(f, e) =>
      f in w.flights && w.flights[f].Sent? && FreshIds(w.server, e) &&
      e.request == Refresh(Signed(w.flights[f].token))
    case LoseRequest(f) => f in w.flights && w.flights[f].Sent?
    case LoseAnswer(f) => f in w.flights && w.flights[f].Answered?
    case Settle(f) => f in w.flights && w.flights[f].Answered?
    case Resume(c) =>
      c in w.tab.calls && w.tab.calls[c].phase.Awaiting? &&
      (w.tab.calls[c].phase.flight.Some? ==> w.tab.calls[c].phase.flight.value in w.tab.settled)
    case ServeSignIn(e) => IsSignIn(e.request) && Legal(w.server, e)
    case DeliverSignIn(jwt) => jwt in w.signIns
    case Elsewhere(e) =>
      Legal(w.server, e) && forall f :: f in OwnFamilies(w) ==> !Touches(w.server, e.request, f)
  }

  function Next(w: World, s: Step): World
    requires Enabled(w, s)
  {
    match s
    case Start(c) => w.(tab := StartCall(w.tab, c))
    case Respond(c, unauthorized, f) =>
      var a := OnResponse(w.tab, c, unauthorized, f);
      w.(tab := a.tab, flights := if a.post.Some? then w.flights[f := Sent(a.post.value)] else w.flights)
    case ServeFlight(f, e) =>
      var o := Serve(w.server, e);
      w.(server := o.server,
         flights := w.flights[f := Answered(w.flights[f].token, if o.reply.Issued? then Some(o.reply.jwt) else None)])
    case LoseRequest(f) => w.(flights := w.flights[f := Answered(w.flights[f].token, None)])
    case LoseAnswer(f) => w.(flights := w.flights[f := Answered(w.flights[f].token, None)])
    case Settle(f) =>
      w.(tab := OnRefreshAnswer(w.tab, f, w.flights[f].answer), flights := w.flights - {f})
    case Resume(c) => w.(tab := ResumeCall(w.tab, c))
    case ServeSignIn(e) =>
      var o := Serve(w.server, e);
      w.(server := o.server, signIns := if o.reply.Issued? then w.signIns + {o.reply.jwt} else w.signIns)
    case DeliverSignIn(jwt) => w.(tab := SetTokens(w.tab, jwt), signIns := w.signIns - {jwt})
    case Elsewhere(e) => w.(server := Serve(w.server, e).server)
  }

  // ---------------------------------------------------------------- assumptions

  /** No answer carrying new tokens is lost on its way to the tab. */
  ghost predicate Delivering(w: World, s: Step) {
    s.LoseAnswer? && s.flight in w.flights && w.flights[s.flight].Answered? ==> w.flights[s.flight].answer.None?
  }

  /** `c` awaits a refresh that failed and has not yet continued. */
  predicate FailedWaiter(tab: Tab, c: CallId) {
    c in tab.calls && tab.calls[c].phase.Awaiting? && tab.calls[c].phase.flight.Some? &&
    tab.calls[c].phase.flight.value in tab.settled && !tab.settled[tab.calls[c].phase.flight.value]
  }

  /** Calls woken by a failed refresh continue before the next network response is handled. */
  ghost predicate Prompt(w: World, s: Step) {
    s.Respond? ==> forall c :: !FailedWaiter(w.tab, c)
  }

  ghost predicate Allowed(lossless: bool, w: World, s: Step) {
    Enabled(w, s) && if lossless then Delivering(w, s) else Prompt(w, s)
  }

  // ---------------------------------------------------------------- invariant

  ghost predicate CallsInv(w: World) {
    forall c :: c in w.tab.calls ==>
      var call := w.tab.calls[c];
      call.fetches <= 2 && (call.phase == Fetching(true) || call.phase.Awaiting? ==> call.fetches == 1)
  }

  /** `refreshPromise` is set exactly while one refresh is in flight, and some call awaits it. */
  ghost predicate SingleFlight(w: World) {
    w.flights.Keys == (if w.tab.refreshPromise.Some? then {w.tab.refreshPromise.value} else {}) &&
    forall f :: f in w.flights ==>
      f !in w.tab.settled && exists c :: c in w.tab.calls && w.tab.calls[c].phase == Awaiting(Some(f))
  }

  ghost predicate LiveToken(s: Server, jwt: Jwt) {
    jwt in s.signed && Active(s.table, jwt.jti)
  }

  /** A token that is not taken for a replay: it is active, or one of those that have expired for good. */
  ghost predicate Safe(s: Server, stale: set<Jwt>, jwt: Jwt) {
    jwt in s.signed && (jwt in stale || Active(s.table, jwt.jti))
  }

  ghost predicate FlightInv(lossless: bool, stale: set<Jwt>, s: Server, fl: Flight) {
    fl.token in s.signed &&
    (fl.Sent? ==> Safe(s, stale, fl.token)) &&
    (fl.Answered? && fl.answer.Some? ==>
       LiveToken(s, fl.answer.value) && fl.answer.value.fam == fl.token.fam && fl.answer.value != fl.token) &&
    (fl.Answered? && fl.answer.None? && lossless ==> Safe(s, stale, fl.token))
  }

  /**
   The stored token is safe, or it is the very token whose answer is on its way,
   or (only when answers can be lost) a failed refresh is about to clear it.
   */
  ghost predicate StoredInv(lossless: bool, stale: set<Jwt>, w: World) {
    w.tab.access == (if w.tab.refresh.Some? then Some(w.tab.refresh.value.jti) else None) &&
    (w.tab.refresh.Some? ==>
      w.tab.refresh.value in w.server.signed &&
      (|| Safe(w.server, stale, w.tab.refresh.value)
       || (exists f :: f in w.flights && w.flights[f].Answered? && w.flights[f].token == w.tab.refresh.value)
       || (!lossless && exists c :: FailedWaiter(w.tab, c))))
  }

  ghost predicate SignInsInv(w: World) {
    forall jwt :: jwt in w.signIns ==>
      LiveToken(w.server, jwt) &&
      (forall other :: other in w.signIns && other.fam == jwt.fam ==> other == jwt) &&
      (w.tab.refresh.Some? ==> w.tab.refresh.value.fam != jwt.fam) &&
      (forall f :: f in w.flights ==> w.flights[f].token.fam != jwt.fam)
  }

  ghost predicate WorldInv(lossless: bool, stale: set<Jwt>, w: World) {
    Inv(w.server) && CallsInv(w) && SingleFlight(w) && StoredInv(lossless, stale, w) && SignInsInv(w) &&
    forall f :: f in w.flights ==> FlightInv(lossless, stale, w.server, w.flights[f])
  }

  // ---------------------------------------------------------------- every step keeps the invariant

  /** A live token stays live, and stays signed, under requests that do not touch its family. */
  lemma UntouchedTokenStaysLive(s: Server, e: Event, jwt: Jwt)
    requires Inv(s) && Legal(s, e) && jwt in s.signed && !Touches(s, e.request, jwt.fam)
    ensures jwt in Serve(s, e).server.signed
    ensures Active(s.table, jwt.jti) ==> Active(Serve(s, e).server.table, jwt.jti)
  {
    assert jwt.jti in FamilyRows(s.table, jwt.fam);
    OtherSessionsUntouched(s, e, jwt.fam);
    assert Active(s.table, jwt.jti) ==> jwt.jti in FamilyRows(Serve(s, e).server.table, jwt.fam);
  }

  /** A family has one live token. */
  lemma OneLiveToken(s: Server, jwt: Jwt, other: Jwt)
    requires Inv(s) && LiveToken(s, jwt) && LiveToken(s, other) && jwt.fam == other.fam
    ensures jwt == other
  {
    assert HasChain(s.table, jwt.fam);
    var c :| IsChain(s.table, jwt.fam, c);
    ActiveIsLast(s.table, jwt.fam, c, jwt.jti);
    ActiveIsLast(s.table, jwt.fam, c, other.jti);
  }

  /** Serving the refresh of a live token is never the reuse branch, and revokes no other token. */
  lemma LiveRefresh(s: Server, e: Event, jwt: Jwt)
    requires Inv(s) && FreshIds(s, e) && LiveToken(s, jwt) && e.request == Refresh(Signed(jwt))
    ensures Legal(s, e) && Inv(Serve(s, e).server)
    ensures Serve(s, e).reply != Refused(ReuseDetected)
    ensures s.signed <= Serve(s, e).server.signed
    ensures forall other :: LiveToken(s, other) && other != jwt ==> LiveToken(Serve(s, e).server, other)
    ensures Serve(s, e).reply.Issued? ==>
              LiveToken(Serve(s, e).server, Serve(s, e).reply.jwt) &&
              Serve(s, e).reply.jwt.fam == jwt.fam && Serve(s, e).reply.jwt != jwt
    ensures !Serve(s, e).reply.Issued? ==> Serve(s, e).server == s
  {
    ServeKeepsInv(s, e);
    forall other | LiveToken(s, other) && other != jwt ensures LiveToken(Serve(s, e).server, other) {
      assert other.jti != jwt.jti;
    }
  }

  /** A refresh is answered by a server that kept every other live token, or is not answered by a server at all. */
  lemma AnswerKeepsInv(
    lossless: bool, stale: set<Jwt>, w: World, f: FlightId, server: Server, answer: Option<Jwt>)
    requires WorldInv(lossless, stale, w) && f in w.flights && w.flights[f].Sent?
    requires Inv(server) && w.server.signed <= server.signed
    requires forall jwt :: LiveToken(w.server, jwt) && jwt != w.flights[f].token ==> LiveToken(server, jwt)
    requires answer.Some? ==> LiveToken(server, answer.value) &&
                              answer.value.fam == w.flights[f].token.fam && answer.value != w.flights[f].token
    requires answer.None? ==> server == w.server
    ensures WorldInv(
              lossless, stale, w.(server := server, flights := w.flights[f := Answered(w.flights[f].token, answer)]))
  {
    var w' := w.(server := server, flights := w.flights[f := Answered(w.flights[f].token, answer)]);
    assert w'.flights.Keys == w.flights.Keys == {f};
    assert w'.flights[f].Answered? && w'.flights[f].token == w.flights[f].token;
    assert forall jwt :: jwt in w.signIns ==> jwt != w.flights[f].token;
    assert forall jwt :: Safe(w.server, stale, jwt) && jwt !in stale ==> LiveToken(w.server, jwt);
  }

  /** The event comes too late for the token if that is one of `stale`. */
  ghost predicate Late(stale: set<Jwt>, jwt: Jwt, e: Event) {
    jwt in stale ==> jwt.exp <= e.now
  }

  lemma ServeFlightKeepsInv(lossless: bool, stale: set<Jwt>, w: World, f: FlightId, e: Event)
    requires WorldInv(lossless, stale, w) && Enabled(w, ServeFlight(f, e)) && Late(stale, w.flights[f].token, e)
    ensures WorldInv(lossless, stale, Next(w, ServeFlight(f, e)))
    ensures Serve(w.server, e).reply != Refused(ReuseDetected)
  {
    var o := Serve(w.server, e);
    if w.flights[f].token in stale {
      assert o == Outcome(w.server, Refused(TokenExpired));
    } else {
      LiveRefresh(w.server, e, w.flights[f].token);
    }
    AnswerKeepsInv(lossless, stale, w, f, o.server, if o.reply.Issued? then Some(o.reply.jwt) else None);
  }

  /** The server moved on without harm to the families this tab holds. */
  lemma ServerMovedKeepsInv(lossless: bool, stale: set<Jwt>, w: World, server: Server)
    requires WorldInv(lossless, stale, w) && Inv(server)
    requires forall jwt: Jwt :: jwt in w.server.signed && jwt.fam in OwnFamilies(w) ==>
               jwt in server.signed && (Active(w.server.table, jwt.jti) ==> Active(server.table, jwt.jti))
    ensures WorldInv(lossless, stale, w.(server := server))
  {
    forall f | f in w.flights ensures w.flights[f].token.fam in OwnFamilies(w) {}
    forall jwt | jwt in w.signIns ensures jwt.fam in OwnFamilies(w) {}
  }

  lemma OthersKeepInv(lossless: bool, stale: set<Jwt>, w: World, e: Event)
    requires WorldInv(lossless, stale, w) && Enabled(w, Elsewhere(e))
    ensures WorldInv(lossless, stale, Next(w, Elsewhere(e)))
  {
    ServeKeepsInv(w.server, e);
    forall jwt: Jwt | jwt in w.server.signed && jwt.fam in OwnFamilies(w)
      ensures jwt in Serve(w.server, e).server.signed
      ensures Active(w.server.table, jwt.jti) ==> Active(Serve(w.server, e).server.table, jwt.jti)
    {
      UntouchedTokenStaysLive(w.server, e, jwt);
    }
    ServerMovedKeepsInv(lossless, stale, w, Serve(w.server, e).server);
  }

  /** A sign-in's token is live and the first of its family. */
  lemma SignInStartsFamily(s: Server, e: Event)
    requires Inv(s) && Legal(s, e) && IsSignIn(e.request)
    ensures var o := Serve(s, e);
            o.reply.Issued? ==>
              LiveToken(o.server, o.reply.jwt) && forall jwt :: jwt in s.signed ==> jwt.fam != o.reply.jwt.fam
  {
    var o := Serve(s, e);
    if o.reply.Issued? {
      forall jwt: Jwt | jwt in s.signed ensures jwt.fam != o.reply.jwt.fam {
        assert jwt.jti in s.table;
      }
    }
  }

  lemma AwaitedSignInKeepsInv(lossless: bool, stale: set<Jwt>, w: World, jwt: Jwt)
    requires WorldInv(lossless, stale, w) && LiveToken(w.server, jwt)
    requires forall other :: other in w.signIns ==> other.fam != jwt.fam
    requires w.tab.refresh.Some? ==> w.tab.refresh.value.fam != jwt.fam
    requires forall f :: f in w.flights ==> w.flights[f].token.fam != jwt.fam
    ensures WorldInv(lossless, stale, w.(signIns := w.signIns + {jwt}))
  {
  }

  lemma SignInKeepsWorldInv(lossless: bool, stale: set<Jwt>, w: World, e: Event)
    requires WorldInv(lossless, stale, w) && Enabled(w, ServeSignIn(e))
    ensures WorldInv(lossless, stale, Next(w, ServeSignIn(e)))
  {
    OthersKeepInv(lossless, stale, w, e);
    SignInStartsFamily(w.server, e);
    var o := Serve(w.server, e);
    if o.reply.Issued? {
      AwaitedSignInKeepsInv(lossless, stale, Next(w, Elsewhere(e)), o.reply.jwt);
    }
  }

  /** Some call other than `except` awaits each flight of `w'` that `w` also had. */
  lemma WaitersRemain(w: World, w': World, f: FlightId, changed: CallId)
    requires f in w.flights && SingleFlight(w)
    requires forall c :: c in w.tab.calls && c != changed ==> c in w'.tab.calls && w'.tab.calls[c] == w.tab.calls[c]
    requires changed in w.tab.calls ==> w.tab.calls[changed].phase != Awaiting(Some(f))
    ensures exists c :: c in w'.tab.calls && w'.tab.calls[c].phase == Awaiting(Some(f))
  {
    var c :| c in w.tab.calls && w.tab.calls[c].phase == Awaiting(Some(f));
    assert w'.tab.calls[c].phase == Awaiting(Some(f));
  }

  lemma FailedWaiterRemains(w: World, w': World, changed: CallId)
    requires exists c :: c != changed && FailedWaiter(w.tab, c)
    requires forall c :: c in w.tab.calls && c != changed ==> c in w'.tab.calls && w'.tab.calls[c] == w.tab.calls[c]
    requires forall f :: f in w.tab.settled ==> f in w'.tab.settled && w'.tab.settled[f] == w.tab.settled[f]
    ensures exists c :: FailedWaiter(w'.tab, c)
  {
    var c :| c != changed && FailedWaiter(w.tab, c);
    assert FailedWaiter(w'.tab, c);
  }

  lemma StartKeepsInv(lossless: bool, stale: set<Jwt>, w: World, c: CallId)
    requires WorldInv(lossless, stale, w) && Enabled(w, Start(c))
    ensures WorldInv(lossless, stale, Next(w, Start(c)))
  {
    var w' := Next(w, Start(c));
    forall f | f in w'.flights ensures exists k :: k in w'.tab.calls && w'.tab.calls[k].phase == Awaiting(Some(f)) {
      WaitersRemain(w, w', f, c);
    }
    if exists k :: k != c && FailedWaiter(w.tab, k) { FailedWaiterRemains(w, w', c); }
  }

  lemma RespondKeepsSingleFlight(w: World, c: CallId, unauthorized: bool, g: FlightId)
    requires SingleFlight(w) && Enabled(w, Respond(c, unauthorized, g))
    ensures SingleFlight(Next(w, Respond(c, unauthorized, g)))
  {
    var w' := Next(w, Respond(c, unauthorized, g));
    forall f | f in w'.flights ensures exists k :: k in w'.tab.calls && w'.tab.calls[k].phase == Awaiting(Some(f)) {
      if f in w.flights {
        WaitersRemain(w, w', f, c);
      } else {
        assert w'.tab.calls[c].phase == Awaiting(Some(f));
      }
    }
  }

  lemma RespondKeepsStored(lossless: bool, stale: set<Jwt>, w: World, c: CallId, unauthorized: bool, g: FlightId)
    requires WorldInv(lossless, stale, w) && Enabled(w, Respond(c, unauthorized, g))
    requires lossless || Prompt(w, Respond(c, unauthorized, g))
    ensures StoredInv(lossless, stale, Next(w, Respond(c, unauthorized, g)))
  {
    var w' := Next(w, Respond(c, unauthorized, g));
    assert w'.server == w.server && w'.tab.refresh == w.tab.refresh && w'.tab.access == w.tab.access;
    assert forall f :: f in w.flights ==> f in w'.flights && w'.flights[f] == w.flights[f];
  }

  lemma RespondKeepsFlights(lossless: bool, stale: set<Jwt>, w: World, c: CallId, unauthorized: bool, g: FlightId)
    requires WorldInv(lossless, stale, w) && Enabled(w, Respond(c, unauthorized, g))
    requires lossless || Prompt(w, Respond(c, unauthorized, g))
    ensures var w' := Next(w, Respond(c, unauthorized, g));
            SignInsInv(w') && forall f :: f in w'.flights ==> FlightInv(lossless, stale, w'.server, w'.flights[f])
  {
    assert w.tab.refresh.Some? && w.flights == map[] ==> Safe(w.server, stale, w.tab.refresh.value);
  }

  lemma RespondKeepsCalls(w: World, c: CallId, unauthorized: bool, g: FlightId)
    requires CallsInv(w) && Enabled(w, Respond(c, unauthorized, g))
    ensures CallsInv(Next(w, Respond(c, unauthorized, g)))
    ensures Next(w, Respond(c, unauthorized, g)).server == w.server
  {
  }

  lemma RespondKeepsInv(lossless: bool, stale: set<Jwt>, w: World, c: CallId, unauthorized: bool, g: FlightId)
    requires WorldInv(lossless, stale, w) && Enabled(w, Respond(c, unauthorized, g))
    requires lossless || Prompt(w, Respond(c, unauthorized, g))
    ensures WorldInv(lossless, stale, Next(w, Respond(c, unauthorized, g)))
  {
    RespondKeepsSingleFlight(w, c, unauthorized, g);
    RespondKeepsStored(lossless, stale, w, c, unauthorized, g);
    RespondKeepsFlights(lossless, stale, w, c, unauthorized, g);
    RespondKeepsCalls(w, c, unauthorized, g);
  }

  lemma SettleKeepsInv(lossless: bool, stale: set<Jwt>, w: World, f: FlightId)
    requires WorldInv(lossless, stale, w) && Enabled(w, Settle(f))
    ensures WorldInv(lossless, stale, Next(w, Settle(f)))
  {
    var w' := Next(w, Settle(f));
    assert w'.flights == map[];
    var c :| c in w.tab.calls && w.tab.calls[c].phase == Awaiting(Some(f));
    assert w.flights[f].answer.None? ==> FailedWaiter(w'.tab, c);
    if exists k :: k != c && FailedWaiter(w.tab, k) { FailedWaiterRemains(w, w', c); }
  }

  lemma ResumeKeepsInv(lossless: bool, stale: set<Jwt>, w: World, c: CallId)
    requires WorldInv(lossless, stale, w) && Enabled(w, Resume(c))
    ensures WorldInv(lossless, stale, Next(w, Resume(c)))
  {
    var w' := Next(w, Resume(c));
    forall f | f in w'.flights ensures exists k :: k in w'.tab.calls && w'.tab.calls[k].phase == Awaiting(Some(f)) {
      WaitersRemain(w, w', f, c);
    }
    if w'.tab.refresh.Some? {
      assert !FailedWaiter(w.tab, c);
      if exists k :: k != c && FailedWaiter(w.tab, k) { FailedWaiterRemains(w, w', c); }
    }
  }

  lemma LostAnswerKeepsInv(lossless: bool, stale: set<Jwt>, w: World, f: FlightId)
    requires WorldInv(lossless, stale, w) && Enabled(w, LoseAnswer(f)) && (lossless ==> Delivering(w, LoseAnswer(f)))
    ensures WorldInv(lossless, stale, Next(w, LoseAnswer(f)))
  {
    var w' := Next(w, LoseAnswer(f));
    assert w'.flights.Keys == w.flights.Keys == {f};
    assert w'.flights[f].Answered? && w'.flights[f].token == w.flights[f].token;
  }

  lemma DeliveryKeepsInv(lossless: bool, stale: set<Jwt>, w: World, jwt: Jwt)
    requires WorldInv(lossless, stale, w) && Enabled(w, DeliverSignIn(jwt))
    ensures WorldInv(lossless, stale, Next(w, DeliverSignIn(jwt)))
  {
    assert LiveToken(w.server, jwt);
  }

  lemma StepKeepsInv(lossless: bool, stale: set<Jwt>, w: World, s: Step)
    requires WorldInv(lossless, stale, w) && Allowed(lossless, w, s)
    requires s.ServeFlight? ==> Late(stale, w.flights[s.flight].token, s.event)
    ensures WorldInv(lossless, stale, Next(w, s))
  {
    match s
    case Start(c) => StartKeepsInv(lossless, stale, w, c);
    case Respond(c, unauthorized, g) => RespondKeepsInv(lossless, stale, w, c, unauthorized, g);
    case ServeFlight(f, e) => ServeFlightKeepsInv(lossless, stale, w, f, e);
    case LoseRequest(f) => AnswerKeepsInv(lossless, stale, w, f, w.server, None);
    case LoseAnswer(f) => LostAnswerKeepsInv(lossless, stale, w, f);
    case Settle(f) => SettleKeepsInv(lossless, stale, w, f);
    case Resume(c) => ResumeKeepsInv(lossless, stale, w, c);
    case ServeSignIn(e) => SignInKeepsWorldInv(lossless, stale, w, e);
    case DeliverSignIn(jwt) => DeliveryKeepsInv(lossless, stale, w, jwt);
    case Elsewhere(e) => OthersKeepInv(lossless, stale, w, e);
  }

  // ---------------------------------------------------------------- whole runs

  /** A page just loaded: nothing in flight, and any stored refresh token is live. */
  ghost predicate Opened(w: World) {
    Inv(w.server) && w.flights == map[] && w.signIns == {} &&
    w.tab.refreshPromise == None && w.tab.settled == map[] && w.tab.calls == map[] &&
    w.tab.access == (if w.tab.refresh.Some? then Some(w.tab.refresh.value.jti) else None) &&
    (w.tab.refresh.Some? ==> LiveToken(w.server, w.tab.refresh.value))
  }

  datatype Trace = Trace(worlds: seq<World>, steps: seq<Step>)

  /** Any interleaving that starts at a page load; `lossless` chooses the network assumption. */
  ghost predicate ValidTrace(lossless: bool, t: Trace) {
    |t.worlds| == |t.steps| + 1 && Opened(t.worlds[0]) &&
    forall i :: 0 <= i < |t.steps| ==>
      Allowed(lossless, t.worlds[i], t.steps[i]) && t.worlds[i + 1] == Next(t.worlds[i], t.steps[i])
  }

  lemma {:induction false} TraceKeepsInv(lossless: bool, t: Trace, i: nat)
    requires ValidTrace(lossless, t) && i < |t.worlds|
    ensures WorldInv(lossless, {}, t.worlds[i])
  {
    if i == 0 {
    } else {
      TraceKeepsInv(lossless, t, i - 1);
      StepKeepsInv(lossless, {}, t.worlds[i - 1], t.steps[i - 1]);
    }
  }

  /**
   In every interleaving, no refresh of this tab is ever taken for a replay,
   provided that answers carrying tokens are delivered or that calls woken by a
   failed refresh clear the tokens before the next response is handled.
   */
  lemma ReuseNeverReached(lossless: bool, t: Trace, i: nat, f: FlightId, e: Event)
    requires ValidTrace(lossless, t) && i < |t.steps| && t.steps[i] == ServeFlight(f, e)
    ensures Serve(t.worlds[i].server, e).reply != Refused(ReuseDetected)
  {
    TraceKeepsInv(lossless, t, i);
    ServeFlightKeepsInv(lossless, {}, t.worlds[i], f, e);
  }

  /** At most one refresh is in flight, exactly while `refreshPromise` is set; no call fetches thrice. */
  lemma OneRefreshTwoFetches(lossless: bool, t: Trace, i: nat, c: CallId)
    requires ValidTrace(lossless, t) && i < |t.worlds|
    ensures |t.worlds[i].flights| <= 1
    ensures t.worlds[i].flights != map[] <==> t.worlds[i].tab.refreshPromise.Some?
    ensures c in t.worlds[i].tab.calls ==> t.worlds[i].tab.calls[c].fetches <= 2
  {
    TraceKeepsInv(lossless, t, i);
    var w := t.worlds[i];
    assert |w.flights| == |w.flights.Keys|;
    assert w.tab.refreshPromise.Some? ==> w.tab.refreshPromise.value in w.flights;
  }

  /** While no refresh is in flight the stored token is unrevoked; in any case its session is alive. */
  lemma StoredSessionIsAlive(t: Trace, i: nat)
    requires ValidTrace(true, t) && i < |t.worlds| && t.worlds[i].tab.refresh.Some?
    ensures t.worlds[i].tab.refreshPromise.None? ==>
              Active(t.worlds[i].server.table, t.worlds[i].tab.refresh.value.jti)
    ensures !NoneActive(FamilyRows(t.worlds[i].server.table, t.worlds[i].tab.refresh.value.fam))
  {
    TraceKeepsInv(true, t, i);
    var w := t.worlds[i];
    var rows := FamilyRows(w.server.table, w.tab.refresh.value.fam);
    if LiveToken(w.server, w.tab.refresh.value) {
      assert w.tab.refresh.value.jti in rows;
    } else {
      var f :| f in w.flights && w.flights[f].Answered? && w.flights[f].token == w.tab.refresh.value;
      assert w.flights[f].answer.value.jti in rows;
    }
  }

  // ---------------------------------------------------------------- the assumptions are needed

  /** The stored token was exchanged, and its successor has not been stored yet. */
  ghost predicate Exchanged(w: World, f: FlightId, spent: Jwt) {
    f in w.flights && w.flights[f].Answered? && w.flights[f].answer.Some? && w.flights[f].token == spent &&
    w.tab.refresh == Some(spent) && spent in w.server.signed &&
    spent.jti in w.server.table && w.server.table[spent.jti].revokedAt.Some?
  }

  /** Posting the exchanged token again, unexpired, is the reuse branch and ends the session. */
  lemma ExchangedTokenReused(s: Server, e: Event, jwt: Jwt)
    requires Inv(s) && jwt in s.signed && s.table[jwt.jti].revokedAt.Some?
    requires e.request == Refresh(Signed(jwt)) && e.now < jwt.exp
    ensures Serve(s, e).reply == Refused(ReuseDetected)
    ensures NoneActive(FamilyRows(Serve(s, e).server.table, jwt.fam))
  {
  }

  /** Without either assumption reuse is reached: the answer is lost and another 401 comes first. */
  lemma LostAnswerThenResponseReuses(
    w: World, f: FlightId, jwt: Jwt, c: CallId, g: FlightId, e: Event)
    requires WorldInv(true, {}, w) && Exchanged(w, f, jwt) && g !in w.flights && g !in w.tab.settled
    requires c in w.tab.calls && w.tab.calls[c].phase == Fetching(true)
    requires FreshIds(w.server, e) && e.request == Refresh(Signed(jwt)) && e.now < jwt.exp
    ensures var settled := Next(Next(w, LoseAnswer(f)), Settle(f));
            var launched := Next(settled, Respond(c, true, g));
            !Delivering(w, LoseAnswer(f)) && !Prompt(settled, Respond(c, true, g)) &&
            Enabled(launched, ServeFlight(g, e)) &&
            Serve(launched.server, e).reply == Refused(ReuseDetected)
  {
    ExchangedTokenReused(w.server, e, jwt);
    var settled := Next(Next(w, LoseAnswer(f)), Settle(f));
    var waiter :| waiter in w.tab.calls && w.tab.calls[waiter].phase == Awaiting(Some(f));
    assert FailedWaiter(settled.tab, waiter);
  }
}
