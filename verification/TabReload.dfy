/** Reloading the page: when the stored session survives it. */
module TabReload {
  import opened Prelude
  import opened RefreshTokens
  import opened RefreshTokenRuns
  import opened BrowserTab
  import opened TabSession

  /**
   `adrift` are refresh tokens posted by the old page whose requests still travel;
   nobody hears the answers.  `clock` is the time, which does not run backwards.
   */
  datatype Page = Page(world: World, adrift: set<Jwt>, clock: Time)

  /** The module state and the answers on their way are lost, the storage entries and travelling requests are not. */
  function Reload(w: World, now: Time): Page {
    Page(w.(tab := Tab(w.tab.access, w.tab.refresh, None, map[], map[]), flights := map[], signIns := {}),
         set f | f in w.flights && w.flights[f].Sent? :: w.flights[f].token,
         now)
  }

  datatype Move = Own(step: Step) | Drift(jwt: Jwt, event: Event)

  /** A step in which the server serves a request. */
  predicate HasEvent(s: Step) {
    s.ServeFlight? || s.ServeSignIn? || s.Elsewhere?
  }

  /** Own moves deliver every answer that carries tokens; an adrift request is served at any time, or never. */
  ghost predicate Possible(p: Page, m: Move) {
    match m
    case Own(s) => Allowed(true, p.world, s) && (HasEvent(s) ==> p.clock <= s.event.now)
    case Drift(jwt, e) =>
      jwt in p.adrift && FreshIds(p.world.server, e) && e.request == Refresh(Signed(jwt)) && p.clock <= e.now
  }

  function After(p: Page, m: Move): Page
    requires Possible(p, m)
  {
    match m
    case Own(s) => p.(world := Next(p.world, s), clock := if HasEvent(s) then s.event.now else p.clock)
    case Drift(jwt, e) => Page(p.world.(server := Serve(p.world.server, e).server), p.adrift - {jwt}, e.now)
  }

  datatype Course = Course(pages: seq<Page>, moves: seq<Move>)

  ghost predicate ValidCourse(p: Page, c: Course) {
    |c.pages| == |c.moves| + 1 && c.pages[0] == p &&
    forall i :: 0 <= i < |c.moves| ==>
      Possible(c.pages[i], c.moves[i]) && c.pages[i + 1] == After(c.pages[i], c.moves[i])
  }

  /** A refresh of the new page is taken for a replay. */
  predicate Reuses(p: Page, m: Move) {
    m.Own? && m.step.ServeFlight? && Serve(p.world.server, m.step.event).reply == Refused(ReuseDetected)
  }

  /** Whatever happens after the reload, no refresh of the new page is taken for a replay. */
  ghost predicate Survives(p: Page) {
    forall c, i :: ValidCourse(p, c) && 0 <= i < |c.moves| ==> !Reuses(c.pages[i], c.moves[i])
  }

  /** The stored token is being exchanged, or was exchanged, and its successor has not been stored. */
  ghost predicate Exchanging(w: World) {
    w.tab.refresh.Some? &&
    exists f :: f in w.flights && w.flights[f].token == w.tab.refresh.value &&
                (w.flights[f].Sent? || w.flights[f].answer.Some?)
  }

  // ---------------------------------------------------------------- survival

  /** The new page's invariant; adrift requests are about sessions that it does not hold, or came too late. */
  ghost predicate PageInv(p: Page, stale: set<Jwt>) {
    WorldInv(true, stale, p.world) && (forall jwt :: jwt in stale ==> jwt.exp <= p.clock) &&
    forall jwt :: jwt in p.adrift ==>
      jwt in p.world.server.signed && (jwt.fam !in OwnFamilies(p.world) || jwt in stale)
  }

  lemma SignedGrows(s: Server, e: Event)
    ensures s.signed <= Serve(s, e).server.signed
  {
  }

  /** Every family of `w'` is one of `w` or new to the server. */
  ghost predicate OnlyNewFamilies(w: World, w': World) {
    forall f :: f in OwnFamilies(w') ==> f in OwnFamilies(w) || forall jwt :: jwt in w.server.signed ==> jwt.fam != f
  }

  lemma SettleKeepsFamilies(stale: set<Jwt>, w: World, f: FlightId)
    requires WorldInv(true, stale, w) && Enabled(w, Settle(f))
    ensures OwnFamilies(Next(w, Settle(f))) <= OwnFamilies(w)
  {
    assert w.flights[f].token.fam in OwnFamilies(w);
    assert w.flights[f].answer.Some? ==> w.flights[f].answer.value.fam == w.flights[f].token.fam;
  }

  lemma TabKeepsFamilies(stale: set<Jwt>, w: World, s: Step)
    requires WorldInv(true, stale, w) && Enabled(w, s)
    requires s.Start? || s.Respond? || s.Settle? || s.Resume? || s.DeliverSignIn?
    ensures OwnFamilies(Next(w, s)) <= OwnFamilies(w)
  {
    if s.Settle? {
      SettleKeepsFamilies(stale, w, s.flight);
    }
  }

  lemma WireKeepsFamilies(w: World, s: Step)
    requires Enabled(w, s) && (s.LoseRequest? || s.LoseAnswer? || s.ServeFlight? || s.Elsewhere?)
    ensures OwnFamilies(Next(w, s)) <= OwnFamilies(w)
  {
    forall f | f in Next(w, s).flights ensures f in w.flights && Next(w, s).flights[f].token == w.flights[f].token {
    }
  }

  /** The tab takes on only families that are new to the server. */
  lemma OwnFamiliesStep(stale: set<Jwt>, w: World, s: Step)
    requires WorldInv(true, stale, w) && Enabled(w, s)
    ensures OnlyNewFamilies(w, Next(w, s))
  {
    match s
    case ServeSignIn(e) => SignInStartsFamily(w.server, e);
    case LoseRequest(_) => WireKeepsFamilies(w, s);
    case LoseAnswer(_) => WireKeepsFamilies(w, s);
    case ServeFlight(_, _) => WireKeepsFamilies(w, s);
    case Elsewhere(_) => WireKeepsFamilies(w, s);
    case _ => TabKeepsFamilies(stale, w, s);
  }

  lemma SignedStays(w: World, s: Step)
    requires Enabled(w, s)
    ensures w.server.signed <= Next(w, s).server.signed
  {
    if s.ServeFlight? || s.ServeSignIn? || s.Elsewhere? {
      SignedGrows(w.server, s.event);
    }
  }

  lemma OwnMoveKeepsInv(p: Page, stale: set<Jwt>, s: Step)
    requires PageInv(p, stale) && Possible(p, Own(s))
    ensures PageInv(After(p, Own(s)), stale)
  {
    StepKeepsInv(true, stale, p.world, s);
    OwnFamiliesStep(stale, p.world, s);
    SignedStays(p.world, s);
  }

  lemma DriftKeepsInv(p: Page, stale: set<Jwt>, jwt: Jwt, e: Event)
    requires PageInv(p, stale) && Possible(p, Drift(jwt, e))
    ensures PageInv(After(p, Drift(jwt, e)), stale)
  {
    if jwt in stale {
      assert Serve(p.world.server, e).server == p.world.server;
      assert After(p, Drift(jwt, e)).world == p.world;
    } else {
      assert Enabled(p.world, Elsewhere(e));
      OthersKeepInv(true, stale, p.world, e);
      SignedGrows(p.world.server, e);
      assert After(p, Drift(jwt, e)).world == Next(p.world, Elsewhere(e));
      assert OwnFamilies(Next(p.world, Elsewhere(e))) == OwnFamilies(p.world);
    }
  }

  lemma {:induction false} CourseKeepsInv(p: Page, stale: set<Jwt>, c: Course, i: nat)
    requires PageInv(p, stale) && ValidCourse(p, c) && i < |c.pages|
    ensures PageInv(c.pages[i], stale)
  {
    if i == 0 {
    } else {
      CourseKeepsInv(p, stale, c, i - 1);
      assert Possible(c.pages[i - 1], c.moves[i - 1]);
      match c.moves[i - 1]
      case Own(s) => OwnMoveKeepsInv(c.pages[i - 1], stale, s);
      case Drift(jwt, e) => DriftKeepsInv(c.pages[i - 1], stale, jwt, e);
    }
  }

  /** The reload comes while the stored token is being exchanged, and that token can still be used. */
  ghost predicate Endangers(w: World, now: Time) {
    Exchanging(w) && now < w.tab.refresh.value.exp
  }

  lemma ReloadStartsWell(w: World, now: Time) returns (stale: set<Jwt>)
    requires WorldInv(true, {}, w) && !Endangers(w, now)
    ensures PageInv(Reload(w, now), stale)
  {
    stale := if Exchanging(w) then {w.tab.refresh.value} else {};
    var p := Reload(w, now);
    if w.tab.refresh.Some? && !Exchanging(w) {
      var stored := w.tab.refresh.value;
      assert LiveToken(w.server, stored);
      forall jwt | jwt in p.adrift ensures jwt.fam != stored.fam {
        if jwt.fam == stored.fam {
          OneLiveToken(w.server, jwt, stored);
        }
      }
    }
  }

  // ---------------------------------------------------------------- loss

  lemma Extend(p: Page, c: Course, m: Move) returns (c': Course)
    requires ValidCourse(p, c) && Possible(Last(c.pages), m)
    ensures ValidCourse(p, c') && Last(c'.pages) == After(Last(c.pages), m)
    ensures c'.moves == c.moves + [m] && c'.pages[..|c.pages|] == c.pages
  {
    c' := Course(c.pages + [After(Last(c.pages), m)], c.moves + [m]);
  }

  /** Any request can be given fresh ids and any time. */
  lemma SomeEvent(s: Server, q: Request, now: Time) returns (e: Event)
    ensures FreshIds(s, e) && e.request == q && e.now == now
  {
    var jti := NewString(s.table.Keys);
    var family := NewString(set j | j in s.table :: s.table[j].familyId);
    e := Event(q, now, jti, family);
  }

  /** A page that has just loaded with a spent token posts it at its first 401. */
  ghost predicate HoldsSpent(w: World, spent: Jwt) {
    w.tab.refresh == Some(spent) && w.tab.refreshPromise == None && w.tab.calls == map[] && w.tab.settled == map[] &&
    w.flights == map[] && Inv(w.server) && spent in w.server.signed && w.server.table[spent.jti].revokedAt.Some?
  }

  lemma SpentIsLost(p: Page, c: Course, spent: Jwt)
    requires ValidCourse(p, c) && HoldsSpent(Last(c.pages).world, spent) && Last(c.pages).clock < spent.exp
    ensures !Survives(p)
  {
    var c1 := Extend(p, c, Own(Start(0)));
    var c2 := Extend(p, c1, Own(Respond(0, true, 0)));
    var launched := Last(c2.pages);
    var e := SomeEvent(launched.world.server, Refresh(Signed(spent)), launched.clock);
    ExchangedTokenReused(launched.world.server, e, spent);
    var m := Own(ServeFlight(0, e));
    var c3 := Extend(p, c2, m);
    var i := |c2.moves|;
    assert c3.moves[i] == m && c3.pages[i] == launched;
    assert Reuses(c3.pages[i], c3.moves[i]);
  }

  /** An account that can use its tokens, if need be after being enabled or registered by someone. */
  lemma EnableAccount(p: Page, user: UserId) returns (c: Course)
    requires WorldInv(true, {}, p.world)
    ensures ValidCourse(p, c) && Usable(Last(c.pages).world.server, user) && Inv(Last(c.pages).world.server)
    ensures Last(c.pages).adrift == p.adrift && Last(c.pages).clock == p.clock
    ensures Last(c.pages).world.tab == p.world.tab && Last(c.pages).world.flights == p.world.flights
    ensures forall jwt :: LiveToken(p.world.server, jwt) ==> LiveToken(Last(c.pages).world.server, jwt)
  {
    c := Course([p], []);
    var s := p.world.server;
    if !Usable(s, user) {
      var q := if user in s.users then SetActive(user, true) else Register(user);
      var e := SomeEvent(s, q, p.clock);
      assert Enabled(p.world, Elsewhere(e));
      c := Extend(p, c, Own(Elsewhere(e)));
      ServeKeepsInv(s, e);
    }
  }

  lemma TravellingIsLost(p: Page, jwt: Jwt)
    requires WorldInv(true, {}, p.world) && jwt in p.adrift && p.world.tab.refresh == Some(jwt)
    requires p.world.flights == map[] && p.world.tab.calls == map[] && p.world.tab.settled == map[]
    requires LiveToken(p.world.server, jwt) && p.clock < jwt.exp
    ensures !Survives(p)
  {
    var c := EnableAccount(p, jwt.sub);
    var q := Last(c.pages);
    var e := SomeEvent(q.world.server, Refresh(Signed(jwt)), q.clock);
    c := Extend(p, c, Drift(jwt, e));
    ServeKeepsInv(q.world.server, e);
    SpentIsLost(p, c, jwt);
  }

  lemma TravellingReload(w: World, now: Time, stored: Jwt)
    requires WorldInv(true, {}, w) && w.tab.refresh == Some(stored) && LiveToken(w.server, stored)
    ensures WorldInv(true, {}, Reload(w, now).world)
  {
  }

  /** Once its successor is on the way the stored token is spent. */
  lemma SpentReload(w: World, now: Time, f: FlightId)
    requires WorldInv(true, {}, w) && f in w.flights && w.tab.refresh == Some(w.flights[f].token)
    requires w.flights[f].Answered? && w.flights[f].answer.Some?
    ensures HoldsSpent(Reload(w, now).world, w.flights[f].token)
  {
    var spent := w.flights[f].token;
    if LiveToken(w.server, spent) {
      OneLiveToken(w.server, spent, w.flights[f].answer.value);
    }
  }

  /** The session survives a reload if and only if its token is not being exchanged at that moment, or has expired. */
  lemma ReloadSurvivedIff(w: World, now: Time)
    requires WorldInv(true, {}, w)
    ensures Survives(Reload(w, now)) <==> !Endangers(w, now)
  {
    var p := Reload(w, now);
    if !Endangers(w, now) {
      var stale := ReloadStartsWell(w, now);
      forall c, i | ValidCourse(p, c) && 0 <= i < |c.moves| ensures !Reuses(c.pages[i], c.moves[i]) {
        CourseKeepsInv(p, stale, c, i);
        assert Possible(c.pages[i], c.moves[i]);
        if c.moves[i].Own? && c.moves[i].step.ServeFlight? {
          ServeFlightKeepsInv(true, stale, c.pages[i].world, c.moves[i].step.flight, c.moves[i].step.event);
        }
      }
    } else {
      var stored := w.tab.refresh.value;
      var f :| f in w.flights && w.flights[f].token == stored && (w.flights[f].Sent? || w.flights[f].answer.Some?);
      if w.flights[f].Sent? {
        assert stored in p.adrift;
        TravellingReload(w, now, stored);
        TravellingIsLost(p, stored);
      } else {
        SpentReload(w, now, f);
        SpentIsLost(p, Course([p], []), stored);
      }
    }
  }

  /** Reloading the page before the answer is stored makes the next 401 end the session. */
  lemma ReloadLosesSession(
    w: World, now: Time, f: FlightId, jwt: Jwt, c: CallId, g: FlightId, e: Event)
    requires Inv(w.server) && Exchanged(w, f, jwt)
    requires FreshIds(w.server, e) && e.request == Refresh(Signed(jwt)) && e.now < jwt.exp
    ensures var started := Next(Reload(w, now).world, Start(c));
            var launched := Next(started, Respond(c, true, g));
            Enabled(launched, ServeFlight(g, e)) &&
            Serve(launched.server, e).reply == Refused(ReuseDetected) &&
            NoneActive(FamilyRows(Next(launched, ServeFlight(g, e)).server.table, jwt.fam))
  {
    ExchangedTokenReused(w.server, e, jwt);
  }

  // ---------------------------------------------------------------- such moments are reached

  lemma ExtendTrace(t: Trace, s: Step) returns (t': Trace)
    requires ValidTrace(true, t) && Allowed(true, Last(t.worlds), s)
    ensures ValidTrace(true, t') && Last(t'.worlds) == Next(Last(t.worlds), s)
  {
    t' := Trace(t.worlds + [Next(Last(t.worlds), s)], t.steps + [s]);
  }

  /** From an empty server: register and store the tokens. */
  lemma SignedInIsReached(user: UserId) returns (t: Trace, jwt: Jwt)
    ensures ValidTrace(true, t) && jwt.sub == user && Usable(Last(t.worlds).server, user)
    ensures Last(t.worlds).tab == Tab(Some(jwt.jti), Some(jwt), None, map[], map[])
    ensures Last(t.worlds).flights == map[]
  {
    var w := World(EMPTY_SERVER, Tab(None, None, None, map[], map[]), map[], {});
    forall f ensures HasChain(EMPTY_SERVER.table, f) {
      assert IsChain(EMPTY_SERVER.table, f, []);
    }
    t := Trace([w], []);
    var e := SomeEvent(EMPTY_SERVER, Register(user), 0);
    jwt := Serve(EMPTY_SERVER, e).reply.jwt;
    t := ExtendTrace(t, ServeSignIn(e));
    t := ExtendTrace(t, DeliverSignIn(jwt));
  }

  /** Then two calls start and the first gets a 401, so that a refresh is sent. */
  lemma SentIsReached(user: UserId) returns (t: Trace, jwt: Jwt)
    ensures ValidTrace(true, t) && Last(t.worlds).tab.refresh == Some(jwt) && jwt.sub == user
    ensures Last(t.worlds).flights == map[0 := Sent(jwt)] && Usable(Last(t.worlds).server, user)
    ensures Last(t.worlds).tab.settled == map[] && Last(t.worlds).tab.calls.Keys == {0, 1}
    ensures Last(t.worlds).tab.calls[1].phase == Fetching(true)
  {
    t, jwt := SignedInIsReached(user);
    t := ExtendTrace(t, Start(0));
    t := ExtendTrace(t, Start(1));
    t := ExtendTrace(t, Respond(0, true, 0));
  }

  /**
   Both kinds of losing moment are reached, with a second call pending: the refresh
   travelling, and its answer travelling.
   */
  lemma ExchangeIsReached(user: UserId) returns (sent: Trace, answered: Trace, jwt: Jwt)
    ensures ValidTrace(true, sent) && Exchanging(Last(sent.worlds)) && Last(sent.worlds).flights == map[0 := Sent(jwt)]
    ensures ValidTrace(true, answered) && Exchanged(Last(answered.worlds), 0, jwt)
    ensures 1 in Last(answered.worlds).tab.calls && Last(answered.worlds).tab.calls[1].phase == Fetching(true)
    ensures 1 !in Last(answered.worlds).flights && 1 !in Last(answered.worlds).tab.settled
  {
    sent, jwt := SentIsReached(user);
    var w := Last(sent.worlds);
    TraceKeepsInv(true, sent, |sent.worlds| - 1);
    assert w.flights[0].token == jwt;
    var e := SomeEvent(w.server, Refresh(Signed(jwt)), jwt.exp - 1);
    answered := ExtendTrace(sent, ServeFlight(0, e));
    LiveRefresh(w.server, e, jwt);
  }
}
