/** What holds over every serial run of sign-ins, refreshes, logouts and resets. */
module RefreshTokenRuns {
  import opened Prelude
  import opened RefreshTokens

  datatype Run = Run(states: seq<Server>, events: seq<Event>)

  ghost predicate ValidRun(r: Run) {
    |r.states| == |r.events| + 1 &&
    r.states[0] == EMPTY_SERVER &&
    forall i :: 0 <= i < |r.events| ==>
      Legal(r.states[i], r.events[i]) && r.states[i + 1] == Serve(r.states[i], r.events[i]).server
  }

  function ReplyAt(r: Run, i: nat): Reply
    requires i < |r.events| && i < |r.states|
  {
    Serve(r.states[i], r.events[i]).reply
  }

  /** Event `i` presents a correctly signed token with id `j` for refresh. */
  ghost predicate Presents(r: Run, i: nat, j: Jti) {
    i < |r.events| && r.events[i].request.Refresh? && r.events[i].request.token.Signed? &&
    r.events[i].request.token.jwt.jti == j
  }

  ghost predicate Accepts(r: Run, i: nat, j: Jti) {
    i < |r.states| && Presents(r, i, j) && ReplyAt(r, i).Issued?
  }

  function FamilyRows(t: Table, f: Family): Table {
    map j | j in t && t[j].familyId == f :: t[j]
  }

  ghost predicate NoneActive(rows: Table) {
    forall j :: j in rows ==> rows[j].revokedAt.Some?
  }

  // ---------------------------------------------------------------- invariant over runs

  lemma {:induction false} RunKeepsInv(r: Run, k: nat)
    requires ValidRun(r) && k < |r.states|
    ensures Inv(r.states[k])
  {
    if k == 0 {
      forall f ensures HasChain(EMPTY_SERVER.table, f) {
        assert IsChain(EMPTY_SERVER.table, f, []);
      }
    } else {
      RunKeepsInv(r, k - 1);
      ServeKeepsInv(r.states[k - 1], r.events[k - 1]);
    }
  }

  /** Every family is one acyclic chain, has one user, and at most one active token: the newest. */
  lemma FamilyIsOneChain(r: Run, k: nat, f: Family) returns (chain: seq<Jti>)
    requires ValidRun(r) && k < |r.states|
    ensures IsChain(r.states[k].table, f, chain)
    ensures forall j :: Active(r.states[k].table, j) && r.states[k].table[j].familyId == f ==>
              chain != [] && j == Last(chain)
    ensures forall i, j :: i in FamilyRows(r.states[k].table, f) && j in FamilyRows(r.states[k].table, f) ==>
              r.states[k].table[i].userId == r.states[k].table[j].userId
  {
    RunKeepsInv(r, k);
    var t := r.states[k].table;
    assert HasChain(t, f);
    chain :| IsChain(t, f, chain);
    forall j | Active(t, j) && t[j].familyId == f ensures chain != [] && j == Last(chain) {
      ActiveIsLast(t, f, chain, j);
    }
    forall i, j | i in FamilyRows(t, f) && j in FamilyRows(t, f) ensures t[i].userId == t[j].userId {
      assert i in chain && j in chain;
    }
  }

  /** A refresh succeeds exactly for the unrevoked, unexpired newest token of a usable account. */
  lemma AcceptedIffNewest(r: Run, i: nat, jwt: Jwt, chain: seq<Jti>)
    requires ValidRun(r) && i < |r.events| && r.events[i].request == Refresh(Signed(jwt))
    requires IsChain(r.states[i].table, jwt.fam, chain)
    ensures ReplyAt(r, i).Issued? <==>
              r.events[i].now < jwt.exp && Usable(r.states[i], jwt.sub) &&
              chain != [] && jwt.jti == Last(chain) && Active(r.states[i].table, jwt.jti)
    ensures ReplyAt(r, i).Issued? ==>
              IsChain(r.states[i + 1].table, jwt.fam, chain + [ReplyAt(r, i).jwt.jti])
  {
    RunKeepsInv(r, i);
    assert Legal(r.states[i], r.events[i]);
    if Active(r.states[i].table, jwt.jti) {
      ActiveIsLast(r.states[i].table, jwt.fam, chain, jwt.jti);
    }
    if ReplyAt(r, i).Issued? {
      RotateExtendsChain(r.states[i], jwt, r.events[i], chain);
    }
  }

  // ---------------------------------------------------------------- who gets tokens

  /** What a request must prove to sign an account in. */
  predicate SignsIn(q: Request, user: UserId) {
    q == Register(user) || q == Login(Some(user), true) || q == GoogleSignIn(user)
  }

  /** A request that signs a new token signs its account in, or has presented an older token of the family. */
  lemma NewTokenIsEarned(s: Server, e: Event, jwt: Jwt)
    requires Inv(s) && Legal(s, e) && jwt in Serve(s, e).server.signed && jwt !in s.signed
    ensures Serve(s, e).reply == Issued(jwt) && Usable(Serve(s, e).server, jwt.sub)
    ensures (SignsIn(e.request, jwt.sub) && e.newFamily == jwt.fam) ||
            (e.request.Refresh? && e.request.token.Signed? && e.request.token.jwt in s.signed &&
             e.request.token.jwt.fam == jwt.fam && e.request.token.jwt.sub == jwt.sub)
  {
  }

  /** Every token ever signed goes back to a sign-in of its account, which started its family. */
  lemma {:induction false} TokensComeFromSignIns(r: Run, k: nat, jwt: Jwt) returns (i: nat)
    requires ValidRun(r) && k < |r.states| && jwt in r.states[k].signed
    ensures i < k && r.events[i].newFamily == jwt.fam && SignsIn(r.events[i].request, jwt.sub)
    ensures ReplyAt(r, i).Issued? && ReplyAt(r, i).jwt.fam == jwt.fam && Usable(r.states[i + 1], jwt.sub)
    decreases k
  {
    var s, e := r.states[k - 1], r.events[k - 1];
    assert Legal(s, e);
    RunKeepsInv(r, k - 1);
    if jwt in s.signed {
      i := TokensComeFromSignIns(r, k - 1, jwt);
    } else {
      NewTokenIsEarned(s, e, jwt);
      if SignsIn(e.request, jwt.sub) {
        i := k - 1;
      } else {
        i := TokensComeFromSignIns(r, k - 1, e.request.token.jwt);
      }
    }
  }

  /** The answer to a sign-in: tokens exactly for a new, or a known, active and proven account. */
  ghost predicate SignInAnswer(s: Server, q: Request, reply: Reply) {
    match q
    case Register(user) => if user in s.users then reply == Refused(Conflict) else reply.Issued?
    case Login(found, passwordMatches) =>
      (reply.Issued? <==> passwordMatches && found.Some? && Usable(s, found.value)) &&
      (reply == Refused(Disabled) <==>
        passwordMatches && found.Some? && found.value in s.users && !Usable(s, found.value)) &&
      (reply.Issued? || reply == Refused(Disabled) || reply == Refused(BadCredentials))
    case GoogleSignIn(user) =>
      (reply.Issued? <==> user !in s.users || Usable(s, user)) && (reply.Issued? || reply == Refused(Disabled))
    case _ => true
  }

  /** A sign-in is answered as its proof deserves, with a live token of thirty days in a new family. */
  lemma SignInIsAnswered(s: Server, e: Event)
    ensures SignInAnswer(s, e.request, Serve(s, e).reply)
    ensures (e.request.Register? || e.request.Login? || e.request.GoogleSignIn?) && Serve(s, e).reply.Issued? ==>
              var s', jwt := Serve(s, e).server, Serve(s, e).reply.jwt;
              SignsIn(e.request, jwt.sub) && jwt.jti == e.newJti && jwt.fam == e.newFamily &&
              jwt.exp == e.now + 2_592_000 && s'.signed == s.signed + {jwt} &&
              s'.table == s.table[jwt.jti := Row(jwt.sub, jwt.fam, jwt.exp, None, None)]
  {
  }

  /** Every answer to a refresh has its own condition, and an unknown token is never seen. */
  lemma RefreshIsAnswered(r: Run, i: nat, p: Presented)
    requires ValidRun(r) && i < |r.events| && r.events[i].request == Refresh(p)
    ensures var s, now, reply := r.states[i], r.events[i].now, ReplyAt(r, i);
            (reply == Refused(InvalidToken) <==> p.Invalid?) &&
            (reply == Refused(TokenExpired) <==> p.Signed? && p.jwt.exp <= now) &&
            (reply == Refused(ReuseDetected) <==> p.Signed? && now < p.jwt.exp && !Active(s.table, p.jwt.jti)) &&
            (reply == Refused(InactiveUser) <==>
              p.Signed? && now < p.jwt.exp && Active(s.table, p.jwt.jti) && !Usable(s, p.jwt.sub)) &&
            (reply.Issued? <==>
              p.Signed? && now < p.jwt.exp && Active(s.table, p.jwt.jti) && Usable(s, p.jwt.sub)) &&
            (reply.Issued? ==>
              reply.jwt == Jwt(r.events[i].newJti, p.jwt.sub, p.jwt.fam, now + 2_592_000) &&
              r.states[i + 1].table[p.jwt.jti].replacedBy == Some(reply.jwt.jti) &&
              Active(r.states[i + 1].table, reply.jwt.jti))
  {
    RunKeepsInv(r, i);
    assert Legal(r.states[i], r.events[i]);
  }

  /** The active token that a request is to end. */
  ghost predicate ToEnd(s: Server, e: Event, j: Jti)
    requires j in s.table
  {
    match e.request
    case Refresh(Signed(jwt)) =>
      e.now < jwt.exp &&
      if Active(s.table, jwt.jti) then j == jwt.jti && Usable(s, jwt.sub) else s.table[j].familyId == jwt.fam
    case Logout(Some(Signed(jwt))) => e.now < jwt.exp && j == jwt.jti
    case ResetPassword(Some(user)) => Usable(s, user) && s.table[j].userId == user
    case _ => false
  }

  /** A request ends exactly the active tokens it is to end, and notes when. */
  lemma RequestEndsTokens(s: Server, e: Event, j: Jti)
    requires Inv(s) && Legal(s, e) && Active(s.table, j)
    ensures Active(Serve(s, e).server.table, j) <==> !ToEnd(s, e, j)
    ensures j in Serve(s, e).server.table
    ensures ToEnd(s, e, j) ==> Serve(s, e).server.table[j].revokedAt == Some(e.now)
    ensures !ToEnd(s, e, j) ==> Serve(s, e).server.table[j] == s.table[j]
  {
  }

  /** Accounts appear by registration or a first Google sign-in, active; only switching changes that. */
  lemma AccountsAfter(s: Server, e: Event, user: UserId)
    ensures var users' := Serve(s, e).server.users;
            (user in users' <==> user in s.users || e.request == Register(user) || e.request == GoogleSignIn(user)) &&
            (user in users' ==>
              users'[user] == if user !in s.users then true
                              else if e.request.SetActive? && e.request.account == user then e.request.active
                              else s.users[user])
  {
  }

  /** The answers to the other requests. */
  lemma OthersAreAnswered(s: Server, e: Event)
    ensures e.request.Logout? || e.request.SetActive? ==> Serve(s, e).reply == Done
    ensures e.request.ResetPassword? ==>
              Serve(s, e).reply == if e.request.subject.Some? && Usable(s, e.request.subject.value) then Done
                                   else Refused(InvalidResetToken)
  {
  }

  // ---------------------------------------------------------------- revocation is final

  lemma RevokedRowStays(s: Server, e: Event, j: Jti)
    requires Legal(s, e) && j in s.table && s.table[j].revokedAt.Some?
    ensures j in Serve(s, e).server.table && Serve(s, e).server.table[j] == s.table[j]
  {
  }

  /** Once revoked, a row never changes again: `revokedAt` and `replacedBy` are written at most once. */
  lemma {:induction false} RevokedRowsAreFrozen(r: Run, i: nat, k: nat, j: Jti)
    requires ValidRun(r) && i <= k < |r.states|
    requires j in r.states[i].table && r.states[i].table[j].revokedAt.Some?
    ensures j in r.states[k].table && r.states[k].table[j] == r.states[i].table[j]
    decreases k
  {
    if i == k {
    } else {
      RevokedRowsAreFrozen(r, i, k - 1, j);
      RevokedRowStays(r.states[k - 1], r.events[k - 1], j);
    }
  }

  /** A refresh token buys at most one successor over the whole run. */
  lemma AcceptedAtMostOnce(r: Run, i: nat, k: nat, j: Jti)
    requires ValidRun(r) && Accepts(r, i, j) && Accepts(r, k, j)
    ensures i == k
  {
    if i != k {
      var first, second := if i < k then i else k, if i < k then k else i;
      assert Legal(r.states[first], r.events[first]);
      RevokedRowsAreFrozen(r, first + 1, second, j);
    }
  }

  lemma DeadFamilyGainsNothing(s: Server, e: Event, f: Family, member: Jti, j: Jti)
    requires Inv(s) && Legal(s, e) && member in FamilyRows(s.table, f) && NoneActive(FamilyRows(s.table, f))
    requires j in Serve(s, e).server.table && Serve(s, e).server.table[j].familyId == f
    ensures j in s.table && s.table[j].familyId == f
  {
    if e.request.Refresh? && Serve(s, e).reply.Issued? {
      assert e.request.token.jwt.jti !in FamilyRows(s.table, f);
    }
  }

  lemma DeadFamilyStep(s: Server, e: Event, f: Family)
    requires Inv(s) && Legal(s, e)
    requires FamilyRows(s.table, f) != map[] && NoneActive(FamilyRows(s.table, f))
    ensures FamilyRows(Serve(s, e).server.table, f) == FamilyRows(s.table, f)
  {
    var member :| member in FamilyRows(s.table, f);
    var t, t' := s.table, Serve(s, e).server.table;
    forall j | j in t && t[j].familyId == f ensures j in t' && t'[j] == t[j] {
      assert j in FamilyRows(t, f);
      RevokedRowStays(s, e, j);
    }
    forall j | j in t' && t'[j].familyId == f ensures j in t && t[j].familyId == f {
      DeadFamilyGainsNothing(s, e, f, member, j);
    }
  }

  /** A family with no active token never gains one, nor any new token: it is frozen. */
  lemma {:induction false} DeadFamilyStaysDead(r: Run, i: nat, k: nat, f: Family)
    requires ValidRun(r) && i <= k < |r.states|
    requires FamilyRows(r.states[i].table, f) != map[] && NoneActive(FamilyRows(r.states[i].table, f))
    ensures FamilyRows(r.states[k].table, f) == FamilyRows(r.states[i].table, f)
    decreases k
  {
    if i == k {
    } else {
      DeadFamilyStaysDead(r, i, k - 1, f);
      RunKeepsInv(r, k - 1);
      DeadFamilyStep(r.states[k - 1], r.events[k - 1], f);
    }
  }

  /**
   Presenting a revoked token, whatever revoked it, is answered as reuse exactly
   while its signature is unexpired, and then the family is dead for the rest of
   the run.  An expired replay is refused before the table is consulted and
   leaves everything as it was.
   */
  lemma RevokedReplay(r: Run, k: nat, m: nat, jwt: Jwt)
    requires ValidRun(r) && k < m < |r.states| && k < |r.events| && r.events[k].request == Refresh(Signed(jwt))
    requires jwt.jti in r.states[k].table && r.states[k].table[jwt.jti].revokedAt.Some?
    ensures ReplyAt(r, k) == Refused(ReuseDetected) <==> r.events[k].now < jwt.exp
    ensures r.events[k].now < jwt.exp ==> NoneActive(FamilyRows(r.states[m].table, jwt.fam))
    ensures r.events[k].now >= jwt.exp ==> r.states[k + 1] == r.states[k]
  {
    assert Legal(r.states[k], r.events[k]);
    RunKeepsInv(r, k);
    if r.events[k].now < jwt.exp {
      var rows := FamilyRows(r.states[k + 1].table, jwt.fam);
      assert jwt.jti in rows;
      DeadFamilyStaysDead(r, k + 1, m, jwt.fam);
    }
  }

  /** In particular after the token bought a successor. */
  lemma ReplayKillsFamilyForever(r: Run, i: nat, k: nat, m: nat, jwt: Jwt)
    requires ValidRun(r) && i < k < m < |r.states| && k < |r.events|
    requires Accepts(r, i, jwt.jti) && r.events[k].request == Refresh(Signed(jwt))
    ensures ReplyAt(r, k) == Refused(ReuseDetected) <==> r.events[k].now < jwt.exp
    ensures r.events[k].now < jwt.exp ==> NoneActive(FamilyRows(r.states[m].table, jwt.fam))
    ensures r.events[k].now >= jwt.exp ==> r.states[k + 1] == r.states[k]
  {
    assert Legal(r.states[i], r.events[i]);
    RevokedRowsAreFrozen(r, i + 1, k, jwt.jti);
    RevokedReplay(r, k, m, jwt);
  }

  lemma Extend(r: Run, e: Event) returns (r': Run)
    requires ValidRun(r) && Legal(Last(r.states), e)
    ensures ValidRun(r') && Last(r'.states) == Serve(Last(r.states), e).server
    ensures r'.events == r.events + [e] && r'.states[..|r.states|] == r.states
  {
    r' := Run(r.states + [Serve(Last(r.states), e).server], r.events + [e]);
  }

  /** A registration, and a refresh just before the first token expires. */
  lemma ExchangedLate(user: UserId) returns (r: Run, jwt: Jwt, next: Jwt)
    ensures ValidRun(r) && |r.events| == 2 && Accepts(r, 1, jwt.jti)
    ensures jwt == Jwt("a", user, "f", LIFETIME) && next == Jwt("b", user, "f", 2 * LIFETIME - 1)
    ensures Last(r.states).users == map[user := true] && Last(r.states).table.Keys == {"a", "b"}
    ensures Last(r.states).table["a"] == Row(user, "f", LIFETIME, Some(LIFETIME - 1), Some("b"))
    ensures Last(r.states).table["b"] == Row(user, "f", 2 * LIFETIME - 1, None, None)
    ensures Last(r.states).signed == {jwt, next}
  {
    jwt, next := Jwt("a", user, "f", LIFETIME), Jwt("b", user, "f", 2 * LIFETIME - 1);
    r := Run([EMPTY_SERVER], []);
    r := Extend(r, Event(Register(user), 0, "a", "f"));
    var s1 := Last(r.states);
    assert s1 == Server(map[user := true], map["a" := Row(user, "f", LIFETIME, None, None)], {jwt});
    r := Extend(r, Event(Refresh(Signed(jwt)), LIFETIME - 1, "b", "g"));
    assert r.states[1] == s1;
  }

  /** A late replay leaves the session alive: event 2 replays the token that event 1 exchanged, event 3 still works. */
  lemma ExpiredReplaySpares(user: UserId) returns (r: Run, jwt: Jwt)
    ensures ValidRun(r) && |r.events| == 4
    ensures Accepts(r, 1, jwt.jti) && r.events[2].request == Refresh(Signed(jwt))
    ensures ReplyAt(r, 2) == Refused(TokenExpired) && !NoneActive(FamilyRows(r.states[3].table, jwt.fam))
    ensures ReplyAt(r, 3).Issued? && ReplyAt(r, 3).jwt.fam == jwt.fam
  {
    var next;
    r, jwt, next := ExchangedLate(user);
    var s1, s2 := r.states[1], Last(r.states);
    r := Extend(r, Event(Refresh(Signed(jwt)), LIFETIME, "c", "g"));
    assert Last(r.states) == s2 && "b" in FamilyRows(s2.table, "f");
    r := Extend(r, Event(Refresh(Signed(next)), LIFETIME, "c", "g"));
    assert r.states[1] == s1 && r.states[2] == s2 && r.states[3] == s2;
  }

  /** A completed password reset ends every session the account had. */
  lemma ResetEndsEverySession(r: Run, i: nat, m: nat, user: UserId, j: Jti)
    requires ValidRun(r) && i < m < |r.states| && i < |r.events|
    requires r.events[i].request == ResetPassword(Some(user)) && ReplyAt(r, i) == Done
    requires j in r.states[i].table && r.states[i].table[j].userId == user
    ensures NoneActive(FamilyRows(r.states[m].table, r.states[i].table[j].familyId))
  {
    var f := r.states[i].table[j].familyId;
    var chain := FamilyIsOneChain(r, i, f);
    var rows := FamilyRows(r.states[i + 1].table, f);
    assert j in rows && j in FamilyRows(r.states[i].table, f);
    forall x | x in rows ensures rows[x].revokedAt.Some? {
      assert x in FamilyRows(r.states[i].table, f);
    }
    DeadFamilyStaysDead(r, i + 1, m, f);
  }

  /** Logging out with the family's active token ends that session. */
  lemma LogoutEndsSession(r: Run, i: nat, m: nat, jwt: Jwt)
    requires ValidRun(r) && i < m < |r.states| && i < |r.events|
    requires r.events[i].request == Logout(Some(Signed(jwt))) && r.events[i].now < jwt.exp
    requires Active(r.states[i].table, jwt.jti)
    ensures NoneActive(FamilyRows(r.states[m].table, jwt.fam))
  {
    var t := r.states[i].table;
    assert Legal(r.states[i], r.events[i]);
    RunKeepsInv(r, i);
    var chain := FamilyIsOneChain(r, i, jwt.fam);
    var rows := FamilyRows(r.states[i + 1].table, jwt.fam);
    assert jwt.jti in rows;
    forall x | x in rows ensures rows[x].revokedAt.Some? {
      if x != jwt.jti { assert !Active(t, x); }
    }
    DeadFamilyStaysDead(r, i + 1, m, jwt.fam);
  }

  // ---------------------------------------------------------------- sessions do not disturb each other

  /** The family a request is about, or the account whose families it resets. */
  ghost predicate Touches(s: Server, q: Request, f: Family) {
    match q
    case Refresh(Signed(jwt)) => jwt.fam == f
    case Logout(Some(Signed(jwt))) => jwt.fam == f
    case ResetPassword(Some(user)) => exists j :: j in FamilyRows(s.table, f) && s.table[j].userId == user
    case _ => false
  }

  lemma OtherRowsStay(s: Server, e: Event, f: Family, j: Jti)
    requires Inv(s) && Legal(s, e) && !Touches(s, e.request, f) && j in s.table && s.table[j].familyId == f
    ensures j in Serve(s, e).server.table && Serve(s, e).server.table[j] == s.table[j]
  {
    assert j in FamilyRows(s.table, f);
  }

  lemma NoOtherRows(s: Server, e: Event, f: Family, j: Jti)
    requires Inv(s) && Legal(s, e) && !Touches(s, e.request, f) && f != e.newFamily
    requires j in Serve(s, e).server.table && Serve(s, e).server.table[j].familyId == f
    ensures j in s.table && s.table[j].familyId == f
  {
  }

  /** A request about another session leaves a family's rows exactly as they were. */
  lemma OtherSessionsUntouched(s: Server, e: Event, f: Family)
    requires Inv(s) && Legal(s, e) && !Touches(s, e.request, f) && f != e.newFamily
    ensures FamilyRows(Serve(s, e).server.table, f) == FamilyRows(s.table, f)
  {
    var t, t' := s.table, Serve(s, e).server.table;
    forall j | j in t && t[j].familyId == f ensures j in t' && t'[j] == t[j] {
      OtherRowsStay(s, e, f, j);
    }
    forall j | j in t' && t'[j].familyId == f ensures j in t && t[j].familyId == f {
      NoOtherRows(s, e, f, j);
    }
  }
}
