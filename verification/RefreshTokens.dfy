/**
 The refresh-token table and the requests that change it, on values.

 A sign-in starts a token family; a refresh revokes the presented token and
 appends a successor to the same family; presenting a revoked token revokes the
 family (section 5.2.2.3 of RFC 6819, section 4.14.2 of RFC 9700).  Each request
 is one atomic transaction.
 */
module RefreshTokens {
  import opened Prelude

  type UserId = string
  type Jti = string
  type Family = string
  type Time = int

  const LIFETIME: Time := 30 * 24 * 3600

  datatype Row = Row(
    userId: UserId,
    familyId: Family,
    expiresAt: Time,
    revokedAt: Option<Time>,
    replacedBy: Option<Jti>)

  type Table = map<Jti, Row>

  /** The claims of a signed refresh token. */
  datatype Jwt = Jwt(jti: Jti, sub: UserId, fam: Family, exp: Time)

  /** What a caller hands in: bytes that fail the signature or type check, or a signed token. */
  datatype Presented = Invalid | Signed(jwt: Jwt)

  /** `users` maps each account to its is_active flag; `signed` is every refresh token ever signed. */
  datatype Server = Server(users: map<UserId, bool>, table: Table, signed: set<Jwt>)

  datatype Reason =
    | InvalidToken | TokenExpired | UnknownToken | ReuseDetected | InactiveUser
    | BadCredentials | Disabled | Conflict | InvalidResetToken

  datatype Reply = Issued(jwt: Jwt) | Done | Refused(reason: Reason)

  datatype Request =
    | Register(newUser: UserId)
    | Login(found: Option<UserId>, passwordMatches: bool)
    | GoogleSignIn(googleUser: UserId)
    | Refresh(token: Presented)
    | Logout(cookie: Option<Presented>)
    | ResetPassword(subject: Option<UserId>)
    | SetActive(account: UserId, active: bool)

  /** A request together with the clock reading and the random ids it draws. */
  datatype Event = Event(request: Request, now: Time, newJti: Jti, newFamily: Family)

  datatype Outcome = Outcome(server: Server, reply: Reply)

  const EMPTY_SERVER := Server(map[], map[], {})

  // ---------------------------------------------------------------- requests

  function Decode(p: Presented, now: Time): Reply {
    match p
    case Invalid => Refused(InvalidToken)
    case Signed(jwt) => if jwt.exp <= now then Refused(TokenExpired) else Issued(jwt)
  }

  predicate Usable(s: Server, user: UserId) {
    user in s.users && s.users[user]
  }

  function Revoked(row: Row, now: Time, successor: Option<Jti>): Row {
    row.(revokedAt := Some(now), replacedBy := successor)
  }

  /** Sign a token for `user` in family `fam` and store its row. */
  function Issue(s: Server, user: UserId, fam: Family, jti: Jti, now: Time): Server {
    s.(table := s.table[jti := Row(user, fam, now + LIFETIME, None, None)],
       signed := s.signed + {Jwt(jti, user, fam, now + LIFETIME)})
  }

  function SignIn(s: Server, user: UserId, e: Event): Outcome {
    Outcome(Issue(s, user, e.newFamily, e.newJti, e.now),
            Issued(Jwt(e.newJti, user, e.newFamily, e.now + LIFETIME)))
  }

  function RevokeFamily(t: Table, fam: Family, now: Time): Table {
    map j | j in t ::
      if t[j].familyId == fam && t[j].revokedAt.None? then t[j].(revokedAt := Some(now)) else t[j]
  }

  function RevokeAllForUser(t: Table, user: UserId, now: Time): Table {
    map j | j in t ::
      if t[j].userId == user && t[j].revokedAt.None? then t[j].(revokedAt := Some(now)) else t[j]
  }

  function Rotate(s: Server, jwt: Jwt, e: Event): Outcome
    requires jwt.jti in s.table
  {
    var fam := s.table[jwt.jti].familyId;
    var issued := Issue(s, jwt.sub, fam, e.newJti, e.now);
    Outcome(issued.(table := issued.table[jwt.jti := Revoked(issued.table[jwt.jti], e.now, Some(e.newJti))]),
            Issued(Jwt(e.newJti, jwt.sub, fam, e.now + LIFETIME)))
  }

  function ServeRefresh(s: Server, p: Presented, e: Event): Outcome {
    var decoded := Decode(p, e.now);
    if decoded.Refused? then Outcome(s, decoded)
    else
      var jwt := p.jwt;
      if jwt.jti !in s.table then Outcome(s, Refused(UnknownToken))
      else
        var row := s.table[jwt.jti];
        if row.revokedAt.Some? then
          Outcome(s.(table := RevokeFamily(s.table, row.familyId, e.now)), Refused(ReuseDetected))
        else if row.expiresAt < e.now then Outcome(s, Refused(TokenExpired))
        else if !Usable(s, jwt.sub) then Outcome(s, Refused(InactiveUser))
        else Rotate(s, jwt, e)
  }

  function ServeLogout(s: Server, cookie: Option<Presented>, now: Time): Server {
    if cookie.None? || Decode(cookie.value, now).Refused? then s
    else
      var jti := cookie.value.jwt.jti;
      if jti in s.table && s.table[jti].revokedAt.None? then
        s.(table := s.table[jti := Revoked(s.table[jti], now, None)])
      else s
  }

  function Serve(s: Server, e: Event): Outcome {
    match e.request
    case Register(user) =>
      if user in s.users then Outcome(s, Refused(Conflict))
      else SignIn(s.(users := s.users[user := true]), user, e)
    case Login(found, passwordMatches) =>
      if found.None? || found.value !in s.users || !passwordMatches then Outcome(s, Refused(BadCredentials))
      else if !s.users[found.value] then Outcome(s, Refused(Disabled))
      else SignIn(s, found.value, e)
    case GoogleSignIn(user) =>
      if user !in s.users then SignIn(s.(users := s.users[user := true]), user, e)
      else if !s.users[user] then Outcome(s, Refused(Disabled))
      else SignIn(s, user, e)
    case Refresh(p) => ServeRefresh(s, p, e)
    case Logout(cookie) => Outcome(ServeLogout(s, cookie, e.now), Done)
    case ResetPassword(subject) =>
      if subject.None? || !Usable(s, subject.value) then Outcome(s, Refused(InvalidResetToken))
      else Outcome(s.(table := RevokeAllForUser(s.table, subject.value, e.now)), Done)
    case SetActive(user, active) =>
      Outcome(if user in s.users then s.(users := s.users[user := active]) else s, Done)
  }

  // ---------------------------------------------------------------- assumptions

  /** Random ids are new: the jti names no row and the family id names no family. */
  ghost predicate FreshIds(s: Server, e: Event) {
    e.newJti !in s.table && forall j :: j in s.table ==> s.table[j].familyId != e.newFamily
  }

  /** Signatures cannot be forged: a token that passes the check was signed here. */
  ghost predicate Genuine(s: Server, p: Presented) {
    p.Signed? ==> p.jwt in s.signed
  }

  ghost predicate Legal(s: Server, e: Event) {
    FreshIds(s, e) &&
    (e.request.Refresh? ==> Genuine(s, e.request.token)) &&
    (e.request.Logout? && e.request.cookie.Some? ==> Genuine(s, e.request.cookie.value))
  }

  // ---------------------------------------------------------------- invariant

  predicate Active(t: Table, j: Jti) {
    j in t && t[j].revokedAt.None?
  }

  /** Every signed token has its row, and the row agrees with the claims. */
  ghost predicate SignedRowsAgree(s: Server) {
    forall w :: w in s.signed ==>
      w.jti in s.table && s.table[w.jti].userId == w.sub && s.table[w.jti].familyId == w.fam &&
      s.table[w.jti].expiresAt == w.exp
  }

  /** `c` lists family `f` oldest first; each token but the last is revoked and points to the next. */
  ghost predicate IsChain(t: Table, f: Family, c: seq<Jti>) {
    (forall j :: j in c <==> j in t && t[j].familyId == f) &&
    Distinct(c) &&
    (forall i, k :: 0 <= i < |c| && 0 <= k < |c| ==> t[c[i]].userId == t[c[k]].userId) &&
    (forall i :: 0 <= i < |c| - 1 ==> t[c[i]].revokedAt.Some? && t[c[i]].replacedBy == Some(c[i + 1])) &&
    (c != [] ==> t[Last(c)].replacedBy == None)
  }

  ghost predicate HasChain(t: Table, f: Family) {
    exists c :: IsChain(t, f, c)
  }

  ghost predicate AllChains(t: Table) {
    forall f :: HasChain(t, f)
  }

  ghost predicate Inv(s: Server) {
    SignedRowsAgree(s) && AllChains(s.table)
  }

  /** `t'` differs from `t` only in that some active rows became revoked. */
  ghost predicate OnlyRevokes(t: Table, t': Table) {
    t'.Keys == t.Keys &&
    forall j :: j in t ==>
      t'[j] == t[j] || (t[j].revokedAt.None? && t'[j] == t[j].(revokedAt := t'[j].revokedAt) && t'[j].revokedAt.Some?)
  }

  lemma OnlyRevokesKeepsChain(t: Table, t': Table, f: Family)
    requires HasChain(t, f) && OnlyRevokes(t, t')
    ensures HasChain(t', f)
  {
    var c :| IsChain(t, f, c);
    assert forall i :: 0 <= i < |c| ==> c[i] in c;
    assert IsChain(t', f, c);
  }

  lemma OnlyRevokesKeepsChains(t: Table, t': Table)
    requires AllChains(t) && OnlyRevokes(t, t')
    ensures AllChains(t')
  {
    forall f ensures HasChain(t', f) {
      OnlyRevokesKeepsChain(t, t', f);
    }
  }

  /** Rows of other families do not matter to a chain. */
  lemma SameFamilyKeepsChain(t: Table, t': Table, f: Family, c: seq<Jti>)
    requires IsChain(t, f, c)
    requires forall j :: j in t && t[j].familyId == f ==> j in t' && t'[j] == t[j]
    requires forall j :: j in t' && t'[j].familyId == f ==> j in t
    requires forall j :: j in t && j in t' ==> t[j].familyId == t'[j].familyId
    ensures IsChain(t', f, c)
  {
    assert forall i :: 0 <= i < |c| ==> c[i] in c;
  }

  lemma ActiveIsLast(t: Table, f: Family, c: seq<Jti>, j: Jti)
    requires IsChain(t, f, c) && Active(t, j) && t[j].familyId == f
    ensures c != [] && Last(c) == j && t[j].replacedBy == None
  {
    assert j in c;
  }

  lemma SignInKeepsInv(s: Server, user: UserId, e: Event)
    requires Inv(s) && FreshIds(s, e)
    ensures Inv(SignIn(s, user, e).server)
  {
    var s' := SignIn(s, user, e).server;
    forall f ensures HasChain(s'.table, f) {
      assert HasChain(s.table, f);
      var c :| IsChain(s.table, f, c);
      if f == e.newFamily {
        assert IsChain(s'.table, f, [e.newJti]);
      } else {
        SameFamilyKeepsChain(s.table, s'.table, f, c);
      }
    }
  }

  /** `t'` is `t` with the last token of `c` revoked in favour of a new one. */
  ghost predicate Replaces(t: Table, t': Table, f: Family, c: seq<Jti>, added: Jti) {
    c != [] && Last(c) in t && added !in t && t'.Keys == t.Keys + {added} &&
    (forall j :: j in t && j != Last(c) ==> t'[j] == t[j]) &&
    t'[Last(c)].familyId == f && t'[Last(c)].userId == t[Last(c)].userId &&
    t'[Last(c)].revokedAt.Some? && t'[Last(c)].replacedBy == Some(added) &&
    t'[added].familyId == f && t'[added].userId == t[Last(c)].userId && t'[added].replacedBy == None
  }

  lemma EarlierTokensStay(t: Table, t': Table, f: Family, c: seq<Jti>, added: Jti)
    requires IsChain(t, f, c) && Replaces(t, t', f, c, added)
    ensures forall i :: 0 <= i < |c| ==> c[i] in t && c[i] in t' && c[i] != added
    ensures forall i :: 0 <= i < |c| - 1 ==> t'[c[i]] == t[c[i]]
    ensures forall i :: 0 <= i < |c| ==> t'[c[i]].userId == t[Last(c)].userId
  {
    assert forall i :: 0 <= i < |c| ==> c[i] in c;
    forall i | 0 <= i < |c| ensures t'[c[i]].userId == t[Last(c)].userId {
      assert t[c[i]].userId == t[c[|c| - 1]].userId;
    }
  }

  lemma NewTokenIsMember(t: Table, t': Table, f: Family, c: seq<Jti>, added: Jti)
    requires IsChain(t, f, c) && Replaces(t, t', f, c, added)
    ensures forall j :: j in c + [added] <==> j in t' && t'[j].familyId == f
  {
    forall j ensures j in c + [added] <==> j in t' && t'[j].familyId == f {
      assert j in c + [added] <==> j in c || j == added;
      assert Last(c) in c;
    }
  }

  lemma NewTokenIsLinked(t: Table, t': Table, f: Family, c: seq<Jti>, added: Jti)
    requires IsChain(t, f, c) && Replaces(t, t', f, c, added)
    ensures var c' := c + [added];
            Distinct(c') && forall i :: 0 <= i < |c'| - 1 ==>
              c'[i] in t' && t'[c'[i]].revokedAt.Some? && t'[c'[i]].replacedBy == Some(c'[i + 1])
  {
    EarlierTokensStay(t, t', f, c, added);
    var c' := c + [added];
    forall i | 0 <= i < |c'| - 1
      ensures c'[i] in t' && t'[c'[i]].revokedAt.Some? && t'[c'[i]].replacedBy == Some(c'[i + 1])
    {
      assert c'[i] == c[i];
    }
  }

  lemma NewTokenHasUser(t: Table, t': Table, f: Family, c: seq<Jti>, added: Jti)
    requires IsChain(t, f, c) && Replaces(t, t', f, c, added)
    ensures var c' := c + [added];
            forall i :: 0 <= i < |c'| ==> c'[i] in t' && t'[c'[i]].userId == t[Last(c)].userId
  {
    EarlierTokensStay(t, t', f, c, added);
  }

  /** A revoked last token that points to a new one. */
  lemma NewTokenExtendsChain(t: Table, t': Table, f: Family, c: seq<Jti>, added: Jti)
    requires IsChain(t, f, c) && Replaces(t, t', f, c, added)
    ensures IsChain(t', f, c + [added])
  {
    NewTokenIsMember(t, t', f, c, added);
    NewTokenIsLinked(t, t', f, c, added);
    NewTokenHasUser(t, t', f, c, added);
  }

  lemma RotateExtendsChain(s: Server, jwt: Jwt, e: Event, c: seq<Jti>)
    requires SignedRowsAgree(s) && jwt in s.signed && e.newJti !in s.table
    requires Active(s.table, jwt.jti) && IsChain(s.table, jwt.fam, c)
    ensures IsChain(Rotate(s, jwt, e).server.table, jwt.fam, c + [e.newJti])
  {
    ActiveIsLast(s.table, jwt.fam, c, jwt.jti);
    NewTokenExtendsChain(s.table, Rotate(s, jwt, e).server.table, jwt.fam, c, e.newJti);
  }

  lemma RotateKeepsInv(s: Server, jwt: Jwt, e: Event)
    requires Inv(s) && FreshIds(s, e) && jwt in s.signed && Active(s.table, jwt.jti)
    ensures Inv(Rotate(s, jwt, e).server)
  {
    var s' := Rotate(s, jwt, e).server;
    forall f ensures HasChain(s'.table, f) {
      assert HasChain(s.table, f);
      var c :| IsChain(s.table, f, c);
      if f == jwt.fam {
        RotateExtendsChain(s, jwt, e, c);
      } else {
        SameFamilyKeepsChain(s.table, s'.table, f, c);
      }
    }
  }

  lemma LogoutKeepsInv(s: Server, cookie: Option<Presented>, now: Time)
    requires Inv(s) && (cookie.Some? ==> Genuine(s, cookie.value))
    ensures Inv(ServeLogout(s, cookie, now))
  {
    var s' := ServeLogout(s, cookie, now);
    if s' != s {
      var jti := cookie.value.jwt.jti;
      assert HasChain(s.table, s.table[jti].familyId);
      var c :| IsChain(s.table, s.table[jti].familyId, c);
      ActiveIsLast(s.table, s.table[jti].familyId, c, jti);
    }
    OnlyRevokesKeepsChains(s.table, s'.table);
  }

  lemma ServeKeepsInv(s: Server, e: Event)
    requires Inv(s) && Legal(s, e)
    ensures Inv(Serve(s, e).server)
  {
    var s' := Serve(s, e).server;
    match e.request
    case Register(user) => SignInKeepsInv(s.(users := s.users[user := true]), user, e);
    case Login(found, _) => if found.Some? { SignInKeepsInv(s, found.value, e); }
    case GoogleSignIn(user) =>
      SignInKeepsInv(s, user, e);
      SignInKeepsInv(s.(users := s.users[user := true]), user, e);
    case Refresh(p) =>
      if Serve(s, e).reply.Issued? {
        RotateKeepsInv(s, p.jwt, e);
      } else {
        OnlyRevokesKeepsChains(s.table, s'.table);
      }
    case Logout(cookie) => LogoutKeepsInv(s, cookie, e.now);
    case ResetPassword(_) => OnlyRevokesKeepsChains(s.table, s'.table);
    case SetActive(_, _) =>
  }
}
