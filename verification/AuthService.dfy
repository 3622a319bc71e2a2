/** The service and its token rows as objects updated in place, proved against `Serve`. */
module AuthService {
  import opened Prelude
  import opened RefreshTokens

  class TokenRecord {
    const userId: UserId
    const familyId: Family
    const expiresAt: Time
    var revokedAt: Option<Time>
    var replacedBy: Option<Jti>

    constructor (userId: UserId, familyId: Family, expiresAt: Time)
      ensures this.userId == userId && this.familyId == familyId && this.expiresAt == expiresAt
      ensures revokedAt == None && replacedBy == None
    {
      this.userId, this.familyId, this.expiresAt := userId, familyId, expiresAt;
      revokedAt, replacedBy := None, None;
    }

    function Row(): Row
      reads this
    {
      RefreshTokens.Row(userId, familyId, expiresAt, revokedAt, replacedBy)
    }
  }

  class Service {
    var users: map<UserId, bool>
    var records: map<Jti, TokenRecord>
    ghost var signed: set<Jwt>

    ghost predicate Valid()
      reads this
    {
      forall i, j :: i in records && j in records && records[i] == records[j] ==> i == j
    }

    ghost function Rows(): Table
      reads this, records.Values
    {
      map j | j in records :: records[j].Row()
    }

    /** The abstract server this object implements. */
    ghost function State(): Server
      reads this, records.Values
    {
      Server(users, Rows(), signed)
    }

    constructor ()
      ensures Valid() && State() == EMPTY_SERVER
    {
      users, records, signed := map[], map[], {};
    }

    // ------------------------------------------------------------ repository

    method Revoke(jti: Jti, now: Time, successor: Option<Jti>)
      requires Valid() && jti in records
      modifies records[jti]
      ensures Rows() == old(Rows())[jti := Revoked(old(Rows())[jti], now, successor)]
    {
      records[jti].revokedAt := Some(now);
      records[jti].replacedBy := successor;
    }

    method RevokeActiveInFamily(family: Family, now: Time)
      requires Valid()
      modifies records.Values
      ensures Rows() == RevokeFamily(old(Rows()), family, now)
    {
      forall j | j in records && records[j].familyId == family && records[j].revokedAt.None? {
        records[j].revokedAt := Some(now);
      }
    }

    method RevokeActiveForUser(user: UserId, now: Time)
      requires Valid()
      modifies records.Values
      ensures Rows() == RevokeAllForUser(old(Rows()), user, now)
    {
      forall j | j in records && records[j].userId == user && records[j].revokedAt.None? {
        records[j].revokedAt := Some(now);
      }
    }

    // ------------------------------------------------------------ requests

    method IssueToken(user: UserId, family: Family, jti: Jti, now: Time) returns (jwt: Jwt)
      requires Valid() && jti !in records
      modifies this
      ensures Valid() && State() == Issue(old(State()), user, family, jti, now)
      ensures records.Keys == old(records.Keys) + {jti}
      ensures forall j :: j in old(records) ==> records[j] == old(records[j])
      ensures fresh(records[jti])
      ensures jwt == Jwt(jti, user, family, now + LIFETIME)
    {
      jwt := Jwt(jti, user, family, now + LIFETIME);
      var record := new TokenRecord(user, family, now + LIFETIME);
      records := records[jti := record];
      signed := signed + {jwt};
    }

    method SignIn(user: UserId, e: Event) returns (reply: Reply)
      requires Valid() && e.newJti !in records
      modifies this
      ensures Valid() && Outcome(State(), reply) == RefreshTokens.SignIn(old(State()), user, e)
    {
      var jwt := IssueToken(user, e.newFamily, e.newJti, e.now);
      reply := Issued(jwt);
    }

    method Register(user: UserId, e: Event) returns (reply: Reply)
      requires Valid() && e.newJti !in records && e.request == RefreshTokens.Register(user)
      modifies this
      ensures Valid() && Outcome(State(), reply) == Serve(old(State()), e)
    {
      if user in users {
        return Refused(Conflict);
      }
      users := users[user := true];
      reply := SignIn(user, e);
    }

    method Login(found: Option<UserId>, passwordMatches: bool, e: Event) returns (reply: Reply)
      requires Valid() && e.newJti !in records && e.request == RefreshTokens.Login(found, passwordMatches)
      modifies this
      ensures Valid() && Outcome(State(), reply) == Serve(old(State()), e)
    {
      if found.None? || found.value !in users {
        return Refused(BadCredentials);
      }
      if !passwordMatches {
        return Refused(BadCredentials);
      }
      if !users[found.value] {
        return Refused(Disabled);
      }
      reply := SignIn(found.value, e);
    }

    method AuthenticateGoogle(user: UserId, e: Event) returns (reply: Reply)
      requires Valid() && e.newJti !in records && e.request == GoogleSignIn(user)
      modifies this
      ensures Valid() && Outcome(State(), reply) == Serve(old(State()), e)
    {
      if user !in users {
        users := users[user := true];
      }
      if !users[user] {
        return Refused(Disabled);
      }
      reply := SignIn(user, e);
    }

    method Refresh(token: Presented, e: Event) returns (reply: Reply)
      requires Valid() && e.newJti !in records && e.request == RefreshTokens.Refresh(token)
      modifies this, records.Values
      ensures Valid() && Outcome(State(), reply) == Serve(old(State()), e)
    {
      var decoded := Decode(token, e.now);
      if decoded.Refused? {
        return decoded;
      }
      var jwt := token.jwt;
      if jwt.jti !in records {
        return Refused(UnknownToken);
      }
      var record := records[jwt.jti];
      if record.revokedAt.Some? {
        RevokeActiveInFamily(record.familyId, e.now);
        return Refused(ReuseDetected);
      }
      if record.expiresAt < e.now {
        return Refused(TokenExpired);
      }
      if jwt.sub !in users || !users[jwt.sub] {
        return Refused(InactiveUser);
      }
      var successor := IssueToken(jwt.sub, record.familyId, e.newJti, e.now);
      Revoke(jwt.jti, e.now, Some(successor.jti));
      reply := Issued(successor);
    }

    method ResetPassword(subject: Option<UserId>, e: Event) returns (reply: Reply)
      requires Valid() && e.request == RefreshTokens.ResetPassword(subject)
      modifies records.Values
      ensures Valid() && Outcome(State(), reply) == Serve(old(State()), e)
    {
      if subject.None? || subject.value !in users || !users[subject.value] {
        return Refused(InvalidResetToken);
      }
      RevokeActiveForUser(subject.value, e.now);
      reply := Done;
    }

    method Logout(cookie: Option<Presented>, e: Event) returns (reply: Reply)
      requires Valid() && e.request == RefreshTokens.Logout(cookie)
      modifies records.Values
      ensures Valid() && Outcome(State(), reply) == Serve(old(State()), e)
    {
      reply := Done;
      if cookie.None? {
        return;
      }
      var decoded := Decode(cookie.value, e.now);
      if decoded.Refused? {
        return;
      }
      var jti := decoded.jwt.jti;
      if jti in records && records[jti].revokedAt.None? {
        Revoke(jti, e.now, None);
      }
    }
  }
}
