/** Organizations and their members: roles over any run of requests. */
module Memberships {
  import opened Prelude

  type OrgId = nat
  type UserId = nat

  datatype Role = Owner | Admin | Manager | Analyst | Viewer

  function Rank(r: Role): nat {
    match r
    case Viewer => 10
    case Analyst => 20
    case Manager => 30
    case Admin => 40
    case Owner => 50
  }

  datatype Member = Member(org: OrgId, user: UserId, role: Role)

  /** The organizations with their `owner_id`, the membership rows, and the registered users by email. */
  datatype Tenancy = Tenancy(owners: map<OrgId, UserId>, rows: seq<Member>, accounts: map<string, UserId>)

  /** A request names its authenticated caller; the id of a new organization is drawn outside. */
  datatype Request =
    | Create(caller: UserId, org: OrgId)
    | Add(caller: UserId, org: OrgId, email: string, role: Role)
    | Update(caller: UserId, org: OrgId, target: UserId, role: Role)
    | Remove(caller: UserId, org: OrgId, target: UserId)

  datatype Outcome = Done | Forbidden | NotFound | Conflict

  // ---------------------------------------------------------------- rows

  predicate Matches(m: Member, org: OrgId, user: UserId) {
    m.org == org && m.user == user
  }

  /** The first row of a user in an organization. */
  function Find(rows: seq<Member>, org: OrgId, user: UserId): (at: Option<nat>)
    ensures at.Some? ==> at.value < |rows| && Matches(rows[at.value], org, user)
    ensures at.None? ==> forall i :: 0 <= i < |rows| ==> !Matches(rows[i], org, user)
  {
    if rows == [] then None
    else
      var front := Find(rows[..|rows| - 1], org, user);
      if front.Some? then front
      else if Matches(Last(rows), org, user) then Some(|rows| - 1)
      else None
  }

  function RoleOf(rows: seq<Member>, org: OrgId, user: UserId): Option<Role> {
    var at := Find(rows, org, user);
    if at.Some? then Some(rows[at.value].role) else None
  }

  // ---------------------------------------------------------------- requests

  function ServeCreate(t: Tenancy, caller: UserId, org: OrgId): Tenancy {
    t.(owners := t.owners[org := caller], rows := t.rows + [Member(org, caller, Owner)])
  }

  function ServeAdd(t: Tenancy, actor: Role, org: OrgId, email: string, role: Role): (Tenancy, Outcome) {
    if Rank(actor) < Rank(Admin) || Rank(role) >= Rank(actor) then (t, Forbidden)
    else if email !in t.accounts then (t, NotFound)
    else if Find(t.rows, org, t.accounts[email]).Some? then (t, Conflict)
    else (t.(rows := t.rows + [Member(org, t.accounts[email], role)]), Done)
  }

  function ServeUpdate(t: Tenancy, actor: Role, org: OrgId, target: UserId, role: Role): (Tenancy, Outcome) {
    if Rank(actor) < Rank(Admin) then (t, Forbidden)
    else
      match Find(t.rows, org, target)
      case None => (t, NotFound)
      case Some(i) =>
        if t.rows[i].role == Owner || Rank(role) >= Rank(actor) then (t, Forbidden)
        else (t.(rows := t.rows[i := t.rows[i].(role := role)]), Done)
  }

  function ServeRemove(t: Tenancy, actor: Role, org: OrgId, target: UserId): (Tenancy, Outcome) {
    if Rank(actor) < Rank(Admin) then (t, Forbidden)
    else
      match Find(t.rows, org, target)
      case None => (t, NotFound)
      case Some(i) =>
        if t.rows[i].role == Owner then (t, Forbidden)
        else (t.(rows := t.rows[..i] + t.rows[i + 1..]), Done)
  }

  /** Every request but the creation of an organization acts with the caller's own membership in it. */
  function Serve(t: Tenancy, r: Request): (Tenancy, Outcome) {
    if r.Create? then (ServeCreate(t, r.caller, r.org), Done)
    else
      match RoleOf(t.rows, r.org, r.caller)
      case None => (t, Forbidden)
      case Some(actor) =>
        if Rank(actor) < Rank(Admin) then (t, Forbidden)
        else if r.Add? then ServeAdd(t, actor, r.org, r.email, r.role)
        else if r.Update? then ServeUpdate(t, actor, r.org, r.target, r.role)
        else ServeRemove(t, actor, r.org, r.target)
  }

  /** New organizations get ids that were never used. */
  predicate Legal(t: Tenancy, r: Request) {
    r.Create? ==> r.org !in t.owners
  }

  function Run(t: Tenancy, rs: seq<Request>): Tenancy {
    if rs == [] then t else Serve(Run(t, rs[..|rs| - 1]), Last(rs)).0
  }

  predicate LegalRun(t: Tenancy, rs: seq<Request>) {
    rs != [] ==> LegalRun(t, rs[..|rs| - 1]) && Legal(Run(t, rs[..|rs| - 1]), Last(rs))
  }

  // ---------------------------------------------------------------- the invariant

  ghost predicate OneRowEach(rows: seq<Member>) {
    forall i, j :: 0 <= i < j < |rows| ==> !Matches(rows[j], rows[i].org, rows[i].user)
  }

  /** A role is held in an organization that exists, and it is the owner's role exactly for the owner. */
  ghost predicate RightRole(t: Tenancy, org: OrgId, user: UserId) {
    (RoleOf(t.rows, org, user).Some? ==> org in t.owners) &&
    (org in t.owners ==> (RoleOf(t.rows, org, user) == Some(Owner) <==> user == t.owners[org]))
  }

  /** A user has one row per organization; the owner's row, and no other, says so. */
  ghost predicate Inv(t: Tenancy) {
    OneRowEach(t.rows) && forall org, user :: RightRole(t, org, user)
  }

  lemma RowIsRole(rows: seq<Member>, i: nat)
    requires OneRowEach(rows) && i < |rows|
    ensures RoleOf(rows, rows[i].org, rows[i].user) == Some(rows[i].role)
  {
    var at := Find(rows, rows[i].org, rows[i].user);
    assert Matches(rows[i], rows[i].org, rows[i].user);
    assert at.Some? && at.value == i;
  }

  /** Two tables with one row each and the same rows give the same roles. */
  lemma AppendRole(rows: seq<Member>, m: Member, org: OrgId, user: UserId)
    requires OneRowEach(rows) && Find(rows, m.org, m.user).None?
    ensures OneRowEach(rows + [m])
    ensures RoleOf(rows + [m], org, user) == if Matches(m, org, user) then Some(m.role) else RoleOf(rows, org, user)
  {
    assert (rows + [m])[..|rows|] == rows;
  }

  lemma ReplaceRole(rows: seq<Member>, i: nat, role: Role, org: OrgId, user: UserId)
    requires OneRowEach(rows) && i < |rows|
    ensures OneRowEach(rows[i := rows[i].(role := role)])
    ensures RoleOf(rows[i := rows[i].(role := role)], org, user) ==
            if Matches(rows[i], org, user) then Some(role) else RoleOf(rows, org, user)
  {
    var rows' := rows[i := rows[i].(role := role)];
    var at, at' := Find(rows, org, user), Find(rows', org, user);
    if at.Some? {
      assert Matches(rows'[at.value], org, user);
      assert at'.value == at.value;
    }
    if at'.Some? {
      assert Matches(rows[at'.value], org, user);
    }
  }

  lemma DeleteRole(rows: seq<Member>, i: nat, org: OrgId, user: UserId)
    requires OneRowEach(rows) && i < |rows|
    ensures OneRowEach(rows[..i] + rows[i + 1..])
    ensures RoleOf(rows[..i] + rows[i + 1..], org, user) ==
            if Matches(rows[i], org, user) then None else RoleOf(rows, org, user)
  {
    var rows' := rows[..i] + rows[i + 1..];
    assert forall k :: 0 <= k < |rows'| ==> rows'[k] == if k < i then rows[k] else rows[k + 1];
    var at, at' := Find(rows, org, user), Find(rows', org, user);
    if at'.Some? {
      RowIsRole(rows, if at'.value < i then at'.value else at'.value + 1);
    }
    if at.Some? && at.value != i {
      var k := if at.value < i then at.value else at.value - 1;
      assert Matches(rows'[k], org, user);
    }
  }

  // ---------------------------------------------------------------- one request

  lemma NoRowsYet(t: Tenancy, org: OrgId, user: UserId)
    requires Inv(t) && org !in t.owners
    ensures Find(t.rows, org, user).None?
  {
    assert RightRole(t, org, user);
  }

  /** The caller acts with a role of at least administrator. */
  ghost predicate ActsWith(t: Tenancy, r: Request, actor: Role) {
    RoleOf(t.rows, r.org, r.caller) == Some(actor) && Rank(actor) >= Rank(Admin)
  }

  /** What a request demands, in terms of roles alone. */
  ghost predicate Granted(t: Tenancy, r: Request) {
    match r
    case Create(_, _) => true
    case Add(_, org, email, role) =>
      email in t.accounts && RoleOf(t.rows, org, t.accounts[email]) == None &&
      exists actor :: ActsWith(t, r, actor) && Rank(role) < Rank(actor)
    case Update(_, org, target, role) =>
      RoleOf(t.rows, org, target).Some? && RoleOf(t.rows, org, target) != Some(Owner) &&
      exists actor :: ActsWith(t, r, actor) && Rank(role) < Rank(actor)
    case Remove(_, org, target) =>
      RoleOf(t.rows, org, target).Some? && RoleOf(t.rows, org, target) != Some(Owner) &&
      exists actor :: ActsWith(t, r, actor)
  }

  /** The one user whose role a granted request sets, and to what. */
  ghost function Target(t: Tenancy, r: Request): UserId
    requires Granted(t, r)
  {
    match r
    case Create(caller, _) => caller
    case Add(_, _, email, _) => t.accounts[email]
    case Update(_, _, target, _) => target
    case Remove(_, _, target) => target
  }

  function NewRole(r: Request): Option<Role> {
    match r
    case Create(_, _) => Some(Owner)
    case Add(_, _, _, role) => Some(role)
    case Update(_, _, _, role) => Some(role)
    case Remove(_, _, _) => None
  }

  lemma DoneIffGranted(t: Tenancy, r: Request)
    ensures Serve(t, r).1 == Done <==> Granted(t, r)
    ensures Serve(t, r).1 != Done ==> Serve(t, r).0 == t
  {
    var actor := RoleOf(t.rows, r.org, r.caller);
    if actor.Some? && Rank(actor.value) >= Rank(Admin) {
      assert ActsWith(t, r, actor.value);
    }
  }

  /** A request is served exactly when it is granted, and then sets one user's role and nobody else's. */
  lemma RequestSetsOneRole(t: Tenancy, r: Request, org: OrgId, user: UserId)
    requires Inv(t) && Legal(t, r)
    ensures Serve(t, r).1 == Done <==> Granted(t, r)
    ensures OneRowEach(Serve(t, r).0.rows)
    ensures RoleOf(Serve(t, r).0.rows, org, user) ==
            if Granted(t, r) && org == r.org && user == Target(t, r) then NewRole(r) else RoleOf(t.rows, org, user)
  {
    DoneIffGranted(t, r);
    if Granted(t, r) {
      match r
      case Create(caller, _) =>
        NoRowsYet(t, r.org, caller);
        AppendRole(t.rows, Member(r.org, caller, Owner), org, user);
      case Add(_, _, email, role) =>
        AppendRole(t.rows, Member(r.org, t.accounts[email], role), org, user);
      case Update(_, _, target, role) =>
        ReplaceRole(t.rows, Find(t.rows, r.org, target).value, role, org, user);
      case Remove(_, _, target) =>
        DeleteRole(t.rows, Find(t.rows, r.org, target).value, org, user);
    }
  }

  /** Owners and administrators manage members; each hands out only lower roles than their own. */
  predicate Manages(actor: Option<Role>) {
    actor == Some(Owner) || actor == Some(Admin)
  }

  predicate MayGive(actor: Option<Role>, role: Role) {
    match role
    case Owner => false
    case Admin => actor == Some(Owner)
    case _ => actor == Some(Owner) || actor == Some(Admin)
  }

  /** Every answer to a request about members has its own condition, in terms of who holds which role. */
  ghost predicate Answered(t: Tenancy, r: Request, outcome: Outcome) {
    var actor := RoleOf(t.rows, r.org, r.caller);
    match r
    case Create(_, _) => outcome == Done
    case Add(_, org, email, role) =>
      (outcome == Forbidden <==> !MayGive(actor, role)) &&
      (outcome == NotFound <==> MayGive(actor, role) && email !in t.accounts) &&
      (outcome == Conflict <==>
        MayGive(actor, role) && email in t.accounts && RoleOf(t.rows, org, t.accounts[email]).Some?)
    case Update(_, org, target, role) =>
      var held := RoleOf(t.rows, org, target);
      (outcome == NotFound <==> Manages(actor) && held == None) &&
      (outcome == Forbidden <==>
        !Manages(actor) || (held.Some? && (held == Some(Owner) || !MayGive(actor, role)))) &&
      outcome != Conflict
    case Remove(_, org, target) =>
      var held := RoleOf(t.rows, org, target);
      (outcome == NotFound <==> Manages(actor) && held == None) &&
      (outcome == Forbidden <==> !Manages(actor) || held == Some(Owner)) &&
      outcome != Conflict
  }

  lemma RequestIsAnswered(t: Tenancy, r: Request)
    ensures Answered(t, r, Serve(t, r).1)
    ensures Serve(t, r).1 != Done ==> Serve(t, r).0 == t
  {
  }

  /** Administrators may remove and demote each other, and themselves. */
  lemma AdminsMayUnseatAdmins(t: Tenancy, org: OrgId, admin: UserId, other: UserId, role: Role)
    requires Inv(t) && RoleOf(t.rows, org, admin) == Some(Admin) && RoleOf(t.rows, org, other) == Some(Admin)
    requires Rank(role) < Rank(Admin)
    ensures Serve(t, Remove(admin, org, other)).1 == Done
    ensures RoleOf(Serve(t, Remove(admin, org, other)).0.rows, org, other) == None
    ensures Serve(t, Update(admin, org, other, role)).1 == Done
    ensures RoleOf(Serve(t, Update(admin, org, other, role)).0.rows, org, other) == Some(role)
  {
    assert ActsWith(t, Remove(admin, org, other), Admin) && ActsWith(t, Update(admin, org, other, role), Admin);
    RequestSetsOneRole(t, Remove(admin, org, other), org, other);
    RequestSetsOneRole(t, Update(admin, org, other, role), org, other);
  }

  /** What a request did to one user's role in one organization. */
  ghost predicate RoleMoves(t: Tenancy, t': Tenancy, r: Request, org: OrgId, user: UserId) {
    var before, after := RoleOf(t.rows, org, user), RoleOf(t'.rows, org, user);
    after == before ||
    (org == r.org &&
     if r.Create? then user == r.caller && after == Some(Owner)
     else
       var actor := RoleOf(t.rows, org, r.caller);
       actor.Some? && Rank(actor.value) >= Rank(Admin) && before != Some(Owner) &&
       (after.Some? ==> Rank(after.value) < Rank(actor.value)))
  }

  /**
   A request changes roles only in its own organization, never the owner's, and only to ranks below the caller's;
   it leaves one row per user and organization.
   */
  lemma RequestMovesRoles(t: Tenancy, r: Request, org: OrgId, user: UserId)
    requires Inv(t) && Legal(t, r)
    ensures OneRowEach(Serve(t, r).0.rows)
    ensures RoleMoves(t, Serve(t, r).0, r, org, user)
  {
    RequestSetsOneRole(t, r, org, user);
  }

  lemma OwnersAfter(t: Tenancy, r: Request)
    ensures Serve(t, r).0.owners == if r.Create? then t.owners[r.org := r.caller] else t.owners
  {
  }

  /** What a role change of one user means for the invariant. */
  lemma MovesKeepRoleRight(t: Tenancy, t': Tenancy, r: Request, org: OrgId, user: UserId)
    requires RightRole(t, org, user) && RightRole(t, r.org, r.caller) && Legal(t, r)
    requires t'.owners == if r.Create? then t.owners[r.org := r.caller] else t.owners
    requires RoleMoves(t, t', r, org, user)
    requires r.Create? ==> RoleOf(t'.rows, r.org, r.caller) == Some(Owner)
    ensures RightRole(t', org, user)
  {
  }

  lemma CreatorIsOwner(t: Tenancy, caller: UserId, org: OrgId)
    requires Inv(t) && org !in t.owners
    ensures RoleOf(ServeCreate(t, caller, org).rows, org, caller) == Some(Owner)
  {
    NoRowsYet(t, org, caller);
    AppendRole(t.rows, Member(org, caller, Owner), org, caller);
  }

  lemma RequestKeepsInv(t: Tenancy, r: Request)
    requires Inv(t) && Legal(t, r)
    ensures Inv(Serve(t, r).0)
    ensures forall org :: org in t.owners ==> org in Serve(t, r).0.owners && Serve(t, r).0.owners[org] == t.owners[org]
  {
    var t' := Serve(t, r).0;
    OwnersAfter(t, r);
    RequestMovesRoles(t, r, 0, 0);
    if r.Create? {
      CreatorIsOwner(t, r.caller, r.org);
    }
    forall org, user ensures RightRole(t', org, user) {
      assert RightRole(t, org, user) && RightRole(t, r.org, r.caller);
      RequestMovesRoles(t, r, org, user);
      MovesKeepRoleRight(t, t', r, org, user);
    }
  }

  // ---------------------------------------------------------------- whole runs

  /** Before the first organization. */
  lemma EmptyTenancyInv(accounts: map<string, UserId>)
    ensures Inv(Tenancy(map[], [], accounts))
  {
    assert forall org, user :: RoleOf([], org, user) == None;
  }

  lemma {:induction false} RunKeepsInv(t: Tenancy, rs: seq<Request>)
    requires Inv(t) && LegalRun(t, rs)
    ensures Inv(Run(t, rs))
    ensures forall org :: org in t.owners ==> org in Run(t, rs).owners && Run(t, rs).owners[org] == t.owners[org]
  {
    if rs == [] {
    } else {
      RunKeepsInv(t, rs[..|rs| - 1]);
      RequestKeepsInv(Run(t, rs[..|rs| - 1]), Last(rs));
    }
  }

  /** The users of an organization whose rank is at least that of `role`. */
  ghost function AtLeast(rows: seq<Member>, org: OrgId, role: Role): set<UserId> {
    set i | 0 <= i < |rows| && rows[i].org == org && Rank(rows[i].role) >= Rank(role) :: rows[i].user
  }

  lemma AtLeastByRole(rows: seq<Member>, org: OrgId, role: Role, user: UserId)
    requires OneRowEach(rows)
    ensures user in AtLeast(rows, org, role) <==>
            RoleOf(rows, org, user).Some? && Rank(RoleOf(rows, org, user).value) >= Rank(role)
  {
    if user in AtLeast(rows, org, role) {
      var i :| 0 <= i < |rows| && rows[i].org == org && Rank(rows[i].role) >= Rank(role) && rows[i].user == user;
      RowIsRole(rows, i);
    }
  }

  /** At any point of any run an organization has exactly one owner, its creator, and one row per member. */
  lemma OneOwnerForever(t: Tenancy, rs: seq<Request>, org: OrgId)
    requires Inv(t) && LegalRun(t, rs) && org in t.owners
    ensures OneRowEach(Run(t, rs).rows)
    ensures AtLeast(Run(t, rs).rows, org, Owner) == {t.owners[org]}
  {
    RunKeepsInv(t, rs);
    var t' := Run(t, rs);
    forall user ensures user in AtLeast(t'.rows, org, Owner) <==> user == t.owners[org] {
      AtLeastByRole(t'.rows, org, Owner, user);
      assert RightRole(t', org, user);
    }
  }

  /** No request of `rs` was made by `user` in `org`. */
  ghost predicate Silent(rs: seq<Request>, org: OrgId, user: UserId) {
    forall i :: 0 <= i < |rs| ==> !(rs[i].org == org && rs[i].caller == user)
  }

  lemma OneRequestAddsNoAdmin(t: Tenancy, r: Request, org: OrgId, user: UserId)
    requires Inv(t) && Legal(t, r) && org in t.owners && !(r.org == org && r.caller == t.owners[org])
    requires user in AtLeast(Serve(t, r).0.rows, org, Admin)
    ensures user in AtLeast(t.rows, org, Admin)
  {
    var t' := Serve(t, r).0;
    RequestMovesRoles(t, r, org, user);
    AtLeastByRole(t'.rows, org, Admin, user);
    AtLeastByRole(t.rows, org, Admin, user);
    assert RightRole(t, org, r.caller);
  }

  /** While the owner makes no request, nobody joins the administrators, whatever all the others do. */
  lemma {:induction false} AdminsGrowOnlyByOwner(t: Tenancy, rs: seq<Request>, org: OrgId)
    requires Inv(t) && LegalRun(t, rs) && org in t.owners && Silent(rs, org, t.owners[org])
    ensures AtLeast(Run(t, rs).rows, org, Admin) <= AtLeast(t.rows, org, Admin)
  {
    if rs == [] {
    } else {
      var front, r := rs[..|rs| - 1], Last(rs);
      AdminsGrowOnlyByOwner(t, front, org);
      RunKeepsInv(t, front);
      assert r == rs[|rs| - 1];
      forall user | user in AtLeast(Run(t, rs).rows, org, Admin) ensures user in AtLeast(t.rows, org, Admin) {
        OneRequestAddsNoAdmin(Run(t, front), r, org, user);
      }
    }
  }

  /** Requests in other organizations never touch this one's roles. */
  lemma {:induction false} TenantsAreIsolated(t: Tenancy, rs: seq<Request>, org: OrgId, user: UserId)
    requires Inv(t) && LegalRun(t, rs)
    requires forall i :: 0 <= i < |rs| ==> rs[i].org != org
    ensures RoleOf(Run(t, rs).rows, org, user) == RoleOf(t.rows, org, user)
  {
    if rs == [] {
    } else {
      var front := rs[..|rs| - 1];
      TenantsAreIsolated(t, front, org, user);
      RunKeepsInv(t, front);
      assert Last(rs) == rs[|rs| - 1];
      RequestMovesRoles(Run(t, front), Last(rs), org, user);
    }
  }

  /** Acting alone, no member ends with a higher rank than it started with. */
  lemma {:induction false} NobodyPromotesThemself(t: Tenancy, rs: seq<Request>, org: OrgId, user: UserId)
    requires Inv(t) && LegalRun(t, rs) && org in t.owners
    requires forall i :: 0 <= i < |rs| ==> rs[i].caller == user
    ensures RoleOf(Run(t, rs).rows, org, user).Some? ==>
              RoleOf(t.rows, org, user).Some? &&
              Rank(RoleOf(Run(t, rs).rows, org, user).value) <= Rank(RoleOf(t.rows, org, user).value)
  {
    if rs == [] {
    } else {
      var front := rs[..|rs| - 1];
      NobodyPromotesThemself(t, front, org, user);
      RunKeepsInv(t, front);
      assert Last(rs) == rs[|rs| - 1];
      RequestMovesRoles(Run(t, front), Last(rs), org, user);
    }
  }
}
