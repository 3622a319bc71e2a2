/** The service object that serves membership requests against its tables. */
module OrganizationService {
  import opened Prelude
  import opened Memberships

  class Service {
    var owners: map<OrgId, UserId>
    var rows: seq<Member>
    var accounts: map<string, UserId>

    ghost function State(): Tenancy
      reads this
    {
      Tenancy(owners, rows, accounts)
    }

    constructor (accounts: map<string, UserId>)
      ensures State() == Tenancy(map[], [], accounts) && Inv(State())
    {
      this.owners, this.rows, this.accounts := map[], [], accounts;
      EmptyTenancyInv(accounts);
    }

    method CreateOrganization(id: OrgId, owner: UserId)
      modifies this`owners, this`rows
      ensures State() == ServeCreate(old(State()), owner, id)
    {
      owners := owners[id := owner];
      rows := rows + [Member(id, owner, Owner)];
    }

    method AddMember(org: OrgId, email: string, role: Role, actor: Role) returns (outcome: Outcome)
      modifies this`rows
      ensures (State(), outcome) == ServeAdd(old(State()), actor, org, email, role)
    {
      if Rank(actor) < Rank(Admin) {
        return Forbidden;
      }
      if Rank(role) >= Rank(actor) {
        return Forbidden;
      }
      if email !in accounts {
        return NotFound;
      }
      var user := accounts[email];
      if Find(rows, org, user).Some? {
        return Conflict;
      }
      rows := rows + [Member(org, user, role)];
      return Done;
    }

    method UpdateMemberRole(org: OrgId, target: UserId, role: Role, actor: Role) returns (outcome: Outcome)
      modifies this`rows
      ensures (State(), outcome) == ServeUpdate(old(State()), actor, org, target, role)
    {
      if Rank(actor) < Rank(Admin) {
        return Forbidden;
      }
      var found := Find(rows, org, target);
      if found.None? {
        return NotFound;
      }
      var i := found.value;
      if rows[i].role == Owner {
        return Forbidden;
      }
      if Rank(role) >= Rank(actor) {
        return Forbidden;
      }
      rows := rows[i := rows[i].(role := role)];
      return Done;
    }

    method RemoveMember(org: OrgId, target: UserId, actor: Role) returns (outcome: Outcome)
      modifies this`rows
      ensures (State(), outcome) == ServeRemove(old(State()), actor, org, target)
    {
      if Rank(actor) < Rank(Admin) {
        return Forbidden;
      }
      var found := Find(rows, org, target);
      if found.None? {
        return NotFound;
      }
      var i := found.value;
      if rows[i].role == Owner {
        return Forbidden;
      }
      rows := rows[..i] + rows[i + 1..];
      return Done;
    }

    /** An endpoint call: the caller's own membership is looked up, checked and passed on as the actor. */
    method Handle(r: Request) returns (outcome: Outcome)
      requires Inv(State()) && Legal(State(), r)
      modifies this
      ensures (State(), outcome) == Serve(old(State()), r)
      ensures Inv(State())
    {
      RequestKeepsInv(State(), r);
      if r.Create? {
        CreateOrganization(r.org, r.caller);
        return Done;
      }
      var actor := RoleOf(rows, r.org, r.caller);
      if actor.None? || Rank(actor.value) < Rank(Admin) {
        return Forbidden;
      }
      match r
      case Add(_, org, email, role) => outcome := AddMember(org, email, role, actor.value);
      case Update(_, org, target, role) => outcome := UpdateMemberRole(org, target, role, actor.value);
      case Remove(_, org, target) => outcome := RemoveMember(org, target, actor.value);
    }
  }
}
