/** The User document of `src/models/User.js`: its fields, the schema's
    validators (required fields, the role enum and its default, the team
    enums), the unique index on `email`, and `email` as the username the
    authentication plugin logs users in with. */
module UserModel {
  import opened Common

  const AdminRole: string := "admin"
  const MemberRole: string := "user"

  /** The `role` enum. */
  const Roles: set<string> := {AdminRole, MemberRole}

  /** The level-1 and level-2 team enums. They live in `teams.js`, which is not
      part of this model, so they are a parameter. */
  datatype Teams = Teams(l1Teams: set<string>, l2Teams: set<string>)

  /** A stored user: the schema's fields plus the credential the authentication
      plugin keeps on the document (its hash and salt, as one opaque string). */
  datatype UserDoc = UserDoc(
    id: Id, name: string, email: string, company: Id,
    role: string, l1Team: string, l2Team: string, hash: string)

  /** A user as a query returns it: the plugin's credential is never selected. */
  datatype PublicUser = PublicUser(
    id: Id, name: string, email: string, company: Id,
    role: string, l1Team: string, l2Team: string)

  function Public(u: UserDoc): PublicUser {
    PublicUser(u.id, u.name, u.email, u.company, u.role, u.l1Team, u.l2Team)
  }

  /** A document that satisfies every validator of the schema. The `required`
      validator refuses a missing value and the empty string. */
  ghost predicate ValidUser(u: UserDoc, teams: Teams) {
    && u.name != ""
    && u.email != ""
    && u.company != ""
    && u.role in Roles
    && u.l1Team != "" && u.l1Team in teams.l1Teams
    && u.l2Team != "" && u.l2Team in teams.l2Teams
  }

  /** `new User({...})` before it is saved: the fields a request did not
      supply are absent, and the role default has already been applied. */
  datatype Draft = Draft(
    name: Option<string>, email: string, company: Id,
    role: string, l1Team: Option<string>, l2Team: Option<string>)

  /** The schema default for `role`: applied only when no role is given. */
  function RoleOrDefault(role: Option<string>): (r: string)
    ensures role.None? ==> r == MemberRole
    ensures role.Some? ==> r == role.value
  {
    Or(role, MemberRole)
  }

  /** The paths whose validators fail when the draft is saved. */
  function Violations(d: Draft, teams: Teams): set<string> {
    (if !Truthy(d.name) then {"name"} else {})
    + (if d.email == "" then {"email"} else {})
    + (if d.company == "" then {"company"} else {})
    + (if d.role !in Roles then {"role"} else {})
    + (if !Truthy(d.l1Team) || d.l1Team.value !in teams.l1Teams then {"l1Team"} else {})
    + (if !Truthy(d.l2Team) || d.l2Team.value !in teams.l2Teams then {"l2Team"} else {})
  }

  /** The document a draft becomes once saved under `id` with credential `hash`. */
  function Saved(d: Draft, id: Id, hash: string): UserDoc {
    UserDoc(id, OrEmpty(d.name), d.email, d.company, d.role, OrEmpty(d.l1Team), OrEmpty(d.l2Team), hash)
  }

  /** Saving succeeds exactly when the saved document is valid. */
  lemma SaveValidates(d: Draft, teams: Teams, id: Id, hash: string)
    ensures Violations(d, teams) == {} <==> ValidUser(Saved(d, id, hash), teams)
  {
    if Violations(d, teams) != {} {
      if !Truthy(d.name) { assert "name" in Violations(d, teams); }
      if !Truthy(d.l1Team) || d.l1Team.value !in teams.l1Teams { assert "l1Team" in Violations(d, teams); }
      if !Truthy(d.l2Team) || d.l2Team.value !in teams.l2Teams { assert "l2Team" in Violations(d, teams); }
    }
  }

  /** The unique index on `_id`. */
  ghost predicate UserIdsUnique(users: seq<UserDoc>) {
    forall i, j :: 0 <= i < j < |users| ==> users[i].id != users[j].id
  }

  /** The unique index on `email`: unique across ALL users, not per company. */
  ghost predicate EmailsUnique(users: seq<UserDoc>) {
    forall i, j :: 0 <= i < j < |users| ==> users[i].email != users[j].email
  }

  /** The plugin's `findByUsername`: the username field is `email`. */
  function FindByUsername(users: seq<UserDoc>, email: string): (r: Option<UserDoc>)
    ensures r.Some? ==> r.value in users && r.value.email == email
    ensures r.None? <==> forall u :: u in users ==> u.email != email
  {
    match FirstIndex(users, (u: UserDoc) => u.email == email)
    case None => None
    case Some(i) => Some(users[i])
  }

  /** Under the unique index, the user found by username is the only one with that email. */
  lemma {:induction false} FindByUsernameUnique(users: seq<UserDoc>, u: UserDoc)
    requires EmailsUnique(users)
    requires u in users
    ensures FindByUsername(users, u.email) == Some(u)
  {
    var i :| 0 <= i < |users| && users[i] == u;
    var r := FindByUsername(users, u.email);
    var k := FirstIndex(users, (v: UserDoc) => v.email == u.email).value;
    assert r == Some(users[k]) && users[k].email == users[i].email;
    assert k == i;
  }
}
