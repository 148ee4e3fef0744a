/**
 * The static tables of the dashboard: the credential table `USERS`
 * (username to password and role) and the permission table `USER_ROLES`
 * (role to the list of permissions it grants).
 */
module Credentials {

  /** One entry of the credential table. */
  datatype Credential = Credential(password: string, role: string)

  /** `USERS`: the only credentials the dashboard accepts. */
  const Users: map<string, Credential> := map[
    "admin_user" := Credential("admin123", "admin"),
    "regular_user" := Credential("user123", "user")
  ]

  /** `USER_ROLES`: the permissions of each role, in the order listed. */
  const UserRoles: map<string, seq<string>> := map[
    "admin" := ["add", "edit", "delete", "view", "analytics"],
    "user" := ["view", "analytics"]
  ]

  /** The permission that unlocks the data-entry sections of the menu. */
  const AddPermission := "add"

  /** The credential check of the Login button: a known username whose stored password matches. */
  predicate Authenticates(users: map<string, Credential>, username: string, password: string)
  {
    username in users && users[username].password == password
  }

  /** The roles that some entry of a credential table grants. */
  ghost function StoredRoles(users: map<string, Credential>): (roles: set<string>)
    ensures forall u :: u in users ==> users[u].role in roles
    ensures forall r :: r in roles ==> exists u :: u in users && users[u].role == r
  {
    set u | u in users :: users[u].role
  }

  /** Every role a successful login can produce has an entry in the permission table. */
  predicate RolesHavePermissions(users: map<string, Credential>)
  {
    forall u :: u in users ==> users[u].role in UserRoles
  }

  /** The credential table grants exactly the roles `admin` and `user`. */
  lemma StoredRolesOfUsers()
    ensures StoredRoles(Users) == {"admin", "user"}
  {
    var roles := StoredRoles(Users);
    assert Users["admin_user"].role == "admin";
    assert Users["regular_user"].role == "user";
    forall r | r in roles
      ensures r == "admin" || r == "user"
    {
      var u :| u in Users && Users[u].role == r;
      assert u == "admin_user" || u == "regular_user";
    }
  }

  /** So the lookup `USER_ROLES[user_role]` is defined for every role of `USERS`. */
  lemma UsersRolesHavePermissions()
    ensures RolesHavePermissions(Users)
    ensures StoredRoles(Users) <= UserRoles.Keys
  {
  }

  /** The `user` permissions are a subset of the `admin` permissions, and only `admin` may add. */
  lemma UserPermissionsWithinAdmin()
    ensures forall p :: p in UserRoles["user"] ==> p in UserRoles["admin"]
    ensures AddPermission in UserRoles["admin"] && AddPermission !in UserRoles["user"]
  {
  }
}
