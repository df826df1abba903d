/** The persisted user and role records, and their tables. A table is a map keyed
    by the unique column the code looks records up by: users by username, roles by
    role name. */
module Entities {
  import opened Wrappers

  datatype AppRole = AppRole(id: int, roleName: string)

  datatype AppUser = AppUser(
    id: int,
    username: string,
    email: string,
    password: string,
    firstName: Option<string>,
    lastName: Option<string>,
    enabled: bool,
    roles: seq<AppRole>)

  type UserTable = map<string, AppUser>
  type RoleTable = map<string, AppRole>

  /** `AppUserRepository.findByUsername`. */
  function FindByUsername(users: UserTable, username: string): (r: Option<AppUser>)
    ensures r.Some? <==> username in users
    ensures r.Some? ==> r.value == users[username]
  {
    if username in users then Some(users[username]) else None
  }

  /** `AppUserRepository.existsByEmail`: true when some stored user has that email,
      false when none has. */
  function EmailTaken(users: UserTable, email: string): (b: bool)
    ensures forall k :: k in users && users[k].email == email ==> b
    ensures b ==> exists k :: k in users && users[k].email == email
  {
    exists k | k in users :: users[k].email == email
  }

  /** `AppRoleRepository.findByRoleName`. */
  function FindByRoleName(roles: RoleTable, name: string): (r: Option<AppRole>)
    ensures r.Some? <==> name in roles
    ensures r.Some? ==> r.value == roles[name]
  {
    if name in roles then Some(roles[name]) else None
  }

  /** Every role's name. */
  function RoleNames(roles: seq<AppRole>): (names: seq<string>)
    ensures |names| == |roles|
    ensures forall i :: 0 <= i < |roles| ==> names[i] == roles[i].roleName
  {
    if roles == [] then [] else [roles[0].roleName] + RoleNames(roles[1..])
  }
}
