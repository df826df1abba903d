/** Loading the security record of a user by username. */
module UserDetailsService {
  import opened Wrappers
  import opened Entities

  const NotFoundPrefix := "User not found: "

  /** The security record handed to the framework: the constructor arguments of
      Spring's `User`, authorities as role names. */
  datatype UserDetails = UserDetails(
    username: string,
    password: string,
    enabled: bool,
    accountNonExpired: bool,
    credentialsNonExpired: bool,
    accountNonLocked: bool,
    authorities: seq<string>)

  /** The record built from a stored user: username, password and the enabled flag
      copied, the other three flags set, and one authority per role, in role order,
      carrying the role name. */
  function DetailsOf(u: AppUser): (d: UserDetails)
    ensures d.username == u.username && d.password == u.password && d.enabled == u.enabled
    ensures d.accountNonExpired && d.credentialsNonExpired && d.accountNonLocked
    ensures |d.authorities| == |u.roles|
    ensures forall i :: 0 <= i < |u.roles| ==> d.authorities[i] == u.roles[i].roleName
  {
    UserDetails(u.username, u.password, u.enabled, true, true, true, RoleNames(u.roles))
  }

  /** `loadUserByUsername(username)`: fails, with the name in the message, exactly
      when no user has that name; otherwise the record of that user. */
  function LoadUserByUsername(users: UserTable, username: string): (r: Result<UserDetails>)
    ensures r.Err? <==> username !in users
    ensures r.Err? ==> r.message == NotFoundPrefix + username
    ensures r.Ok? ==> r.value == DetailsOf(users[username])
  {
    match FindByUsername(users, username)
    case None => Err(NotFoundPrefix + username)
    case Some(u) => Ok(DetailsOf(u))
  }
}
