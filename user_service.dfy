/** The server-side user registry: registration, login, token refresh, password
    change and lookups. The password encoder, the token service and the
    authentication manager are outside the model and enter as functions. */
module UserService {
  import opened Wrappers
  import opened Entities
  import opened AuthDtos
  import opened UserDetailsService

  const UserRoleName := "ROLE_USER"
  const BearerType := "Bearer"
  const UsernameExists := "Username already exists"
  const EmailExists := "Email already exists"
  const UserNotFound := "User not found"
  const WrongCurrentPassword := "Current password is incorrect"
  const PasswordsDiffer := "New password and confirm password do not match"
  const PasswordChanged := "Password changed successfully"
  const InvalidRefreshToken := "Invalid refresh token"
  /** The token library's failure on a token it cannot parse. */
  const MalformedToken := "Malformed token"
  /** The authentication manager's failure on rejected credentials. */
  const BadCredentials := "Bad credentials"

  datatype PasswordEncoder = PasswordEncoder(
    encode: string -> string,
    matches: (string, string) -> bool)

  /** `extractUsername` yields `None` for a token it cannot parse. */
  datatype JwtService = JwtService(
    generateToken: UserDetails -> string,
    generateRefreshToken: UserDetails -> string,
    extractUsername: string -> Option<string>,
    isTokenValid: (string, UserDetails) -> bool,
    expirationTime: int)

  /** `AuthenticationManager.authenticate`: whether the credentials are accepted
      against the current users. */
  type Authenticator = (UserTable, string, string) -> bool

  /** Both tables, and the next identifiers the database hands out. */
  datatype Registry = Registry(users: UserTable, roles: RoleTable, nextUserId: int, nextRoleId: int)

  /** The tables are keyed by their unique column, emails and user identifiers are
      unique, and every identifier lies below the next one to be handed out. */
  function Consistent(reg: Registry): (b: bool)
    ensures b ==> forall a, c :: a in reg.users && c in reg.users && reg.users[a].email == reg.users[c].email ==> a == c
  {
    (forall k :: k in reg.users ==> reg.users[k].username == k && reg.users[k].id < reg.nextUserId)
    && (forall a, b :: a in reg.users && b in reg.users && a != b ==>
          reg.users[a].email != reg.users[b].email && reg.users[a].id != reg.users[b].id)
    && (forall k :: k in reg.roles ==> reg.roles[k].roleName == k && reg.roles[k].id < reg.nextRoleId)
  }

  /** `mapToUserInfo(user)`: the public fields, and the role names in role order. */
  function UserInfoOf(u: AppUser): (info: UserInfo)
    ensures info.id == u.id && info.username == u.username && info.email == u.email
    ensures info.firstName == u.firstName && info.lastName == u.lastName
    ensures |info.roles| == |u.roles| && forall i :: 0 <= i < |u.roles| ==> info.roles[i] == u.roles[i].roleName
  {
    UserInfo(u.id, u.username, u.email, u.firstName, u.lastName, RoleNames(u.roles))
  }

  /** The fields registration reads are not null (the controller validates them). */
  predicate RegisterFieldsPresent(req: RegisterRequest) {
    req.username.Some? && req.email.Some? && req.password.Some?
  }

  /** The default role, looked up, or created with the next role identifier. Either
      way it is stored under its name afterwards; only a missing one changes the
      roles, by exactly that role, and nothing else changes. */
  function EnsureUserRole(reg: Registry): (r: (AppRole, Registry))
    ensures UserRoleName in r.1.roles && r.1.roles[UserRoleName] == r.0
    ensures UserRoleName in reg.roles ==> r.1 == reg
    ensures UserRoleName !in reg.roles ==>
              r.0 == AppRole(reg.nextRoleId, UserRoleName)
              && r.1.roles.Keys == reg.roles.Keys + {UserRoleName}
              && (forall k :: k in reg.roles ==> r.1.roles[k] == reg.roles[k])
              && r.1.nextRoleId == reg.nextRoleId + 1
    ensures r.1.users == reg.users && r.1.nextUserId == reg.nextUserId
  {
    if UserRoleName in reg.roles then (reg.roles[UserRoleName], reg)
    else
      var role := AppRole(reg.nextRoleId, UserRoleName);
      (role, reg.(roles := reg.roles[UserRoleName := role], nextRoleId := reg.nextRoleId + 1))
  }

  /** The user a registration stores. */
  function NewUser(id: int, req: RegisterRequest, role: AppRole, encoder: PasswordEncoder): AppUser
    requires RegisterFieldsPresent(req)
  {
    AppUser(id, req.username.value, req.email.value, encoder.encode(req.password.value),
            req.firstName, req.lastName, true, [role])
  }

  /** The registry after `register(request)`, or the failure it throws: a taken
      username fails before the email is looked at, then a taken email fails, and
      otherwise registration succeeds. */
  function Registered(reg: Registry, req: RegisterRequest, encoder: PasswordEncoder): (r: Result<Registry>)
    requires RegisterFieldsPresent(req)
    ensures req.username.value in reg.users ==> r == Err(UsernameExists)
    ensures req.username.value !in reg.users && EmailTaken(reg.users, req.email.value) ==> r == Err(EmailExists)
    ensures r.Ok? <==> req.username.value !in reg.users && !EmailTaken(reg.users, req.email.value)
  {
    if req.username.value in reg.users then Err(UsernameExists)
    else if EmailTaken(reg.users, req.email.value) then Err(EmailExists)
    else
      var (role, reg1) := EnsureUserRole(reg);
      var user := NewUser(reg1.nextUserId, req, role, encoder);
      Ok(reg1.(users := reg1.users[user.username := user], nextUserId := reg1.nextUserId + 1))
  }

  /** A successful registration adds exactly one user, under the requested name,
      enabled, with the encoded password, the requested email and names, a fresh
      identifier, and exactly the default role; every other user is unchanged. */
  lemma RegisterAddsOneUser(reg: Registry, req: RegisterRequest, encoder: PasswordEncoder)
    requires Consistent(reg) && RegisterFieldsPresent(req)
    requires Registered(reg, req, encoder).Ok?
    ensures var after := Registered(reg, req, encoder).value;
            var name := req.username.value;
            name !in reg.users && after.users.Keys == reg.users.Keys + {name}
            && (forall k :: k in reg.users ==> after.users[k] == reg.users[k])
            && after.users[name].enabled
            && after.users[name].password == encoder.encode(req.password.value)
            && after.users[name].email == req.email.value
            && after.users[name].firstName == req.firstName && after.users[name].lastName == req.lastName
            && (forall k :: k in reg.users ==> after.users[k].id != after.users[name].id)
            && after.users[name].roles == [after.roles[UserRoleName]]
  {
    var (role, reg1) := EnsureUserRole(reg);
    assert role == reg1.roles[UserRoleName];
  }

  /** The default role is created only when missing: afterwards it exists, an
      existing one is reused unchanged, and no other role is touched. */
  lemma RegisterRoleOnce(reg: Registry, req: RegisterRequest, encoder: PasswordEncoder)
    requires RegisterFieldsPresent(req)
    requires Registered(reg, req, encoder).Ok?
    ensures var after := Registered(reg, req, encoder).value;
            UserRoleName in after.roles
            && after.roles.Keys == reg.roles.Keys + {UserRoleName}
            && (forall k :: k in reg.roles ==> after.roles[k] == reg.roles[k])
            && (UserRoleName in reg.roles ==> after.roles == reg.roles && after.nextRoleId == reg.nextRoleId)
  {
  }

  /** Registration keeps the registry consistent: usernames and emails stay unique. */
  lemma RegisterKeepsConsistent(reg: Registry, req: RegisterRequest, encoder: PasswordEncoder)
    requires Consistent(reg) && RegisterFieldsPresent(req)
    requires Registered(reg, req, encoder).Ok?
    ensures Consistent(Registered(reg, req, encoder).value)
  {
    var (role, reg1) := EnsureUserRole(reg);
    var name := req.username.value;
    var after := Registered(reg, req, encoder).value;
    assert after.users == reg.users[name := NewUser(reg1.nextUserId, req, role, encoder)];
    forall a, b | a in after.users && b in after.users && a != b
      ensures after.users[a].email != after.users[b].email && after.users[a].id != after.users[b].id
    {
      if a == name {
        assert b in reg.users;
        assert reg.users[b].email != req.email.value;
      } else if b == name {
        assert a in reg.users;
        assert reg.users[a].email != req.email.value;
      }
    }
  }

  /** The fields a password change reads are not null. */
  predicate ChangeFieldsPresent(req: ChangePasswordRequest) {
    req.currentPassword.Some? && req.newPassword.Some?
  }

  /** The registry after `changePassword(username, request)`, or the failure it
      throws. The checks come in this order: the user exists, the current password
      matches, and the confirmation equals the new password. */
  function PasswordChangedIn(reg: Registry, username: string, req: ChangePasswordRequest, encoder: PasswordEncoder): (r: Result<Registry>)
    requires ChangeFieldsPresent(req)
    ensures username !in reg.users ==> r == Err(UserNotFound)
    ensures username in reg.users && !encoder.matches(req.currentPassword.value, reg.users[username].password) ==>
              r == Err(WrongCurrentPassword)
    ensures username in reg.users && encoder.matches(req.currentPassword.value, reg.users[username].password)
            && req.newPassword != req.confirmPassword ==>
              r == Err(PasswordsDiffer)
    ensures r.Ok? <==>
              username in reg.users && encoder.matches(req.currentPassword.value, reg.users[username].password)
              && req.confirmPassword == req.newPassword
  {
    if username !in reg.users then Err(UserNotFound)
    else if !encoder.matches(req.currentPassword.value, reg.users[username].password) then Err(WrongCurrentPassword)
    else if req.newPassword != req.confirmPassword then Err(PasswordsDiffer)
    else
      var u := reg.users[username];
      Ok(reg.(users := reg.users[username := u.(password := encoder.encode(req.newPassword.value))]))
  }

  /** A successful change replaces only that user's password, by the encoded new
      one; the roles and every other user stay as they were. */
  lemma ChangePasswordOnlyTarget(reg: Registry, username: string, req: ChangePasswordRequest, encoder: PasswordEncoder)
    requires ChangeFieldsPresent(req)
    requires PasswordChangedIn(reg, username, req, encoder).Ok?
    ensures var after := PasswordChangedIn(reg, username, req, encoder).value;
            after.users.Keys == reg.users.Keys && after.roles == reg.roles
            && after.nextUserId == reg.nextUserId && after.nextRoleId == reg.nextRoleId
            && (forall k :: k in reg.users && k != username ==> after.users[k] == reg.users[k])
            && after.users[username] == reg.users[username].(password := encoder.encode(req.newPassword.value))
  {
  }

  /** A password change keeps the registry consistent. */
  lemma ChangePasswordKeepsConsistent(reg: Registry, username: string, req: ChangePasswordRequest, encoder: PasswordEncoder)
    requires Consistent(reg) && ChangeFieldsPresent(req)
    requires PasswordChangedIn(reg, username, req, encoder).Ok?
    ensures Consistent(PasswordChangedIn(reg, username, req, encoder).value)
  {
    var after := PasswordChangedIn(reg, username, req, encoder).value;
    forall a, b | a in after.users && b in after.users && a != b
      ensures after.users[a].email != after.users[b].email && after.users[a].id != after.users[b].id
    {
      assert after.users[a].email == reg.users[a].email && after.users[a].id == reg.users[a].id;
      assert after.users[b].email == reg.users[b].email && after.users[b].id == reg.users[b].id;
    }
  }

  /** The response issued for a stored user: tokens generated from its security
      record, the access token's lifetime, and its public fields. */
  function ResponseFor(user: AppUser, details: UserDetails, refreshToken: string, jwt: JwtService): (r: AuthResponse)
    ensures r.tokenType == BearerType && r.refreshToken == refreshToken
    ensures r.accessToken == jwt.generateToken(details) && r.expiresIn == jwt.expirationTime
    ensures r.user == UserInfoOf(user)
  {
    AuthResponse(jwt.generateToken(details), refreshToken, BearerType, jwt.expirationTime, UserInfoOf(user))
  }

  class UserServiceImpl {
    var users: UserTable
    var roles: RoleTable
    var nextUserId: int
    var nextRoleId: int
    const encoder: PasswordEncoder
    const jwt: JwtService
    const authenticate: Authenticator

    function State(): Registry
      reads this
    {
      Registry(users, roles, nextUserId, nextRoleId)
    }

    ghost predicate Valid()
      reads this
    {
      Consistent(State())
    }

    constructor (initial: Registry, encoder: PasswordEncoder, jwt: JwtService, authenticate: Authenticator)
      requires Consistent(initial)
      ensures State() == initial && Valid()
      ensures this.encoder == encoder && this.jwt == jwt && this.authenticate == authenticate
    {
      users, roles, nextUserId, nextRoleId := initial.users, initial.roles, initial.nextUserId, initial.nextRoleId;
      this.encoder, this.jwt, this.authenticate := encoder, jwt, authenticate;
    }

    /** `register(request)`: refuse a taken username, then a taken email; make sure
        the default role exists; store the new user; answer with fresh tokens. */
    method Register(req: RegisterRequest) returns (r: Result<AuthResponse>)
      requires Valid() && RegisterFieldsPresent(req)
      modifies this
      ensures Valid()
      ensures Registered(old(State()), req, encoder).Err? ==>
                State() == old(State()) && r == Err(Registered(old(State()), req, encoder).message)
      ensures Registered(old(State()), req, encoder).Ok? ==>
                State() == Registered(old(State()), req, encoder).value
                && var user := users[req.username.value];
                   var details := DetailsOf(user);
                   r == Ok(ResponseFor(user, details, jwt.generateRefreshToken(details), jwt))
    {
      var username := req.username.value;
      if username in users {
        return Err(UsernameExists);
      }
      if EmailTaken(users, req.email.value) {
        return Err(EmailExists);
      }
      ghost var before := State();
      var found := FindByRoleName(roles, UserRoleName);
      var role: AppRole;
      if found.Some? {
        role := found.value;
      } else {
        role := AppRole(nextRoleId, UserRoleName);
        roles := roles[UserRoleName := role];
        nextRoleId := nextRoleId + 1;
      }
      var user := AppUser(nextUserId, username, req.email.value, encoder.encode(req.password.value),
                          req.firstName, req.lastName, true, [role]);
      users := users[username := user];
      nextUserId := nextUserId + 1;
      RegisterKeepsConsistent(before, req, encoder);
      var details := LoadUserByUsername(users, username);
      var accessToken := jwt.generateToken(details.value);
      var refreshToken := jwt.generateRefreshToken(details.value);
      r := Ok(AuthResponse(accessToken, refreshToken, BearerType, jwt.expirationTime, UserInfoOf(user)));
    }

    /** `login(request)`: the authentication manager decides; then the user is
        looked up and answered with fresh tokens. Nothing is stored. */
    method Login(req: LoginRequest) returns (r: Result<AuthResponse>)
      requires Valid() && req.username.Some? && req.password.Some?
      ensures !authenticate(users, req.username.value, req.password.value) ==> r == Err(BadCredentials)
      ensures authenticate(users, req.username.value, req.password.value) && req.username.value !in users ==>
                r == Err(UserNotFound)
      ensures r.Ok? <==> authenticate(users, req.username.value, req.password.value) && req.username.value in users
      ensures r.Ok? ==> var user := users[req.username.value];
                        var details := DetailsOf(user);
                        r.value == ResponseFor(user, details, jwt.generateRefreshToken(details), jwt)
    {
      var username := req.username.value;
      if !authenticate(users, username, req.password.value) {
        return Err(BadCredentials);
      }
      var found := FindByUsername(users, username);
      if found.None? {
        return Err(UserNotFound);
      }
      var user := found.value;
      var details := LoadUserByUsername(users, user.username);
      var accessToken := jwt.generateToken(details.value);
      var refreshToken := jwt.generateRefreshToken(details.value);
      r := Ok(AuthResponse(accessToken, refreshToken, BearerType, jwt.expirationTime, UserInfoOf(user)));
    }

    /** `refreshToken(request)`: the token must name a stored user and be valid for
        it; the answer carries a new access token and the same refresh token. The
        later "User not found" branch of the source cannot be taken, because the
        user was just loaded. */
    method RefreshToken(req: RefreshTokenRequest) returns (r: Result<AuthResponse>)
      requires req.refreshToken.Some?
      ensures var t := req.refreshToken.value;
              r.Ok? <==> jwt.extractUsername(t).Some? && jwt.extractUsername(t).value in users
                         && jwt.isTokenValid(t, DetailsOf(users[jwt.extractUsername(t).value]))
      ensures var t := req.refreshToken.value;
              jwt.extractUsername(t).None? ==> r == Err(MalformedToken)
      ensures var t := req.refreshToken.value;
              jwt.extractUsername(t).Some? && jwt.extractUsername(t).value !in users ==>
                r == Err(NotFoundPrefix + jwt.extractUsername(t).value)
      ensures var t := req.refreshToken.value;
              jwt.extractUsername(t).Some? && jwt.extractUsername(t).value in users
              && !jwt.isTokenValid(t, DetailsOf(users[jwt.extractUsername(t).value])) ==>
                r == Err(InvalidRefreshToken)
      ensures r.Ok? ==> var t := req.refreshToken.value;
                        var user := users[jwt.extractUsername(t).value];
                        r.value == ResponseFor(user, DetailsOf(user), t, jwt)
    {
      var token := req.refreshToken.value;
      var extracted := jwt.extractUsername(token);
      if extracted.None? {
        return Err(MalformedToken);
      }
      var username := extracted.value;
      var loaded := LoadUserByUsername(users, username);
      if loaded.Err? {
        return Err(loaded.message);
      }
      var details := loaded.value;
      if !jwt.isTokenValid(token, details) {
        return Err(InvalidRefreshToken);
      }
      var user := FindByUsername(users, username).value;
      var accessToken := jwt.generateToken(details);
      r := Ok(AuthResponse(accessToken, token, BearerType, jwt.expirationTime, UserInfoOf(user)));
    }

    /** `changePassword(username, request)`: on success only that user's password
        changes; on failure nothing does. */
    method ChangePassword(username: string, req: ChangePasswordRequest) returns (r: Result<MessageResponse>)
      requires Valid() && ChangeFieldsPresent(req)
      modifies this
      ensures Valid()
      ensures PasswordChangedIn(old(State()), username, req, encoder).Err? ==>
                State() == old(State()) && r == Err(PasswordChangedIn(old(State()), username, req, encoder).message)
      ensures PasswordChangedIn(old(State()), username, req, encoder).Ok? ==>
                State() == PasswordChangedIn(old(State()), username, req, encoder).value
                && r == Ok(MessageResponse(PasswordChanged, true))
    {
      var found := FindByUsername(users, username);
      if found.None? {
        return Err(UserNotFound);
      }
      var user := found.value;
      if !encoder.matches(req.currentPassword.value, user.password) {
        return Err(WrongCurrentPassword);
      }
      if req.newPassword != req.confirmPassword {
        return Err(PasswordsDiffer);
      }
      ChangePasswordKeepsConsistent(State(), username, req, encoder);
      user := user.(password := encoder.encode(req.newPassword.value));
      users := users[username := user];
      r := Ok(MessageResponse(PasswordChanged, true));
    }

    /** `getCurrentUser(username)`. */
    method GetCurrentUser(username: string) returns (r: Result<UserInfo>)
      ensures r.Ok? <==> username in users
      ensures r.Ok? ==> r.value == UserInfoOf(users[username])
      ensures r.Err? ==> r.message == UserNotFound
    {
      var found := FindByUsername(users, username);
      if found.None? {
        return Err(UserNotFound);
      }
      r := Ok(UserInfoOf(found.value));
    }

    /** `findByUsername(username)`. */
    method FindUser(username: string) returns (r: Result<AppUser>)
      ensures r.Ok? <==> username in users
      ensures r.Ok? ==> r.value == users[username]
      ensures r.Err? ==> r.message == NotFoundPrefix + username
    {
      var found := FindByUsername(users, username);
      if found.None? {
        return Err(NotFoundPrefix + username);
      }
      r := Ok(found.value);
    }
  }
}
