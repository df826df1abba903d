/** The client-side session: tokens and the user kept in the browser's storage,
    the current user and the authenticated flag, and the handlers of the
    authentication calls. */
module Auth {
  import opened Wrappers
  import opened AuthModel

  const AccessTokenKey := "access_token"
  const RefreshTokenKey := "refresh_token"
  const UserKey := "current_user"

  const DefaultErrorText := "An error occurred"
  const LoginRoute := "/login"

  /** A stored value: a token string, or the user kept as JSON (its round trip
      taken as the identity). */
  datatype StoredItem = Text(text: string) | UserJson(user: User)

  type Storage = map<string, StoredItem>

  /** `localStorage.getItem(key)`. */
  function GetItem(st: Storage, key: string): (r: Option<StoredItem>)
    ensures r.Some? <==> key in st
    ensures r.Some? ==> r.value == st[key]
  {
    if key in st then Some(st[key]) else None
  }

  /** JavaScript truthiness of a `getItem` result: null and the empty string are
      falsy; any other string, the JSON text of a user included, is truthy. */
  function Truthy(item: Option<StoredItem>): (b: bool)
    ensures item.None? ==> !b
    ensures item.Some? && item.value.Text? ==> (b <==> item.value.text != "")
    ensures item.Some? && item.value.UserJson? ==> b
  {
    item.Some? && item.value != Text("")
  }

  /** `getStoredUser()`: the user kept under the user key, if any. A plain string
      there is read as no user. */
  function StoredUser(st: Storage): (u: Option<User>)
    ensures u.Some? <==> UserKey in st && st[UserKey].UserJson?
    ensures u.Some? ==> u.value == st[UserKey].user
  {
    if UserKey in st && st[UserKey].UserJson? then Some(st[UserKey].user) else None
  }

  /** `isLoggedIn()`: a non-empty access token is stored. */
  function LoggedIn(st: Storage): (b: bool)
    ensures b <==> AccessTokenKey in st && st[AccessTokenKey] != Text("")
  {
    Truthy(GetItem(st, AccessTokenKey))
  }

  /** The condition under which `checkAuthStatus()` restores a session: both an
      access token and a stored user. */
  function RestoresSession(st: Storage): (b: bool)
    ensures b <==> LoggedIn(st) && UserKey in st && st[UserKey].UserJson?
  {
    Truthy(GetItem(st, AccessTokenKey)) && StoredUser(st).Some?
  }

  /** The storage `handleAuthResponse(response)` leaves: the two tokens and the user
      under their keys, everything else untouched. */
  function WithAuthResponse(st: Storage, resp: AuthResponse): (r: Storage)
    ensures r.Keys == st.Keys + {AccessTokenKey, RefreshTokenKey, UserKey}
    ensures r[AccessTokenKey] == Text(resp.accessToken)
    ensures r[RefreshTokenKey] == Text(resp.refreshToken)
    ensures r[UserKey] == UserJson(resp.user)
    ensures forall k :: k in st && k !in {AccessTokenKey, RefreshTokenKey, UserKey} ==> r[k] == st[k]
  {
    st[AccessTokenKey := Text(resp.accessToken)][RefreshTokenKey := Text(resp.refreshToken)][UserKey := UserJson(resp.user)]
  }

  /** The storage `clearStorage()` leaves: exactly the three keys removed. */
  function Cleared(st: Storage): (r: Storage)
    ensures r.Keys == st.Keys - {AccessTokenKey, RefreshTokenKey, UserKey}
    ensures forall k :: k in r ==> r[k] == st[k]
  {
    st - {AccessTokenKey, RefreshTokenKey, UserKey}
  }

  /** After an authentication response the stored user is the response's user, and
      the stored state counts as logged in, and restores the session on the next
      start, exactly when the access token is non-empty. */
  lemma AuthResponseRestores(st: Storage, resp: AuthResponse)
    ensures StoredUser(WithAuthResponse(st, resp)) == Some(resp.user)
    ensures LoggedIn(WithAuthResponse(st, resp)) <==> resp.accessToken != ""
    ensures RestoresSession(WithAuthResponse(st, resp)) <==> resp.accessToken != ""
  {
  }

  /** Cleared storage is logged out, holds no user and restores no session. */
  lemma ClearedIsLoggedOut(st: Storage)
    ensures !LoggedIn(Cleared(st)) && StoredUser(Cleared(st)).None? && !RestoresSession(Cleared(st))
  {
  }

  /** `hasRole(role)`: false without a current user, otherwise membership in its roles. */
  function HasRole(user: Option<User>, role: string): (b: bool)
    ensures user.None? ==> !b
    ensures user.Some? ==> (b <==> role in user.value.roles)
  {
    user.Some? && role in user.value.roles
  }

  /** The body of a failed HTTP response (`error.error`) and the failure itself. */
  datatype ErrorBody = ErrorBody(message: Option<string>)
  datatype HttpError = HttpError(body: Option<ErrorBody>, message: Option<string>)

  /** `handleError(error)`: the message of the error it rethrows — the body's message,
      else the error's own, else a default; an empty message counts as absent. */
  function HandleError(e: HttpError): (msg: string)
    ensures msg != ""
    ensures e.body.Some? && e.body.value.message.Some? && e.body.value.message.value != "" ==>
              msg == e.body.value.message.value
    ensures !(e.body.Some? && e.body.value.message.Some? && e.body.value.message.value != "") ==>
              (e.message.Some? && e.message.value != "" ==> msg == e.message.value)
              && (e.message.None? || e.message.value == "" ==> msg == DefaultErrorText)
  {
    if e.body.Some? && e.body.value.message.Some? && e.body.value.message.value != "" then e.body.value.message.value
    else if e.message.Some? && e.message.value != "" then e.message.value
    else DefaultErrorText
  }

  /** The HTTP calls the service issues. */
  datatype Request =
    | RegisterCall(register: RegisterRequest)
    | LoginCall(login: LoginRequest)
    | LogoutCall
    | RefreshCall(refreshToken: Option<StoredItem>)
    | ChangePasswordCall(change: ChangePasswordRequest)
    | CurrentUserCall

  class AuthService {
    var storage: Storage
    /** The value of `currentUserSubject`. */
    var currentUser: Option<User>
    /** The value of `isAuthenticatedSubject`. */
    var isAuthenticated: bool
    /** The routes navigated to, in order. */
    var navigations: seq<string>
    /** The HTTP calls issued so far. */
    var requests: seq<Request>

    /** The constructor starts logged out and then runs `checkAuthStatus()`. */
    constructor (initial: Storage)
      ensures storage == initial && navigations == [] && requests == []
      ensures isAuthenticated <==> RestoresSession(initial)
      ensures currentUser == if RestoresSession(initial) then StoredUser(initial) else None
    {
      storage, currentUser, isAuthenticated, navigations, requests := initial, None, false, [], [];
      new;
      CheckAuthStatus();
    }

    /** `checkAuthStatus()`: restore the session when both a token and a user are stored. */
    method CheckAuthStatus()
      modifies this
      ensures RestoresSession(storage) ==> currentUser == StoredUser(storage) && isAuthenticated
      ensures !RestoresSession(storage) ==> currentUser == old(currentUser) && isAuthenticated == old(isAuthenticated)
      ensures storage == old(storage) && navigations == old(navigations) && requests == old(requests)
    {
      var token := GetItem(storage, AccessTokenKey);
      var user := StoredUser(storage);
      if Truthy(token) && user.Some? {
        currentUser := user;
        isAuthenticated := true;
      }
    }

    /** `getStoredUser()`. */
    function GetStoredUser(): (u: Option<User>)
      reads this
      ensures u.Some? <==> UserKey in storage && storage[UserKey].UserJson?
      ensures u.Some? ==> u.value == storage[UserKey].user
    {
      StoredUser(storage)
    }

    /** `isLoggedIn()`. */
    function IsLoggedIn(): (b: bool)
      reads this
      ensures b <==> AccessTokenKey in storage && storage[AccessTokenKey] != Text("")
    {
      LoggedIn(storage)
    }

    /** `hasRole(role)` on the current user. */
    function UserHasRole(role: string): (b: bool)
      reads this
      ensures b <==> currentUser.Some? && role in currentUser.value.roles
    {
      HasRole(currentUser, role)
    }

    /** `handleAuthResponse(response)`: store both tokens and the user, publish the
        user and mark the session authenticated. */
    method HandleAuthResponse(resp: AuthResponse)
      modifies this
      ensures storage == WithAuthResponse(old(storage), resp)
      ensures currentUser == Some(resp.user) && isAuthenticated
      ensures navigations == old(navigations) && requests == old(requests)
    {
      storage := storage[AccessTokenKey := Text(resp.accessToken)];
      storage := storage[RefreshTokenKey := Text(resp.refreshToken)];
      storage := storage[UserKey := UserJson(resp.user)];
      currentUser := Some(resp.user);
      isAuthenticated := true;
    }

    /** `clearStorage()`: remove the three keys. */
    method ClearStorage()
      modifies this
      ensures storage == Cleared(old(storage))
      ensures currentUser == old(currentUser) && isAuthenticated == old(isAuthenticated)
      ensures navigations == old(navigations) && requests == old(requests)
    {
      storage := storage - {AccessTokenKey};
      storage := storage - {RefreshTokenKey};
      storage := storage - {UserKey};
    }

    /** `register(request)`. The reply runs `OnAuthSuccess`; a failure is mapped by `HandleError`. */
    method Register(req: RegisterRequest)
      modifies this
      ensures requests == old(requests) + [RegisterCall(req)]
      ensures storage == old(storage) && currentUser == old(currentUser)
      ensures isAuthenticated == old(isAuthenticated) && navigations == old(navigations)
    {
      requests := requests + [RegisterCall(req)];
    }

    /** `login(request)`. The reply runs `OnAuthSuccess`; a failure is mapped by `HandleError`. */
    method Login(req: LoginRequest)
      modifies this
      ensures requests == old(requests) + [LoginCall(req)]
      ensures storage == old(storage) && currentUser == old(currentUser)
      ensures isAuthenticated == old(isAuthenticated) && navigations == old(navigations)
    {
      requests := requests + [LoginCall(req)];
    }

    /** The `tap` of register, login and refresh. */
    method OnAuthSuccess(resp: AuthResponse)
      modifies this
      ensures storage == WithAuthResponse(old(storage), resp)
      ensures currentUser == Some(resp.user) && isAuthenticated
      ensures navigations == old(navigations) && requests == old(requests)
    {
      HandleAuthResponse(resp);
    }

    /** `logout()`: call the back end; the session ends when the call settles. */
    method Logout()
      modifies this
      ensures requests == old(requests) + [LogoutCall]
      ensures storage == old(storage) && currentUser == old(currentUser)
      ensures isAuthenticated == old(isAuthenticated) && navigations == old(navigations)
    {
      requests := requests + [LogoutCall];
    }

    /** The `complete` handler of `logout()`: clear storage, no user, not
        authenticated, go to the login page. */
    method OnLogoutComplete()
      modifies this
      ensures storage == Cleared(old(storage)) && currentUser.None? && !isAuthenticated
      ensures navigations == old(navigations) + [LoginRoute] && requests == old(requests)
    {
      ClearStorage();
      currentUser := None;
      isAuthenticated := false;
      navigations := navigations + [LoginRoute];
    }

    /** The `error` handler of `logout()`: the same end state as on completion. */
    method OnLogoutError()
      modifies this
      ensures storage == Cleared(old(storage)) && currentUser.None? && !isAuthenticated
      ensures navigations == old(navigations) + [LoginRoute] && requests == old(requests)
    {
      ClearStorage();
      currentUser := None;
      isAuthenticated := false;
      navigations := navigations + [LoginRoute];
    }

    /** `refreshToken()`: send the stored refresh token. */
    method RefreshToken()
      modifies this
      ensures requests == old(requests) + [RefreshCall(GetItem(storage, RefreshTokenKey))]
      ensures storage == old(storage) && currentUser == old(currentUser)
      ensures isAuthenticated == old(isAuthenticated) && navigations == old(navigations)
    {
      requests := requests + [RefreshCall(GetItem(storage, RefreshTokenKey))];
    }

    /** The `catchError` of `refreshToken()`: a failed refresh logs out. */
    method OnRefreshError()
      modifies this
      ensures requests == old(requests) + [LogoutCall]
      ensures storage == old(storage) && currentUser == old(currentUser)
      ensures isAuthenticated == old(isAuthenticated) && navigations == old(navigations)
    {
      Logout();
    }

    /** `changePassword(request)`; a failure is mapped by `HandleError`. */
    method ChangePassword(req: ChangePasswordRequest)
      modifies this
      ensures requests == old(requests) + [ChangePasswordCall(req)]
      ensures storage == old(storage) && currentUser == old(currentUser)
      ensures isAuthenticated == old(isAuthenticated) && navigations == old(navigations)
    {
      requests := requests + [ChangePasswordCall(req)];
    }

    /** `getCurrentUser()`. */
    method GetCurrentUser()
      modifies this
      ensures requests == old(requests) + [CurrentUserCall]
      ensures storage == old(storage) && currentUser == old(currentUser)
      ensures isAuthenticated == old(isAuthenticated) && navigations == old(navigations)
    {
      requests := requests + [CurrentUserCall];
    }

    /** The `tap` of `getCurrentUser()`: publish and store the user. */
    method OnCurrentUser(user: User)
      modifies this
      ensures currentUser == Some(user) && storage == old(storage)[UserKey := UserJson(user)]
      ensures isAuthenticated == old(isAuthenticated) && navigations == old(navigations) && requests == old(requests)
    {
      currentUser := Some(user);
      storage := storage[UserKey := UserJson(user)];
    }
  }
}
