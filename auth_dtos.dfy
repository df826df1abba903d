/** The authentication request and response records of the back end, and the
    bean-validation constraints declared on the requests. A Java `String` that may
    be null is an `Option<string>`. */
module AuthDtos {
  import opened Wrappers

  const UsernameRequired := "Username is required"
  const UsernameSize := "Username must be between 3 and 50 characters"
  const EmailRequired := "Email is required"
  const EmailInvalid := "Invalid email format"
  const PasswordRequired := "Password is required"
  const PasswordSize := "Password must be at least 6 characters"
  const CurrentPasswordRequired := "Current password is required"
  const NewPasswordRequired := "New password is required"
  const NewPasswordSize := "New password must be at least 6 characters"
  const ConfirmPasswordRequired := "Confirm password is required"
  const RefreshTokenRequired := "Refresh token is required"

  const UsernameMin := 3
  const UsernameMax := 50
  const PasswordMin := 6

  datatype RegisterRequest = RegisterRequest(
    username: Option<string>,
    email: Option<string>,
    password: Option<string>,
    firstName: Option<string>,
    lastName: Option<string>)

  datatype LoginRequest = LoginRequest(username: Option<string>, password: Option<string>)

  datatype ChangePasswordRequest = ChangePasswordRequest(
    currentPassword: Option<string>,
    newPassword: Option<string>,
    confirmPassword: Option<string>)

  datatype RefreshTokenRequest = RefreshTokenRequest(refreshToken: Option<string>)

  datatype UserInfo = UserInfo(
    id: int,
    username: string,
    email: string,
    firstName: Option<string>,
    lastName: Option<string>,
    roles: seq<string>)

  datatype AuthResponse = AuthResponse(
    accessToken: string,
    refreshToken: string,
    tokenType: string,
    expiresIn: int,
    user: UserInfo)

  datatype MessageResponse = MessageResponse(message: string, success: bool)

  /** `@NotBlank`: not null, and something is left after Java's `trim()`, which
      strips every character up to U+0020. */
  predicate NotBlank(v: Option<string>) {
    v.Some? && exists i :: 0 <= i < |v.value| && v.value[i] > ' '
  }

  /** `@Size(min, max)`: null passes; otherwise the length lies in the range. */
  predicate SizeBetween(v: Option<string>, min: nat, max: nat) {
    v.None? || min <= |v.value| <= max
  }

  /** `@Size(min)` without a maximum. */
  predicate SizeAtLeast(v: Option<string>, min: nat) {
    v.None? || min <= |v.value|
  }

  /** `@Email`, an abstract format check; null passes. */
  predicate EmailFormat(v: Option<string>, isEmail: string -> bool) {
    v.None? || isEmail(v.value)
  }

  predicate RegisterValid(r: RegisterRequest, isEmail: string -> bool) {
    NotBlank(r.username) && SizeBetween(r.username, UsernameMin, UsernameMax)
    && NotBlank(r.email) && EmailFormat(r.email, isEmail)
    && NotBlank(r.password) && SizeAtLeast(r.password, PasswordMin)
  }

  predicate LoginValid(r: LoginRequest) {
    NotBlank(r.username) && NotBlank(r.password)
  }

  /** No equality between the new password and its confirmation is required here. */
  predicate ChangePasswordValid(r: ChangePasswordRequest) {
    NotBlank(r.currentPassword) && NotBlank(r.newPassword) && SizeAtLeast(r.newPassword, PasswordMin)
    && NotBlank(r.confirmPassword)
  }

  predicate RefreshTokenValid(r: RefreshTokenRequest) {
    NotBlank(r.refreshToken)
  }

  /** The messages of the violated constraints of a registration. */
  function RegisterViolations(r: RegisterRequest, isEmail: string -> bool): (v: set<string>)
    ensures v == {} <==> RegisterValid(r, isEmail)
    ensures UsernameRequired in v <==> !NotBlank(r.username)
    ensures UsernameSize in v <==> !SizeBetween(r.username, UsernameMin, UsernameMax)
    ensures EmailRequired in v <==> !NotBlank(r.email)
    ensures EmailInvalid in v <==> !EmailFormat(r.email, isEmail)
    ensures PasswordRequired in v <==> !NotBlank(r.password)
    ensures PasswordSize in v <==> !SizeAtLeast(r.password, PasswordMin)
  {
    (if NotBlank(r.username) then {} else {UsernameRequired})
    + (if SizeBetween(r.username, UsernameMin, UsernameMax) then {} else {UsernameSize})
    + (if NotBlank(r.email) then {} else {EmailRequired})
    + (if EmailFormat(r.email, isEmail) then {} else {EmailInvalid})
    + (if NotBlank(r.password) then {} else {PasswordRequired})
    + (if SizeAtLeast(r.password, PasswordMin) then {} else {PasswordSize})
  }

  function LoginViolations(r: LoginRequest): (v: set<string>)
    ensures v == {} <==> LoginValid(r)
    ensures UsernameRequired in v <==> !NotBlank(r.username)
    ensures PasswordRequired in v <==> !NotBlank(r.password)
  {
    (if NotBlank(r.username) then {} else {UsernameRequired})
    + (if NotBlank(r.password) then {} else {PasswordRequired})
  }

  function ChangePasswordViolations(r: ChangePasswordRequest): (v: set<string>)
    ensures v == {} <==> ChangePasswordValid(r)
    ensures CurrentPasswordRequired in v <==> !NotBlank(r.currentPassword)
    ensures NewPasswordRequired in v <==> !NotBlank(r.newPassword)
    ensures NewPasswordSize in v <==> !SizeAtLeast(r.newPassword, PasswordMin)
    ensures ConfirmPasswordRequired in v <==> !NotBlank(r.confirmPassword)
  {
    (if NotBlank(r.currentPassword) then {} else {CurrentPasswordRequired})
    + (if NotBlank(r.newPassword) then {} else {NewPasswordRequired})
    + (if SizeAtLeast(r.newPassword, PasswordMin) then {} else {NewPasswordSize})
    + (if NotBlank(r.confirmPassword) then {} else {ConfirmPasswordRequired})
  }

  function RefreshTokenViolations(r: RefreshTokenRequest): (v: set<string>)
    ensures v == {} <==> RefreshTokenValid(r)
    ensures RefreshTokenRequired in v <==> !NotBlank(r.refreshToken)
  {
    if NotBlank(r.refreshToken) then {} else {RefreshTokenRequired}
  }

  /** A valid registration has a username of 3 to 50 characters, not all of them
      blank; a non-blank email of the accepted format; and a non-blank password of
      at least 6 characters. The names are unconstrained. */
  lemma RegisterValidMeans(r: RegisterRequest, isEmail: string -> bool)
    ensures RegisterValid(r, isEmail) <==>
              r.username.Some? && UsernameMin <= |r.username.value| <= UsernameMax && NotBlank(r.username)
              && r.email.Some? && isEmail(r.email.value) && NotBlank(r.email)
              && r.password.Some? && PasswordMin <= |r.password.value| && NotBlank(r.password)
    ensures RegisterValid(r, isEmail) ==> RegisterValid(r.(firstName := None, lastName := None), isEmail)
  {
  }

  /** A valid password change holds three non-blank passwords, the new one of at
      least 6 characters, and may still differ from its confirmation. */
  lemma ChangePasswordValidMeans(r: ChangePasswordRequest)
    ensures ChangePasswordValid(r) <==>
              NotBlank(r.currentPassword) && NotBlank(r.confirmPassword)
              && NotBlank(r.newPassword) && PasswordMin <= |r.newPassword.value|
    ensures ChangePasswordValid(ChangePasswordRequest(Some("old"), Some("secret1"), Some("secret2")))
  {
    var r2 := ChangePasswordRequest(Some("old"), Some("secret1"), Some("secret2"));
    assert r2.currentPassword.value[0] > ' ';
    assert r2.newPassword.value[0] > ' ';
    assert r2.confirmPassword.value[0] > ' ';
  }

  /** The two username messages, for every request: the required message exactly
      when the name is null or made only of characters up to U+0020, and the size
      message exactly when a present name has fewer than 3 or more than 50
      characters. A null name therefore gets only the first, and a short blank one
      both. */
  lemma UsernameMessages(r: RegisterRequest, isEmail: string -> bool)
    ensures UsernameRequired in RegisterViolations(r, isEmail) <==>
              r.username.None? || forall i :: 0 <= i < |r.username.value| ==> r.username.value[i] <= ' '
    ensures UsernameSize in RegisterViolations(r, isEmail) <==>
              r.username.Some? && (|r.username.value| < UsernameMin || UsernameMax < |r.username.value|)
  {
  }

  /** A blank token is refused. */
  lemma BlankTokenRefused(t: string)
    requires forall i :: 0 <= i < |t| ==> t[i] <= ' '
    ensures !RefreshTokenValid(RefreshTokenRequest(Some(t)))
    ensures RefreshTokenRequired in RefreshTokenViolations(RefreshTokenRequest(Some(t)))
  {
  }
}
