/** The front end's authentication shapes. */
module AuthModel {
  import opened Wrappers

  datatype User = User(
    id: int,
    username: string,
    email: string,
    firstName: Option<string>,
    lastName: Option<string>,
    roles: seq<string>)

  datatype AuthResponse = AuthResponse(
    accessToken: string,
    refreshToken: string,
    tokenType: string,
    expiresIn: int,
    user: User)

  datatype LoginRequest = LoginRequest(username: string, password: string)

  datatype RegisterRequest = RegisterRequest(
    username: string,
    email: string,
    password: string,
    firstName: Option<string>,
    lastName: Option<string>)

  /** A form's values; `None` is a null control (after `reset()`). */
  datatype ChangePasswordRequest = ChangePasswordRequest(
    currentPassword: Option<string>,
    newPassword: Option<string>,
    confirmPassword: Option<string>)

  datatype MessageResponse = MessageResponse(message: string, success: bool)
}
