/** The profile page: shows the current user and changes the password through a
    form whose validity gates the request. */
module Profile {
  import opened Wrappers
  import opened AuthModel
  import Auth

  const MinPasswordLength := 6
  const MismatchKey := "mismatch"
  const ChangeFailedText := "Failed to change password"

  /** The form as `fb.group` builds it: three empty controls. */
  const InitialForm := ChangePasswordRequest(Some(""), Some(""), Some(""))
  /** The form after `reset()`: every control null. */
  const ResetForm := ChangePasswordRequest(None, None, None)

  /** `Validators.required`: neither null nor empty. */
  function Required(v: Option<string>): (b: bool)
    ensures v.None? ==> !b
    ensures v.Some? ==> (b <==> |v.value| > 0)
  {
    v.Some? && v.value != ""
  }

  /** `Validators.minLength(n)`: an empty or null value passes; otherwise at least n characters. */
  function MinLength(v: Option<string>, n: nat): (b: bool)
    ensures v.None? || v.value == "" ==> b
    ensures v.Some? && v.value != "" ==> (b <==> |v.value| >= n)
  {
    v.None? || v.value == "" || |v.value| >= n
  }

  /** `passwordMatchValidator`: no error when the two controls are strictly equal,
      otherwise the `mismatch` error. */
  function PasswordMatchValidator(f: ChangePasswordRequest): (r: Option<map<string, bool>>)
    ensures r.None? <==> f.newPassword == f.confirmPassword
    ensures r.Some? ==> r.value == map[MismatchKey := true]
  {
    if f.newPassword == f.confirmPassword then None else Some(map[MismatchKey := true])
  }

  /** The form is valid when every control's validators and the group validator
      pass: exactly when it holds three non-empty passwords, the new one at least six
      characters long and equal to its confirmation. */
  function FormValid(f: ChangePasswordRequest): (b: bool)
    ensures b <==>
              f.currentPassword.Some? && f.currentPassword.value != ""
              && f.newPassword.Some? && |f.newPassword.value| >= MinPasswordLength
              && f.confirmPassword == f.newPassword
  {
    Required(f.currentPassword)
    && Required(f.newPassword) && MinLength(f.newPassword, MinPasswordLength)
    && Required(f.confirmPassword)
    && PasswordMatchValidator(f).None?
  }

  /** Neither the initial form nor a reset form can be submitted. */
  lemma FreshFormsInvalid()
    ensures !FormValid(InitialForm) && !FormValid(ResetForm)
  {
  }

  /** The text shown on failure: the error's message, or the fallback when it is empty. */
  function ChangeErrorText(message: string): (r: string)
    ensures r != ""
    ensures message != "" ==> r == message
    ensures message == "" ==> r == ChangeFailedText
  {
    if message != "" then message else ChangeFailedText
  }

  /** Errors reach the page through `handleError`, whose message is never empty, so
      the fallback text is never the one shown. */
  lemma FallbackNeverShown(e: Auth.HttpError)
    ensures ChangeErrorText(Auth.HandleError(e)) == Auth.HandleError(e)
  {
  }

  class ProfileComponent {
    var user: Option<User>
    var form: ChangePasswordRequest
    var loading: bool
    var error: string
    var success: string
    var showCurrentPassword: bool
    var showNewPassword: bool
    var showConfirmPassword: bool
    const auth: Auth.AuthService

    constructor (auth: Auth.AuthService)
      ensures this.auth == auth && user.None? && form == InitialForm
      ensures !loading && error == "" && success == ""
      ensures !showCurrentPassword && !showNewPassword && !showConfirmPassword
    {
      this.auth := auth;
      user, form, loading, error, success := None, InitialForm, false, "", "";
      showCurrentPassword, showNewPassword, showConfirmPassword := false, false, false;
    }

    /** `ngOnInit()`: take the current user (the subject replays it at once) and
        build the empty form. */
    method NgOnInit()
      modifies this
      ensures user == auth.currentUser && form == InitialForm
      ensures loading == old(loading) && error == old(error) && success == old(success)
      ensures showCurrentPassword == old(showCurrentPassword) && showNewPassword == old(showNewPassword)
      ensures showConfirmPassword == old(showConfirmPassword)
    {
      user := auth.currentUser;
      form := InitialForm;
    }

    /** A later emission of the current user. */
    method OnUserChanged(u: Option<User>)
      modifies this
      ensures user == u && form == old(form)
      ensures loading == old(loading) && error == old(error) && success == old(success)
      ensures showCurrentPassword == old(showCurrentPassword) && showNewPassword == old(showNewPassword)
      ensures showConfirmPassword == old(showConfirmPassword)
    {
      user := u;
    }

    method ToggleCurrentPassword()
      modifies this
      ensures showCurrentPassword == !old(showCurrentPassword)
      ensures showNewPassword == old(showNewPassword) && showConfirmPassword == old(showConfirmPassword)
      ensures user == old(user) && form == old(form)
      ensures loading == old(loading) && error == old(error) && success == old(success)
    {
      showCurrentPassword := !showCurrentPassword;
    }

    method ToggleNewPassword()
      modifies this
      ensures showNewPassword == !old(showNewPassword)
      ensures showCurrentPassword == old(showCurrentPassword) && showConfirmPassword == old(showConfirmPassword)
      ensures user == old(user) && form == old(form)
      ensures loading == old(loading) && error == old(error) && success == old(success)
    {
      showNewPassword := !showNewPassword;
    }

    method ToggleConfirmPassword()
      modifies this
      ensures showConfirmPassword == !old(showConfirmPassword)
      ensures showCurrentPassword == old(showCurrentPassword) && showNewPassword == old(showNewPassword)
      ensures user == old(user) && form == old(form)
      ensures loading == old(loading) && error == old(error) && success == old(success)
    {
      showConfirmPassword := !showConfirmPassword;
    }

    /** `onChangePassword()`: an invalid form does nothing; a valid one clears both
        messages, sets loading and sends the form's values. */
    method OnChangePassword()
      modifies this, auth
      ensures !FormValid(old(form)) ==>
                loading == old(loading) && error == old(error) && success == old(success)
                && auth.requests == old(auth.requests)
      ensures FormValid(old(form)) ==>
                loading && error == "" && success == ""
                && auth.requests == old(auth.requests) + [Auth.ChangePasswordCall(old(form))]
      ensures form == old(form) && user == old(user)
      ensures showCurrentPassword == old(showCurrentPassword) && showNewPassword == old(showNewPassword)
      ensures showConfirmPassword == old(showConfirmPassword)
      ensures auth.storage == old(auth.storage) && auth.currentUser == old(auth.currentUser)
      ensures auth.isAuthenticated == old(auth.isAuthenticated) && auth.navigations == old(auth.navigations)
    {
      if !FormValid(form) {
        return;
      }
      loading := true;
      error := "";
      success := "";
      auth.ChangePassword(form);
    }

    /** The success handler: show the server's message, reset the form, stop loading. */
    method OnChangeSuccess(resp: MessageResponse)
      modifies this
      ensures success == resp.message && form == ResetForm && !loading
      ensures error == old(error) && user == old(user)
      ensures showCurrentPassword == old(showCurrentPassword) && showNewPassword == old(showNewPassword)
      ensures showConfirmPassword == old(showConfirmPassword)
    {
      success := resp.message;
      form := ResetForm;
      loading := false;
    }

    /** The error handler: show the error's message (or the fallback) and stop
        loading; the form keeps its values. */
    method OnChangeError(e: Auth.HttpError)
      modifies this
      ensures error == ChangeErrorText(Auth.HandleError(e)) && !loading
      ensures success == old(success) && form == old(form) && user == old(user)
      ensures showCurrentPassword == old(showCurrentPassword) && showNewPassword == old(showNewPassword)
      ensures showConfirmPassword == old(showConfirmPassword)
    {
      error := ChangeErrorText(Auth.HandleError(e));
      loading := false;
    }
  }
}
