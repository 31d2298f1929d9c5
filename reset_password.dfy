/**
  The reset-link page: the link's token is checked when the page mounts, the form is
  rendered only once the token was accepted, and submitting sends the new password.
*/
module ResetPassword {
  import opened Wrappers
  import opened Effects
  import Api

  const InvalidLink := "Invalid reset link"
  const ExpiredLink := "Invalid or expired reset link"
  const Mismatch := "Passwords do not match"
  const ResetSucceeded := "Password has been reset successfully!"
  const ResetFailed := "Failed to reset password"

  /** The `name` attributes of the two inputs. */
  datatype PasswordField = Password | ConfirmPassword

  /**
    Calling `authAPI[member]()` inside a `try`: a member the object does not define throws a
    TypeError, which the `catch` receives exactly like a rejected request.
  */
  function Invoke(member: string, serverAccepts: bool): (accepted: bool)
  {
    member in Api.Members && serverAccepts
  }

  /** The verification as the page performs it: through `authAPI.verifyResetToken`. */
  function VerificationAsWritten(serverAccepts: bool): bool
  {
    Invoke("verifyResetToken", serverAccepts)
  }

  /** `authAPI` has no `verifyResetToken`, so the verification fails whatever the server would answer. */
  lemma VerificationNeverSucceeds(serverAccepts: bool)
    ensures !VerificationAsWritten(serverAccepts)
  {
    assert "verifyResetToken" !in Api.Members;
  }

  class ResetPasswordPage {
    /** `searchParams.get('token')`. */
    const token: Option<string>
    var password: string
    var confirmPassword: string
    var isLoading: bool
    var isValidToken: bool
    /** The token verification started on mount has not settled yet. */
    var verifying: bool
    var effects: seq<Effect>

    /** The render gate: the form exists only for an accepted token. */
    predicate FormShown()
      reads this
    {
      isValidToken
    }

    /**
      Mounting runs the token check: without a token, back to the forgot-password page; with one,
      verify it. `verifierDefined` says whether `authAPI.verifyResetToken` exists: when it does not,
      the call throws before any request leaves, and the `catch` runs at once.
    */
    constructor (token: Option<string>, verifierDefined: bool)
      ensures this.token == token && password == "" && confirmPassword == ""
      ensures !isLoading && !isValidToken
      ensures !Api.Truthy(token) ==> !verifying && effects == [ToastError(InvalidLink, None), Navigate("/forgot-password")]
      ensures Api.Truthy(token) && verifierDefined ==> verifying && effects == [Send(VerifyResetToken(token.value))]
      ensures Api.Truthy(token) && !verifierDefined ==>
        !verifying && effects == [ToastError(ExpiredLink, None), Navigate("/forgot-password")]
    {
      this.token := token;
      password, confirmPassword := "", "";
      isLoading, isValidToken := false, false;
      if !Api.Truthy(token) {
        verifying := false;
        effects := [ToastError(InvalidLink, None), Navigate("/forgot-password")];
      } else if verifierDefined {
        verifying := true;
        effects := [Send(VerifyResetToken(token.value))];
      } else {
        verifying := false;
        effects := [ToastError(ExpiredLink, None), Navigate("/forgot-password")];
      }
    }

    /** The verification settles: acceptance opens the form; rejection leaves it closed and leaves the page. */
    method VerifySettled(accepted: bool)
      requires verifying
      modifies this
      ensures !verifying
      ensures isValidToken == (old(isValidToken) || accepted)
      ensures accepted ==> effects == old(effects)
      ensures !accepted ==> effects == old(effects) + [ToastError(ExpiredLink, None), Navigate("/forgot-password")]
      ensures password == old(password) && confirmPassword == old(confirmPassword) && isLoading == old(isLoading)
    {
      verifying := false;
      if accepted {
        isValidToken := true;
      } else {
        effects := effects + [ToastError(ExpiredLink, None), Navigate("/forgot-password")];
      }
    }

    /** `handleChange`: only the input's own field changes. */
    method Change(field: PasswordField, value: string)
      modifies this
      ensures field == Password ==> password == value && confirmPassword == old(confirmPassword)
      ensures field == ConfirmPassword ==> confirmPassword == value && password == old(password)
      ensures isLoading == old(isLoading) && isValidToken == old(isValidToken)
      ensures verifying == old(verifying) && effects == old(effects)
    {
      match field {
        case Password => password := value;
        case ConfirmPassword => confirmPassword := value;
      }
    }

    /**
      `handleSubmit` up to the request, on the rendered form with its button enabled.
      Mismatched passwords stop it before `isLoading` is touched; a missing token fails at once;
      otherwise the token goes out as the first argument of `resetPassword`.
    */
    method Submit()
      requires FormShown() && !isLoading
      modifies this
      ensures password == old(password) && confirmPassword == old(confirmPassword)
      ensures isValidToken == old(isValidToken) && verifying == old(verifying)
      ensures old(password) != old(confirmPassword) ==>
        !isLoading && effects == old(effects) + [ToastError(Mismatch, None)]
      ensures old(password) == old(confirmPassword) && !Api.Truthy(token) ==>
        !isLoading && effects == old(effects) + [ToastError(ResetFailed, None)]
      ensures old(password) == old(confirmPassword) && Api.Truthy(token) ==>
        isLoading && effects == old(effects) + [Send(Auth(Api.ResetPasswordCall(token.value, old(password))))]
    {
      if password != confirmPassword {
        effects := effects + [ToastError(Mismatch, None)];
        return;
      }
      isLoading := true;
      if !Api.Truthy(token) {
        effects := effects + [ToastError(ResetFailed, None)];
        isLoading := false;
        return;
      }
      effects := effects + [Send(Auth(Api.ResetPasswordCall(token.value, password)))];
    }

    /**
      The reset settles. The `catch` reads `error.response.data.message`, which the plain errors
      of the API service never have, so a failure always shows the fixed text.
    */
    method SubmitSettled(ok: bool)
      requires isLoading
      modifies this
      ensures !isLoading
      ensures ok ==> effects == old(effects) + [ToastSuccess(ResetSucceeded), Navigate("/login")]
      ensures !ok ==> effects == old(effects) + [ToastError(ResetFailed, None)]
      ensures password == old(password) && confirmPassword == old(confirmPassword)
      ensures isValidToken == old(isValidToken) && verifying == old(verifying)
    {
      if ok {
        effects := effects + [ToastSuccess(ResetSucceeded)];
      } else {
        effects := effects + [ToastError(ResetFailed, None)];
      }
      isLoading := false;
      if ok {
        effects := effects + [Navigate("/login")];
      }
    }
  }

  /**
    Opening a reset link whose verification the server answers with `serverAccepts`: the form
    shows exactly then, and a truthy token is sent for verification first.
  */
  method Visit(token: Option<string>, serverAccepts: bool) returns (shown: bool, log: seq<Effect>)
    ensures shown <==> Api.Truthy(token) && serverAccepts
    ensures Api.Truthy(token) ==> |log| > 0 && log[0] == Send(VerifyResetToken(token.value))
  {
    var page := new ResetPasswordPage(token, true);
    if page.verifying {
      page.VerifySettled(serverAccepts);
    }
    shown := page.FormShown();
    log := page.effects;
  }

  /**
    The same visit with the verification as the page performs it: the form never shows, no request
    leaves the page, and a truthy token is reported as an invalid or expired link.
  */
  method VisitAsWritten(token: Option<string>, serverAccepts: bool) returns (shown: bool, log: seq<Effect>)
    ensures !shown
    ensures forall e | e in log :: !e.Send?
    ensures Api.Truthy(token) ==> log == [ToastError(ExpiredLink, None), Navigate("/forgot-password")]
  {
    var page := new ResetPasswordPage(token, "verifyResetToken" in Api.Members);
    shown := page.FormShown();
    log := page.effects;
  }
}
