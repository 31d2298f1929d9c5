/** The sign-in page: a double-submit guard, an empty-field check, and the login request. */
module Login {
  import opened Wrappers
  import opened Effects
  import Api

  const FieldsRequired := "Email and password are required"
  const LoginSucceeded := "Login successful!"

  datatype LoginField = Email | Password

  datatype Screen = Screen(email: string, password: string, isSubmitting: bool, isLoading: bool)

  /** The page's own fallback never shows for a failure of `authAPI.login`, which always carries a message. */
  lemma FallbackAlreadyApplied(reply: Api.Transport)
    requires Api.LoginOutcome(reply).Err?
    ensures OrElse(Api.LoginOutcome(reply).error, Api.LoginFailed) == Api.LoginOutcome(reply).error
  {
  }

  class LoginPage {
    var email: string
    var password: string
    var isSubmitting: bool
    /** Redux's `auth.isLoading` as this page reads and sets it. */
    var isLoading: bool
    var effects: seq<Effect>

    function Snapshot(): Screen
      reads this
    {
      Screen(email, password, isSubmitting, isLoading)
    }

    /** The submit button's `disabled` attribute. */
    predicate SubmitDisabled()
      reads this
    {
      isLoading || isSubmitting
    }

    /** Mounting resets the shared loading flag. */
    constructor ()
      ensures Snapshot() == Screen("", "", false, false)
      ensures effects == [Dispatch(SetLoading(false))]
    {
      email, password, isSubmitting := "", "", false;
      isLoading := false;
      effects := [Dispatch(SetLoading(false))];
    }

    /** `handleChange`: only the input's own field changes. */
    method Change(field: LoginField, value: string)
      modifies this
      ensures field == Email ==> Snapshot() == old(Snapshot()).(email := value)
      ensures field == Password ==> Snapshot() == old(Snapshot()).(password := value)
      ensures effects == old(effects)
    {
      match field {
        case Email => email := value;
        case Password => password := value;
      }
    }

    /**
      `handleSubmit` up to the request: a no-op whenever the button is disabled; with an empty
      field only an error toast; otherwise both flags go up and the login request is sent.
    */
    method Submit()
      modifies this
      ensures old(SubmitDisabled()) ==> Snapshot() == old(Snapshot()) && effects == old(effects)
      ensures !old(SubmitDisabled()) && (old(email) == "" || old(password) == "") ==>
        Snapshot() == old(Snapshot()) && effects == old(effects) + [ToastError(FieldsRequired, None)]
      ensures !old(SubmitDisabled()) && old(email) != "" && old(password) != "" ==>
        Snapshot() == old(Snapshot()).(isSubmitting := true, isLoading := true)
        && effects == old(effects) + [Dispatch(SetLoading(true)), Send(Auth(Api.LoginCall(old(email), old(password))))]
    {
      if isSubmitting || isLoading {
        return;
      }
      if email == "" || password == "" {
        effects := effects + [ToastError(FieldsRequired, None)];
        return;
      }
      isSubmitting := true;
      effects := effects + [Dispatch(SetLoading(true))];
      isLoading := true;
      effects := effects + [Send(Auth(Api.LoginCall(email, password)))];
    }

    /**
      The login promise settles with what `authAPI.login` resolved or rejected with.
      Success dispatches `loginSuccess` and heads for the admin page (after a delay, so the
      navigation comes last); failure dispatches `loginFailure` with the message or "Login failed".
      Either way both flags end down.
    */
    method Settled(outcome: Result<Api.Body, string>)
      requires isSubmitting
      modifies this
      ensures !isSubmitting && !isLoading
      ensures Snapshot() == old(Snapshot()).(isSubmitting := false, isLoading := false)
      ensures outcome.Ok? ==>
        effects == old(effects) + [Dispatch(LoginSuccess(outcome.value)), ToastSuccess(LoginSucceeded),
                                   Dispatch(SetLoading(false)), Navigate("/admin")]
      ensures outcome.Err? ==>
        effects == old(effects) + [Dispatch(LoginFailure(OrElse(outcome.error, Api.LoginFailed))),
                                   ToastError(OrElse(outcome.error, Api.LoginFailed), None),
                                   Dispatch(SetLoading(false))]
    {
      var later: seq<Effect> := [];
      match outcome {
        case Ok(response) =>
          effects := effects + [Dispatch(LoginSuccess(response)), ToastSuccess(LoginSucceeded)];
          later := [Navigate("/admin")];
        case Err(m) =>
          var message := OrElse(m, Api.LoginFailed);
          effects := effects + [Dispatch(LoginFailure(message)), ToastError(message, None)];
      }
      isSubmitting := false;
      effects := effects + [Dispatch(SetLoading(false))];
      isLoading := false;
      effects := effects + later;
    }
  }
}
