/** The registration page: a password-match check, a display name taken from the email, and the register action. */
module Register {
  import opened Wrappers
  import opened Effects
  import Api
  import Strings

  const Mismatch := "Passwords do not match"
  const Registered := "Registration successful!"
  const RegistrationFailed := "Registration failed"

  /** `email.split('@')[0]`: everything before the first '@', or the whole email when it has none. */
  function NameFromEmail(email: string): (name: string)
    ensures name <= email
    ensures '@' !in name
    ensures |name| < |email| ==> email[|name|] == '@'
    ensures '@' !in email ==> name == email
  {
    var at := Strings.IndexOf(email, '@');
    if at < 0 then email else email[..at]
  }

  /** The name is determined by the first '@' alone: whatever follows it does not matter. */
  lemma NameIgnoresDomain(local: string, domain: string)
    requires '@' !in local
    ensures NameFromEmail(local + "@" + domain) == local
  {
    var email := local + "@" + domain;
    assert email[..|local|] == local;
    assert email[|local|] == '@';
  }

  /** The `name` attributes of the inputs. */
  datatype RegisterField = Email | Password | ConfirmPassword

  class RegisterPage {
    var email: string
    var password: string
    var confirmPassword: string
    /** The dispatched registration has not settled (Redux's `isLoading` disables the button meanwhile). */
    var pending: bool
    var effects: seq<Effect>

    constructor ()
      ensures email == "" && password == "" && confirmPassword == "" && !pending && effects == []
    {
      email, password, confirmPassword := "", "", "";
      pending, effects := false, [];
    }

    /** `handleChange`: only the input's own field changes. */
    method Change(field: RegisterField, value: string)
      modifies this
      ensures field == Email ==> email == value && password == old(password) && confirmPassword == old(confirmPassword)
      ensures field == Password ==> password == value && email == old(email) && confirmPassword == old(confirmPassword)
      ensures field == ConfirmPassword ==> confirmPassword == value && email == old(email) && password == old(password)
      ensures pending == old(pending) && effects == old(effects)
    {
      match field {
        case Email => email := value;
        case Password => password := value;
        case ConfirmPassword => confirmPassword := value;
      }
    }

    /**
      `handleSubmit` up to the dispatch: mismatched passwords only raise an error; otherwise the
      register action goes out with the derived name and the email and password unchanged.
    */
    method Submit()
      requires !pending
      modifies this
      ensures email == old(email) && password == old(password) && confirmPassword == old(confirmPassword)
      ensures old(password) != old(confirmPassword) ==>
        !pending && effects == old(effects) + [ToastError(Mismatch, None)]
      ensures old(password) == old(confirmPassword) ==>
        pending && effects == old(effects) + [Dispatch(RegisterAction(NameFromEmail(old(email)), old(email), old(password)))]
    {
      if password != confirmPassword {
        effects := effects + [ToastError(Mismatch, None)];
        return;
      }
      effects := effects + [Dispatch(RegisterAction(NameFromEmail(email), email, password))];
      pending := true;
    }

    /** The unwrapped action settles: success heads for the admin page, failure shows its message or the fallback. */
    method Settled(outcome: Result<Api.Body, string>)
      requires pending
      modifies this
      ensures !pending
      ensures email == old(email) && password == old(password) && confirmPassword == old(confirmPassword)
      ensures outcome.Ok? ==> effects == old(effects) + [ToastSuccess(Registered), Navigate("/admin")]
      ensures outcome.Err? ==> effects == old(effects) + [ToastError(OrElse(outcome.error, RegistrationFailed), None)]
    {
      match outcome {
        case Ok(_) => effects := effects + [ToastSuccess(Registered), Navigate("/admin")];
        case Err(m) => effects := effects + [ToastError(OrElse(m, RegistrationFailed), None)];
      }
      pending := false;
    }
  }
}
