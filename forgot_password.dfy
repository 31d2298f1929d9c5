/** The forgot-password page: a three-step form `email -> otp -> reset` driven by three requests. */
module ForgotPassword {
  import opened Wrappers
  import opened Effects
  import Api

  const OtpSent := "OTP sent to your email!"
  const OtpSendFailed := "Failed to send OTP"
  const OtpVerified := "OTP verified!"
  const OtpInvalid := "Invalid OTP"
  const Mismatch := "Passwords do not match"
  const ResetSucceeded := "Password reset successfully!"
  const ResetFailed := "Failed to reset password"

  /** The step, which also decides which of the three forms is rendered. */
  datatype Step = EmailStep | OtpStep | ResetStep

  /** The position of a step in the machine. */
  function Rank(s: Step): nat
  {
    match s
    case EmailStep => 0
    case OtpStep => 1
    case ResetStep => 2
  }

  datatype ResetForm = ResetForm(email: string, otp: string, newPassword: string, confirmPassword: string)

  /** The `name` attributes of the inputs. */
  datatype ResetField = Email | Otp | NewPassword | ConfirmPassword

  function FieldOf(f: ResetForm, field: ResetField): string
  {
    match field
    case Email => f.email
    case Otp => f.otp
    case NewPassword => f.newPassword
    case ConfirmPassword => f.confirmPassword
  }

  function WithField(f: ResetForm, field: ResetField, value: string): (g: ResetForm)
    ensures FieldOf(g, field) == value
    ensures forall other | other != field :: FieldOf(g, other) == FieldOf(f, other)
  {
    match field
    case Email => f.(email := value)
    case Otp => f.(otp := value)
    case NewPassword => f.(newPassword := value)
    case ConfirmPassword => f.(confirmPassword := value)
  }

  /** A step never goes back and moves at most one place. */
  predicate Advances(before: Step, after: Step)
  {
    Rank(before) <= Rank(after) <= Rank(before) + 1
  }

  class ForgotPasswordPage {
    var step: Step
    var isLoading: bool
    var form: ResetForm
    var effects: seq<Effect>

    constructor ()
      ensures step == EmailStep && !isLoading && form == ResetForm("", "", "", "") && effects == []
    {
      step, isLoading := EmailStep, false;
      form, effects := ResetForm("", "", "", ""), [];
    }

    /** `handleChange`: only the field named by the input changes. */
    method Change(field: ResetField, value: string)
      modifies this
      ensures FieldOf(form, field) == value
      ensures forall other | other != field :: FieldOf(form, other) == FieldOf(old(form), other)
      ensures step == old(step) && isLoading == old(isLoading) && effects == old(effects)
    {
      form := WithField(form, field, value);
    }

    /** `handleEmailSubmit` up to the request; the email form is the one shown and its button is enabled. */
    method SubmitEmail()
      requires step == EmailStep && !isLoading
      modifies this
      ensures isLoading && step == old(step) && form == old(form)
      ensures effects == old(effects) + [Send(Auth(Api.SendResetOtpCall(old(form).email)))]
    {
      isLoading := true;
      effects := effects + [Send(Auth(Api.SendResetOtpCall(form.email)))];
    }

    /** The OTP request settles: success moves to `otp`, failure stays; the flag ends down. */
    method EmailSettled(outcome: Result<Api.Body, string>)
      requires step == EmailStep && isLoading
      modifies this
      ensures !isLoading && form == old(form) && Advances(old(step), step)
      ensures outcome.Ok? ==> step == OtpStep && effects == old(effects) + [ToastSuccess(OtpSent)]
      ensures outcome.Err? ==>
        step == old(step) && effects == old(effects) + [ToastError(OrElse(outcome.error, OtpSendFailed), None)]
    {
      match outcome {
        case Ok(_) =>
          effects := effects + [ToastSuccess(OtpSent)];
          step := OtpStep;
        case Err(m) =>
          effects := effects + [ToastError(OrElse(m, OtpSendFailed), None)];
      }
      isLoading := false;
    }

    /** `handleOTPSubmit` up to the request. */
    method SubmitOtp()
      requires step == OtpStep && !isLoading
      modifies this
      ensures isLoading && step == old(step) && form == old(form)
      ensures effects == old(effects) + [Send(Auth(Api.VerifyResetOtpCall(old(form).email, old(form).otp)))]
    {
      isLoading := true;
      effects := effects + [Send(Auth(Api.VerifyResetOtpCall(form.email, form.otp)))];
    }

    /** The verification settles: success moves to `reset`, failure stays; the flag ends down. */
    method OtpSettled(outcome: Result<Api.Body, string>)
      requires step == OtpStep && isLoading
      modifies this
      ensures !isLoading && form == old(form) && Advances(old(step), step)
      ensures outcome.Ok? ==> step == ResetStep && effects == old(effects) + [ToastSuccess(OtpVerified)]
      ensures outcome.Err? ==>
        step == old(step) && effects == old(effects) + [ToastError(OrElse(outcome.error, OtpInvalid), None)]
    {
      match outcome {
        case Ok(_) =>
          effects := effects + [ToastSuccess(OtpVerified)];
          step := ResetStep;
        case Err(m) =>
          effects := effects + [ToastError(OrElse(m, OtpInvalid), None)];
      }
      isLoading := false;
    }

    /** `handleResetSubmit` up to the request: mismatched passwords stop it before `isLoading` is touched. */
    method SubmitReset()
      requires step == ResetStep && !isLoading
      modifies this
      ensures step == old(step) && form == old(form)
      ensures old(form).newPassword != old(form).confirmPassword ==>
        !isLoading && effects == old(effects) + [ToastError(Mismatch, None)]
      ensures old(form).newPassword == old(form).confirmPassword ==>
        isLoading && effects == old(effects) + [Send(Auth(Api.ResetPasswordCall(old(form).email, old(form).newPassword)))]
    {
      if form.newPassword != form.confirmPassword {
        effects := effects + [ToastError(Mismatch, None)];
        return;
      }
      isLoading := true;
      effects := effects + [Send(Auth(Api.ResetPasswordCall(form.email, form.newPassword)))];
    }

    /** The reset settles: success goes to the login page; the flag ends down. */
    method ResetSettled(outcome: Result<Api.Body, string>)
      requires step == ResetStep && isLoading
      modifies this
      ensures !isLoading && form == old(form) && step == old(step)
      ensures outcome.Ok? ==> effects == old(effects) + [ToastSuccess(ResetSucceeded), Navigate("/login")]
      ensures outcome.Err? ==> effects == old(effects) + [ToastError(OrElse(outcome.error, ResetFailed), None)]
    {
      match outcome {
        case Ok(_) =>
          effects := effects + [ToastSuccess(ResetSucceeded), Navigate("/login")];
        case Err(m) =>
          effects := effects + [ToastError(OrElse(m, ResetFailed), None)];
      }
      isLoading := false;
    }
  }
}
