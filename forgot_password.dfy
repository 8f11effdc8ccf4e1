/** The two-step password recovery form: step 1 asks for the e-mail and
    requests a code, step 2 takes the code and a new password. A request is
    started by a submit and finished by its outcome; while one is in flight
    every button is disabled. */
module ForgotPassword {
  import opened Common
  import opened AuthSchemas
  import AxiosAuth

  /** The API call in flight, if any. */
  datatype Request =
    | NoRequest
    | SendResetEmail(email: string)
    | ChangePassword(email: string, newPassword: string, otp: string)

  /** How a request ended: success, or what the HTTP client's error handler
      threw (the recovery wrappers toast and rethrow it unchanged). */
  datatype Outcome = Succeeded | Failed(thrown: AxiosAuth.ErrorOutcome)

  /** `error.response?.data?.message` on what was thrown: the client rejects
      with a `{code, message}` object, and a response-less error ends in a
      TypeError; neither has a `response` property. */
  function ResponseDataMessage(thrown: AxiosAuth.ErrorOutcome): (r: Option<string>)
    ensures r.None?
  {
    match thrown
    case Rejected(_, _, _) => None
    case TypeErrorNoResponse => None
  }

  const EmailFailureDefault: string := "Failed to send reset email"
  const ResetFailureDefault: string := "Failed to reset password"

  class ForgotPasswordForm {
    var step: int
    var email: string
    var isLoading: bool
    var inFlight: Request
    var emailRootError: Option<string>
    var resetRootError: Option<string>
    /** The `router.push` target, once pushed. */
    var navigatedTo: Option<string>

    /** Only steps 1 and 2 exist, and the loading flag is on exactly while a
        request is in flight. */
    predicate Valid()
      reads this
    {
      (step == 1 || step == 2) && (isLoading <==> !inFlight.NoRequest?)
    }

    constructor ()
      ensures Valid()
      ensures step == 1 && email == "" && !isLoading && inFlight == NoRequest
      ensures emailRootError.None? && resetRootError.None? && navigatedTo.None?
    {
      step := 1;
      email := "";
      isLoading := false;
      inFlight := NoRequest;
      emailRootError := None;
      resetRootError := None;
      navigatedTo := None;
    }

    /** Submitting the e-mail form. The schema resolver runs first; only
        valid data reaches `onSubmitEmail`, which turns loading on and sends
        the request. */
    method SubmitEmail(data: ForgotPasswordData, isEmail: string -> bool) returns (sent: bool)
      requires Valid() && step == 1 && !isLoading
      modifies this
      ensures Valid()
      ensures sent == ForgotPasswordValid(data, isEmail)
      ensures sent ==> isLoading && inFlight == SendResetEmail(data.email)
      ensures !sent ==> inFlight == NoRequest && !isLoading
      ensures step == old(step) && email == old(email) && navigatedTo == old(navigatedTo)
      ensures emailRootError == old(emailRootError) && resetRootError == old(resetRootError)
    {
      sent := ForgotPasswordValid(data, isEmail);
      if sent {
        isLoading := true;
        inFlight := SendResetEmail(data.email);
      }
    }

    /** The reset-email request finishes: success stores the submitted e-mail
        and moves to step 2; failure leaves the step and sets the root error. */
    method FinishEmail(outcome: Outcome)
      requires Valid() && inFlight.SendResetEmail?
      modifies this
      ensures Valid() && !isLoading && inFlight == NoRequest
      ensures outcome.Succeeded? ==> step == 2 && email == old(inFlight.email) && emailRootError == old(emailRootError)
      ensures outcome.Failed? ==> (step == old(step) && email == old(email)
        && emailRootError == Some("Failed to send reset email"))
      ensures resetRootError == old(resetRootError) && navigatedTo == old(navigatedTo)
    {
      if outcome.Succeeded? {
        email := inFlight.email;
        step := 2;
      } else {
        emailRootError := Some(OrElse(ResponseDataMessage(outcome.thrown), EmailFailureDefault));
      }
      isLoading := false;
      inFlight := NoRequest;
    }

    /** Submitting the code form: the request carries the e-mail stored at
        step 1, not a re-entered one. */
    method SubmitReset(data: ResetWithOtpData) returns (sent: bool)
      requires Valid() && step == 2 && !isLoading
      modifies this
      ensures Valid()
      ensures sent == ResetWithOtpValid(data)
      ensures sent ==> isLoading && inFlight == ChangePassword(old(email), data.newPassword, data.otp)
      ensures !sent ==> inFlight == NoRequest && !isLoading
      ensures step == old(step) && email == old(email) && navigatedTo == old(navigatedTo)
      ensures emailRootError == old(emailRootError) && resetRootError == old(resetRootError)
    {
      sent := ResetWithOtpValid(data);
      if sent {
        isLoading := true;
        inFlight := ChangePassword(email, data.newPassword, data.otp);
      }
    }

    /** The password change finishes: success navigates to "/"; failure stays
        on the current step with a root error. */
    method FinishReset(outcome: Outcome)
      requires Valid() && inFlight.ChangePassword?
      modifies this
      ensures Valid() && !isLoading && inFlight == NoRequest
      ensures step == old(step) && email == old(email) && emailRootError == old(emailRootError)
      ensures outcome.Succeeded? ==> navigatedTo == Some("/") && resetRootError == old(resetRootError)
      ensures outcome.Failed? ==> (navigatedTo == old(navigatedTo)
        && resetRootError == Some("Failed to reset password"))
    {
      if outcome.Succeeded? {
        navigatedTo := Some("/");
      } else {
        resetRootError := Some(OrElse(ResponseDataMessage(outcome.thrown), ResetFailureDefault));
      }
      isLoading := false;
      inFlight := NoRequest;
    }

    /** The Back button: step 1 again, the stored e-mail kept. */
    method Back()
      requires Valid() && step == 2 && !isLoading
      modifies this
      ensures Valid() && step == 1
      ensures email == old(email) && isLoading == old(isLoading) && inFlight == old(inFlight)
      ensures emailRootError == old(emailRootError) && resetRootError == old(resetRootError)
      ensures navigatedTo == old(navigatedTo)
    {
      step := 1;
    }
  }

  /** A full successful run: code requested for `e`, then the password
      changed using `e`, ending on "/". */
  method SuccessfulRecovery(e: string, otp: string, pw: string, isEmail: string -> bool)
      returns (f: ForgotPasswordForm, request: Request)
    requires e != "" && isEmail(e) && |pw| >= 6
    ensures request == ChangePassword(e, pw, otp)
    ensures f.step == 2 && f.email == e && !f.isLoading && f.navigatedTo == Some("/")
  {
    f := new ForgotPasswordForm();
    var sent := f.SubmitEmail(ForgotPasswordData(e), isEmail);
    f.FinishEmail(Succeeded);
    sent := f.SubmitReset(ResetWithOtpData(otp, pw));
    request := f.inFlight;
    f.FinishReset(Succeeded);
  }
}
