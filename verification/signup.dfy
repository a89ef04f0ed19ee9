/**
 * The signup screen's submit handler `onRegister` (app/signup.tsx): the guard
 * chain over the four form fields, the register request body, the outcome of
 * the reply, the two password-requirement indicators, and the handler itself
 * over the screen's state.
 */
module Signup {
  import opened Options
  import opened JsText
  import opened EmailRule
  import opened Validation
  import opened Api

  /** The four text fields of the form. */
  datatype Form = Form(name: string, email: string, password: string, rePassword: string)

  const AllFieldsRequired := "All fields are required"
  const PasswordsDoNotMatch := "Passwords do not match"
  const PasswordTooShort := "Password must be at least 6 characters"
  const InvalidEmail := "Please enter a valid email address"
  const MinPasswordLength := 6

  /** The guards of `onRegister`, in the order they run. */
  function Checks(f: Form): seq<Check> {
    [ Check(f.name != "" && f.email != "" && f.password != "" && f.rePassword != "", AllFieldsRequired),
      Check(f.password == f.rePassword, PasswordsDoNotMatch),
      Check(Utf16Length(f.password) >= MinPasswordLength, PasswordTooShort),
      Check(IsValidEmail(f.email), InvalidEmail) ]
  }

  /** The message `onRegister` shows before any request, or `Proceed`. */
  function Validate(f: Form): Verdict {
    if f.name == "" || f.email == "" || f.password == "" || f.rePassword == "" then Reject(AllFieldsRequired)
    else if f.password != f.rePassword then Reject(PasswordsDoNotMatch)
    else if Utf16Length(f.password) < MinPasswordLength then Reject(PasswordTooShort)
    else if !IsValidEmail(f.email) then Reject(InvalidEmail)
    else Proceed
  }

  /** The handler's guards are the ordered checks, and the first one that fails decides. */
  lemma ValidateIsFirstFailure(f: Form)
    ensures Validate(f) == FirstFailure(Checks(f))
  {
    var cs := Checks(f);
    var v := Validate(f);
    if v.Reject? {
      var i := if !cs[0].passes then 0 else if !cs[1].passes then 1 else if !cs[2].passes then 2 else 3;
      EarliestFailureDecides(cs, i);
    }
  }

  /** The "At least 6 characters" indicator under the password fields. */
  predicate LengthIndicatorMet(password: string) {
    Utf16Length(password) >= MinPasswordLength
  }

  /** The "Passwords match" indicator under the password fields. */
  predicate MatchIndicatorMet(password: string, rePassword: string) {
    password == rePassword && Utf16Length(password) > 0
  }

  /** An empty field stops the handler with the required-fields message, whatever else is wrong. */
  lemma EmptyFieldRejected(f: Form)
    requires f.name == "" || f.email == "" || f.password == "" || f.rePassword == ""
    ensures Validate(f) == Reject(AllFieldsRequired)
  {
  }

  /** With every field filled, a mismatch is reported before the length and the e-mail are looked at. */
  lemma MismatchReportedFirst(f: Form)
    requires f.name != "" && f.email != "" && f.password != "" && f.rePassword != ""
    requires f.password != f.rePassword
    ensures Validate(f) == Reject(PasswordsDoNotMatch)
  {
  }

  /** A filled, confirmed password shorter than six code units is rejected, before the e-mail is looked at. */
  lemma ShortPasswordRejected(f: Form)
    requires f.name != "" && f.email != "" && f.password != "" && f.rePassword != ""
    requires f.password == f.rePassword && Utf16Length(f.password) < MinPasswordLength
    ensures Validate(f) == Reject(PasswordTooShort)
  {
  }

  /** A password of six code units or more is never rejected as too short. */
  lemma LongPasswordNotTooShort(f: Form)
    requires Utf16Length(f.password) >= MinPasswordLength
    ensures Validate(f) != Reject(PasswordTooShort)
  {
  }

  /** Once the other guards pass, the e-mail rule decides. */
  lemma EmailDecidesLast(f: Form)
    requires f.name != "" && f.email != "" && f.password != "" && f.rePassword != ""
    requires f.password == f.rePassword && Utf16Length(f.password) >= MinPasswordLength
    ensures Validate(f) == (if IsValidEmail(f.email) then Proceed else Reject(InvalidEmail))
  {
  }

  /** The form passes exactly when every guard's condition holds. */
  lemma AcceptedIff(f: Form)
    ensures Validate(f) == Proceed <==>
      f.name != "" && f.email != "" && f.password != "" && f.rePassword != "" &&
      f.password == f.rePassword && Utf16Length(f.password) >= MinPasswordLength && IsValidEmail(f.email)
  {
  }

  /** A form that passes validation has both password indicators shown as met. */
  lemma AcceptedMeetsIndicators(f: Form)
    requires Validate(f) == Proceed
    ensures LengthIndicatorMet(f.password) && MatchIndicatorMet(f.password, f.rePassword)
  {
    AcceptedIff(f);
  }

  /** The JSON body posted to `/register`; the confirmation is not part of it. */
  datatype RegisterBody = RegisterBody(name: string, email: string, password: string)

  /** The body `onRegister` builds: trimmed name and e-mail, the password as typed. */
  function RequestBody(f: Form): RegisterBody {
    RegisterBody(Trim(f.name), Trim(f.email), f.password)
  }

  /**
   * For a form that passes validation, the body carries the e-mail and the
   * password exactly as validated, and the password meets the length rule.
   */
  lemma AcceptedBodyCarriesValidatedFields(f: Form)
    requires Validate(f) == Proceed
    ensures RequestBody(f).email == f.email
    ensures RequestBody(f).password == f.password
    ensures Utf16Length(RequestBody(f).password) >= MinPasswordLength
  {
    AcceptedIff(f);
    ValidEmailIsTrimmed(f.email);
  }

  /** The confirmation field never reaches the request. */
  lemma BodyIgnoresConfirmation(f: Form, other: string)
    ensures RequestBody(f.(rePassword := other)) == RequestBody(f)
  {
  }

  /**
   * The required-fields guard tests the untrimmed name, so a name made only of
   * blanks passes validation and is sent as the empty string.
   */
  lemma BlankNameSentEmpty(f: Form)
    requires f.name != "" && forall i :: 0 <= i < |f.name| ==> IsWhitespace(f.name[i])
    requires IsValidEmail(f.email)
    requires f.password == f.rePassword && Utf16Length(f.password) >= MinPasswordLength
    ensures Validate(f) == Proceed
    ensures RequestBody(f).name == ""
  {
    AcceptedIff(f);
    TrimBlank(f.name);
  }

  /** How a submitted registration ends. */
  datatype Outcome = Failed(title: string, message: string) | GoToLogin

  const RegistrationFailedTitle := "Registration Failed"
  const SomethingWentWrong := "Something went wrong"
  const CannotConnect := "Unable to connect to server. Please try again."
  const AccountCreated := "Account created successfully!"

  /**
   * The outcome of the reply: a thrown request shows the connection message,
   * a non-2xx reply the server's message (or a fallback), a 2xx reply leads on
   * to the login screen.
   */
  function OutcomeOf(r: Response): (o: Outcome)
    ensures o == GoToLogin <==> r.Received? && r.ok
    ensures o.Failed? ==> o.message != ""
    ensures r.Thrown? ==> o == Failed(ErrorTitle, CannotConnect)
    ensures r.Received? && !r.ok ==>
      o.Failed? && o.title == RegistrationFailedTitle &&
      (if Truthy(r.body.message) then o.message == r.body.message.value else o.message == SomethingWentWrong)
  {
    match r
    case Thrown(_) => Failed(ErrorTitle, CannotConnect)
    case Received(ok, body) =>
      if !ok then Failed(RegistrationFailedTitle, Or(body.message, SomethingWentWrong))
      else GoToLogin
  }

  /** The alert shown for an outcome; only success offers the way to the login screen. */
  function AlertFor(o: Outcome): (a: Alert)
    ensures a.onOk.Some? <==> o == GoToLogin
    ensures a.onOk.Some? ==> a.onOk.value == LoginRoute
    ensures o.Failed? ==> a.title == o.title && a.message == o.message
    ensures o == GoToLogin ==> a.title == SuccessTitle && a.message == AccountCreated
  {
    match o
    case Failed(title, message) => Alert(title, message, None)
    case GoToLogin => Alert(SuccessTitle, AccountCreated, Some(LoginRoute))
  }

  /** A reply that is not 2xx, or a request that throws, never leads to the login screen. */
  lemma FailureStaysOnSignup(r: Response)
    requires !(r.Received? && r.ok)
    ensures AlertFor(OutcomeOf(r)).onOk == None
  {
  }

  /** The signup screen's state that `onRegister` reads and writes. */
  class SignupScreen {
    var name: string
    var email: string
    var password: string
    var rePassword: string
    var loading: bool
    /** The arguments of the `setLoading` calls, in order. */
    var loadingUpdates: seq<bool>
    /** The bodies posted to `/register`, in order. */
    var requests: seq<RegisterBody>
    /** The alerts shown, in order. */
    var alerts: seq<Alert>

    function Entered(): Form
      reads this`name, this`email, this`password, this`rePassword
    {
      Form(name, email, password, rePassword)
    }

    constructor ()
      ensures Entered() == Form("", "", "", "") && !loading
      ensures loadingUpdates == [] && requests == [] && alerts == []
    {
      name, email, password, rePassword := "", "", "", "";
      loading := false;
      loadingUpdates, requests, alerts := [], [], [];
    }

    /**
     * `onRegister`, with `reply` standing for what the request yields. The
     * button is replaced by a spinner while `loading`, so the handler only
     * runs when it is false.
     */
    method OnRegister(reply: Response)
      requires !loading
      modifies this
      ensures Entered() == old(Entered()) && !loading
      ensures Validate(Entered()).Reject? ==>
        alerts == old(alerts) + [Alert(ErrorTitle, Validate(Entered()).message, None)] &&
        requests == old(requests) && loadingUpdates == old(loadingUpdates)
      ensures Validate(Entered()).Proceed? ==>
        requests == old(requests) + [RequestBody(Entered())] &&
        loadingUpdates == old(loadingUpdates) + [true, false] &&
        alerts == old(alerts) + [AlertFor(OutcomeOf(reply))]
    {
      var verdict := Validate(Entered());
      if verdict.Reject? {
        alerts := alerts + [Alert(ErrorTitle, verdict.message, None)];
        return;
      }
      Submit(reply);
    }

    /**
     * The part of `onRegister` after the guards: raise `loading`, post the
     * body, show the alert for the reply, and lower `loading` again whatever
     * happened.
     */
    method Submit(reply: Response)
      modifies this
      ensures Entered() == old(Entered()) && !loading
      ensures requests == old(requests) + [RequestBody(Entered())]
      ensures loadingUpdates == old(loadingUpdates) + [true, false]
      ensures alerts == old(alerts) + [AlertFor(OutcomeOf(reply))]
    {
      loading := true;
      loadingUpdates := loadingUpdates + [true];
      requests := requests + [RequestBody(Entered())];
      alerts := alerts + [AlertFor(OutcomeOf(reply))];
      loading := false;
      loadingUpdates := loadingUpdates + [false];
    }
  }
}
