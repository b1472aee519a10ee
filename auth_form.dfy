/** The sign-in / sign-up form of the authentication page: its validation,
    which reports the first failure only, and the handlers around the
    awaited sign-in, sign-up and resend calls. */
module AuthForm {
  import opened JsText
  import opened ServiceCall

  const DashboardPath: string := "/collection-dashboard"
  const GenericError: string := "Something went wrong. Please try again."
  const ResendPrompt: string := "Please confirm your email address. Check your email for the confirmation link."

  datatype FormData = FormData(email: string, password: string, confirmPassword: string, fullName: string, username: string)

  const EmptyForm: FormData := FormData("", "", "", "", "")

  datatype Field = Email | Password | ConfirmPassword | FullName | Username

  /** `{...formData, [field]: value}`. */
  function SetField(f: FormData, field: Field, value: string): (g: FormData)
    ensures field == Email ==> g == f.(email := value)
    ensures field == Password ==> g == f.(password := value)
    ensures field == ConfirmPassword ==> g == f.(confirmPassword := value)
    ensures field == FullName ==> g == f.(fullName := value)
    ensures field == Username ==> g == f.(username := value)
  {
    match field
    case Email => f.(email := value)
    case Password => f.(password := value)
    case ConfirmPassword => f.(confirmPassword := value)
    case FullName => f.(fullName := value)
    case Username => f.(username := value)
  }

  /** The `activeTab` prop: `None` when the parent does not pass one, which
      JavaScript sees as `undefined`. */
  type Tab = Option<string>

  const SignInTab: Tab := Some("signin")
  const SignUpTab: Tab := Some("signup")

  /** `validateForm`: the first failed check, in the order e-mail and
      password present, then, for the sign-up tab only, full name not blank,
      passwords equal, password at least six characters. */
  function FirstValidationError(f: FormData, activeTab: Tab): (e: Option<string>)
  {
    if f.email == "" || f.password == "" then Some("Email and password are required")
    else if activeTab != SignUpTab then None
    else if Trim(f.fullName) == "" then Some("Full name is required")
    else if f.password != f.confirmPassword then Some("Passwords do not match")
    else if |f.password| < 6 then Some("Password must be at least 6 characters")
    else None
  }

  /** The form passes exactly when every check of its mode passes. */
  lemma ValidIffAllChecksPass(f: FormData, activeTab: Tab)
    ensures FirstValidationError(f, activeTab).None? <==>
      && f.email != "" && f.password != ""
      && (activeTab == SignUpTab ==>
            !AllSpace(f.fullName) && f.password == f.confirmPassword && |f.password| >= 6)
  {
    TrimEmptyIffAllSpace(f.fullName);
  }

  /** Any tab but the sign-up tab, a missing one included, checks nothing
      beyond the presence of e-mail and password. */
  lemma SignInChecksPresenceOnly(f: FormData, activeTab: Tab)
    requires activeTab != SignUpTab
    ensures FirstValidationError(f, activeTab).None? <==> f.email != "" && f.password != ""
  {
  }

  /** Only the first failure is reported: two different passwords are
      reported as a mismatch even when the password is also too short. */
  lemma MismatchReportedBeforeLength(f: FormData)
    requires f.email != "" && f.password != "" && !AllSpace(f.fullName)
    requires f.password != f.confirmPassword
    ensures FirstValidationError(f, SignUpTab) == Some("Passwords do not match")
  {
    TrimEmptyIffAllSpace(f.fullName);
  }

  /** Where a successful sign-in goes: the page that sent the visitor here,
      or the dashboard. */
  function Destination(from: Option<string>): (path: string)
    ensures Truthy(from) ==> path == from.value
    ensures !Truthy(from) ==> path == DashboardPath
  {
    OrElse(from, DashboardPath)
  }

  /** The handler the form's submit event runs: `handleSignIn` on the
      sign-in tab and `handleSignUp` on every other, a missing tab
      included. */
  datatype Handler = SignInHandler | SignUpHandler

  function SubmitHandler(activeTab: Tab): Handler
  {
    if activeTab == SignInTab then SignInHandler else SignUpHandler
  }

  /** As the authentication page renders the form, no `activeTab` reaches
      it: every submission runs the sign-up handler, with the sign-in
      checks only. A sign-up with a blank name and two different
      one-letter passwords passes validation. */
  lemma UnwiredFormSkipsSignUpChecks(f: FormData)
    ensures SubmitHandler(None) == SignUpHandler
    ensures FirstValidationError(f, None) == FirstValidationError(f, SignInTab)
    ensures FirstValidationError(FormData("a@b.in", "x", "y", "", ""), None) == None
    ensures FirstValidationError(FormData("a@b.in", "x", "y", "", ""), SignUpTab) == Some("Full name is required")
  {
  }

  class Form {
    /** The `activeTab` prop of the latest render. */
    var activeTab: Tab
    /** `location.state.from.pathname`, when the visitor was redirected here. */
    const from: Option<string>
    var formData: FormData
    var loading: bool
    var localError: Option<string>
    /** The session's error, which `clearError` resets. */
    var authError: Option<string>
    var successMessage: Option<string>
    var needsConfirmation: bool
    /** The paths navigated to so far, each replacing the current entry. */
    var navigations: seq<string>

    /** A new form; `resendRequested` is a `resend=true` query parameter,
        which opens the form asking for confirmation. */
    constructor (activeTab: Tab, from: Option<string>, authError: Option<string>, resendRequested: bool)
      ensures this.activeTab == activeTab && this.from == from && this.authError == authError
      ensures formData == EmptyForm && !loading && successMessage == None && navigations == []
      ensures needsConfirmation == resendRequested
      ensures localError == if resendRequested then Some(ResendPrompt) else None
    {
      this.activeTab := activeTab;
      this.from := from;
      this.authError := authError;
      formData := EmptyForm;
      loading := false;
      successMessage := None;
      navigations := [];
      needsConfirmation := resendRequested;
      localError := if resendRequested then Some(ResendPrompt) else None;
    }

    /** The banner: the local error when it is set, else the session's. */
    function CurrentError(): (e: Option<string>)
      reads this
      ensures Truthy(localError) ==> e == localError
      ensures !Truthy(localError) ==> e == authError
    {
      if Truthy(localError) then localError else authError
    }

    /** Typing changes one field and clears every message. */
    method HandleInputChange(field: Field, value: string)
      modifies this
      ensures activeTab == old(activeTab)
      ensures formData == SetField(old(formData), field, value)
      ensures !Truthy(localError) && !Truthy(authError) && !Truthy(successMessage)
      ensures CurrentError() == None || CurrentError() == Some("")
      ensures loading == old(loading) && needsConfirmation == old(needsConfirmation) && navigations == old(navigations)
    {
      formData := SetField(formData, field, value);
      if Truthy(localError) { localError := None; }
      if Truthy(authError) { authError := None; }
      if Truthy(successMessage) { successMessage := None; }
    }

    /** The synchronous part of `handleSignIn`: validate, and when the form
        passes, start loading and clear the error and confirmation state. */
    method BeginSignIn() returns (proceed: bool)
      modifies this
      ensures activeTab == old(activeTab)
      ensures proceed <==> FirstValidationError(old(formData), activeTab).None?
      ensures !proceed ==> localError == FirstValidationError(old(formData), activeTab) && loading == old(loading)
      ensures !proceed ==> needsConfirmation == old(needsConfirmation)
      ensures proceed ==> loading && localError == None && !needsConfirmation
      ensures formData == old(formData) && navigations == old(navigations)
      ensures authError == old(authError) && successMessage == old(successMessage)
    {
      var e := FirstValidationError(formData, activeTab);
      if e.Some? {
        localError := e;
        return false;
      }
      loading := true;
      localError := None;
      needsConfirmation := false;
      return true;
    }

    /** The rest of `handleSignIn`, once the call has settled: success
        navigates, a confirmation request shows the result's error with the
        resend button, any other failure shows its error or 'Login failed',
        and a throw shows the generic text. Loading ends on every path. */
    method FinishSignIn(outcome: Settled<Outcome<Unit>>)
      modifies this
      ensures activeTab == old(activeTab)
      ensures !loading
      ensures outcome.Rejected? ==> localError == Some(GenericError) && navigations == old(navigations)
      ensures outcome.Resolved? && outcome.result.Some? && outcome.result.value.success ==>
        navigations == old(navigations) + [Destination(from)] && localError == old(localError)
      ensures outcome.Resolved? && outcome.result.Some? && !outcome.result.value.success && outcome.result.value.needsConfirmation ==>
        needsConfirmation && localError == outcome.result.value.error && navigations == old(navigations)
      ensures outcome.Resolved? && (outcome.result.None? || (!outcome.result.value.success && !outcome.result.value.needsConfirmation)) ==>
        localError == Some(if outcome.result.Some? then OrElse(outcome.result.value.error, "Login failed") else "Login failed")
        && navigations == old(navigations)
      ensures !(outcome.Resolved? && outcome.result.Some? && !outcome.result.value.success && outcome.result.value.needsConfirmation) ==>
        needsConfirmation == old(needsConfirmation)
      ensures formData == old(formData) && authError == old(authError) && successMessage == old(successMessage)
    {
      match outcome {
        case Rejected =>
          localError := Some(GenericError);
        case Resolved(result) =>
          if result.Some? && result.value.success {
            navigations := navigations + [Destination(from)];
          } else if result.Some? && result.value.needsConfirmation {
            needsConfirmation := true;
            localError := result.value.error;
          } else {
            localError := Some(if result.Some? then OrElse(result.value.error, "Login failed") else "Login failed");
          }
      }
      loading := false;
    }

    /** The synchronous part of `handleSignUp`. */
    method BeginSignUp() returns (proceed: bool)
      modifies this
      ensures activeTab == old(activeTab)
      ensures proceed <==> FirstValidationError(old(formData), activeTab).None?
      ensures !proceed ==> localError == FirstValidationError(old(formData), activeTab) && loading == old(loading)
      ensures !proceed ==> successMessage == old(successMessage)
      ensures proceed ==> loading && localError == None && successMessage == None
      ensures formData == old(formData) && navigations == old(navigations)
      ensures authError == old(authError) && needsConfirmation == old(needsConfirmation)
    {
      var e := FirstValidationError(formData, activeTab);
      if e.Some? {
        localError := e;
        return false;
      }
      loading := true;
      localError := None;
      successMessage := None;
      return true;
    }

    /** The form's submit event (line 168 of the form): the handler of the
        current tab, up to its `await`. `handler` says which call is made
        and which `Finish` method completes it. */
    method Submit() returns (handler: Handler, proceed: bool)
      modifies this
      ensures activeTab == old(activeTab)
      ensures handler == SubmitHandler(activeTab)
      ensures proceed <==> FirstValidationError(old(formData), activeTab).None?
      ensures !proceed ==> localError == FirstValidationError(old(formData), activeTab) && loading == old(loading)
      ensures !proceed ==> needsConfirmation == old(needsConfirmation) && successMessage == old(successMessage)
      ensures proceed ==> loading && localError == None
      ensures proceed && handler == SignInHandler ==> !needsConfirmation && successMessage == old(successMessage)
      ensures proceed && handler == SignUpHandler ==> successMessage == None && needsConfirmation == old(needsConfirmation)
      ensures formData == old(formData) && navigations == old(navigations) && authError == old(authError)
    {
      handler := SubmitHandler(activeTab);
      if handler == SignInHandler {
        proceed := BeginSignIn();
      } else {
        proceed := BeginSignUp();
      }
    }

    /** A render with a new `activeTab` prop: the form's own state is kept. */
    method ReceiveTab(tab: Tab)
      modifies this
      ensures activeTab == tab
      ensures formData == old(formData) && loading == old(loading) && localError == old(localError)
      ensures authError == old(authError) && successMessage == old(successMessage)
      ensures needsConfirmation == old(needsConfirmation) && navigations == old(navigations)
    {
      activeTab := tab;
    }

    /** The rest of `handleSignUp`: a success with a message means the
        address must be confirmed, so the message is shown, the resend
        button offered and all five fields emptied; a success without one
        navigates as sign-in does; a failure shows its error or 'Signup
        failed'. Loading ends on every path. */
    method FinishSignUp(outcome: Settled<Outcome<Unit>>)
      modifies this
      ensures activeTab == old(activeTab)
      ensures !loading
      ensures outcome.Rejected? ==>
        localError == Some(GenericError) && formData == old(formData) && navigations == old(navigations)
      ensures outcome.Resolved? && outcome.result.Some? && outcome.result.value.success && Truthy(outcome.result.value.message) ==>
        successMessage == outcome.result.value.message && needsConfirmation && formData == EmptyForm
        && navigations == old(navigations)
      ensures outcome.Resolved? && outcome.result.Some? && outcome.result.value.success && !Truthy(outcome.result.value.message) ==>
        navigations == old(navigations) + [Destination(from)] && formData == old(formData)
      ensures outcome.Resolved? && (outcome.result.None? || !outcome.result.value.success) ==>
        localError == Some(if outcome.result.Some? then OrElse(outcome.result.value.error, "Signup failed") else "Signup failed")
        && formData == old(formData) && navigations == old(navigations)
      ensures outcome.Resolved? && outcome.result.Some? && outcome.result.value.success ==> localError == old(localError)
      ensures !(outcome.Resolved? && outcome.result.Some? && outcome.result.value.success && Truthy(outcome.result.value.message)) ==>
        successMessage == old(successMessage) && needsConfirmation == old(needsConfirmation)
      ensures authError == old(authError)
    {
      match outcome {
        case Rejected =>
          localError := Some(GenericError);
        case Resolved(result) =>
          if result.Some? && result.value.success {
            if Truthy(result.value.message) {
              successMessage := result.value.message;
              needsConfirmation := true;
              formData := EmptyForm;
            } else {
              navigations := navigations + [Destination(from)];
            }
          } else {
            localError := Some(if result.Some? then OrElse(result.value.error, "Signup failed") else "Signup failed");
          }
      }
      loading := false;
    }

    /** The synchronous part of `handleResendConfirmation`: without an
        e-mail address nothing is sent and the visitor is asked for one. */
    method BeginResend() returns (send: Option<string>)
      modifies this
      ensures activeTab == old(activeTab)
      ensures send.None? <==> old(formData).email == ""
      ensures send.None? ==> localError == Some("Please enter your email address first") && loading == old(loading)
      ensures send.Some? ==> send.value == old(formData).email && loading && localError == None
      ensures formData == old(formData) && navigations == old(navigations) && successMessage == old(successMessage)
      ensures authError == old(authError) && needsConfirmation == old(needsConfirmation)
    {
      if formData.email == "" {
        localError := Some("Please enter your email address first");
        return None;
      }
      loading := true;
      localError := None;
      return Some(formData.email);
    }

    /** The rest of `handleResendConfirmation`. */
    method FinishResend(outcome: Settled<Outcome<Unit>>)
      modifies this
      ensures activeTab == old(activeTab)
      ensures !loading
      ensures outcome.Resolved? && outcome.result.Some? && outcome.result.value.success ==>
        successMessage == Some(OrElse(outcome.result.value.message, "Confirmation email sent successfully"))
        && localError == old(localError)
      ensures !(outcome.Resolved? && outcome.result.Some? && outcome.result.value.success) ==>
        localError == Some(if outcome.Resolved? && outcome.result.Some?
                           then OrElse(outcome.result.value.error, "Failed to resend confirmation email")
                           else "Failed to resend confirmation email")
        && successMessage == old(successMessage)
      ensures formData == old(formData) && navigations == old(navigations)
      ensures authError == old(authError) && needsConfirmation == old(needsConfirmation)
    {
      if outcome.Resolved? && outcome.result.Some? && outcome.result.value.success {
        successMessage := Some(OrElse(outcome.result.value.message, "Confirmation email sent successfully"));
      } else if outcome.Resolved? && outcome.result.Some? {
        localError := Some(OrElse(outcome.result.value.error, "Failed to resend confirmation email"));
      } else {
        localError := Some("Failed to resend confirmation email");
      }
      loading := false;
    }
  }
}
