/** The authentication page: its mode switch, the submit handler that signs
    in or signs up, the social buttons, and the error it displays. */
module AuthenticationPage {
  import opened JsText
  import opened ServiceCall
  import AuthForm

  const DashboardPath: string := "/collection-dashboard"

  /** The username a sign-up sends when none was typed: the part of the
      e-mail address before the first '@', or all of it when there is none. */
  function DefaultUsername(email: string): (u: string)
  {
    Split(email, '@')[0]
  }

  lemma DefaultUsernameIsLocalPart(email: string)
    ensures '@' in email ==> DefaultUsername(email) == email[..FirstIndex(email, '@')]
    ensures '@' !in email ==> DefaultUsername(email) == email
    ensures '@' !in DefaultUsername(email)
  {
  }

  /** The call a submission makes. */
  datatype Request =
    | SignInRequest(email: string, password: string)
    | SignUpRequest(email: string, password: string, fullName: string, username: string)

  /** What `handleFormSubmit` sends for a form: in sign-up mode the typed
      username, or the default when it is empty. */
  function SubmitRequest(isLogin: bool, f: AuthForm.FormData): (r: Request)
    ensures isLogin ==> r == SignInRequest(f.email, f.password)
    ensures !isLogin ==> r.SignUpRequest? && r.email == f.email && r.password == f.password && r.fullName == f.fullName
    ensures !isLogin && f.username != "" ==> r.username == f.username
    ensures !isLogin && f.username == "" ==> r.username == DefaultUsername(f.email)
  {
    if isLogin then SignInRequest(f.email, f.password)
    else SignUpRequest(f.email, f.password, f.fullName, if f.username != "" then f.username else DefaultUsername(f.email))
  }

  /** The `activeTab` the page should hand its form: the tab of the page's
      own mode. The page as written passes none. */
  function FormTab(isLogin: bool): (tab: AuthForm.Tab)
    ensures tab.Some?
    ensures tab == AuthForm.SignInTab <==> isLogin
  {
    if isLogin then AuthForm.SignInTab else AuthForm.SignUpTab
  }

  /** With the tab handed on, a submission follows the page's mode: sign-in
      runs the sign-in handler with the presence checks, and sign-up runs
      the sign-up handler with every sign-up check. */
  lemma CorrectedWiringFollowsMode(isLogin: bool, f: AuthForm.FormData)
    ensures AuthForm.SubmitHandler(FormTab(isLogin)) ==
      if isLogin then AuthForm.SignInHandler else AuthForm.SignUpHandler
    ensures AuthForm.FirstValidationError(f, FormTab(isLogin)).None? <==>
      && f.email != "" && f.password != ""
      && (!isLogin ==> !AllSpace(f.fullName) && f.password == f.confirmPassword && |f.password| >= 6)
  {
    AuthForm.ValidIffAllChecksPass(f, FormTab(isLogin));
  }

  /** The text a social button leaves: no provider is wired up. */
  function NotConfigured(provider: string): (m: string)
    ensures |m| > |provider| && m[..|provider|] == provider
  {
    provider + " login is not configured yet. Please use email/password authentication."
  }

  class Page {
    var isLogin: bool
    var isLoading: bool
    var localError: string
    /** The session's error, which `clearError` resets. */
    var authError: Option<string>
    var navigations: seq<string>

    constructor (authError: Option<string>)
      ensures isLogin && !isLoading && localError == "" && this.authError == authError && navigations == []
    {
      isLogin := true;
      isLoading := false;
      localError := "";
      this.authError := authError;
      navigations := [];
    }

    /** The banner prefers the session's error and falls back to the local
        one, the opposite order to the form's own banner. */
    function DisplayError(): (e: string)
      reads this
      ensures Truthy(authError) ==> e == authError.value
      ensures !Truthy(authError) ==> e == localError
    {
      if Truthy(authError) then authError.value else localError
    }

    /** Switching mode clears both errors. */
    method HandleToggleMode()
      modifies this
      ensures isLogin == !old(isLogin)
      ensures localError == "" && authError == None && DisplayError() == ""
      ensures isLoading == old(isLoading) && navigations == old(navigations)
    {
      isLogin := !isLogin;
      authError := None;
      localError := "";
    }

    /** A render of the form with its tab handed on: the form keeps its
        state and takes the page's mode as its tab. */
    method RenderForm(form: AuthForm.Form)
      modifies form
      ensures form.activeTab == FormTab(isLogin)
      ensures AuthForm.SubmitHandler(form.activeTab) == if isLogin then AuthForm.SignInHandler else AuthForm.SignUpHandler
      ensures form.formData == old(form.formData) && form.localError == old(form.localError)
      ensures form.navigations == old(form.navigations)
    {
      form.ReceiveTab(FormTab(isLogin));
      CorrectedWiringFollowsMode(isLogin, form.formData);
    }

    /** The synchronous part of `handleFormSubmit`: loading starts, both
        errors are cleared, and the call for the current mode is made. The
        form reads no `onSubmit` prop, so nothing on the page calls this
        handler; it is modelled as written. */
    method BeginSubmit(f: AuthForm.FormData) returns (request: Request)
      modifies this
      ensures request == SubmitRequest(old(isLogin), f)
      ensures isLoading && localError == "" && authError == None
      ensures isLogin == old(isLogin) && navigations == old(navigations)
    {
      isLoading := true;
      localError := "";
      authError := None;
      if isLogin {
        request := SignInRequest(f.email, f.password);
      } else {
        request := SignUpRequest(f.email, f.password, f.fullName, if f.username != "" then f.username else Split(f.email, '@')[0]);
      }
    }

    /** The rest of `handleFormSubmit`: success goes to the dashboard,
        failure shows the result's error or 'Authentication failed', a throw
        shows the generic text. Loading ends on every path. */
    method FinishSubmit(outcome: Settled<Outcome<Unit>>)
      modifies this
      ensures !isLoading
      ensures outcome.Resolved? && outcome.result.Some? && outcome.result.value.success ==>
        navigations == old(navigations) + [DashboardPath] && localError == old(localError)
      ensures outcome.Resolved? && (outcome.result.None? || !outcome.result.value.success) ==>
        localError == (if outcome.result.Some? then OrElse(outcome.result.value.error, "Authentication failed") else "Authentication failed")
        && navigations == old(navigations)
      ensures outcome.Rejected? ==> localError == AuthForm.GenericError && navigations == old(navigations)
      ensures isLogin == old(isLogin) && authError == old(authError)
    {
      match outcome {
        case Rejected =>
          localError := AuthForm.GenericError;
        case Resolved(result) =>
          if result.Some? && result.value.success {
            navigations := navigations + [DashboardPath];
          } else {
            localError := if result.Some? then OrElse(result.value.error, "Authentication failed") else "Authentication failed";
          }
      }
      isLoading := false;
    }

    /** A social button never signs in: it ends, not loading, with the
        provider's not-configured text and no navigation. */
    method HandleSocialLogin(provider: string)
      modifies this
      ensures !isLoading && localError == NotConfigured(provider) && authError == None
      ensures navigations == old(navigations) && isLogin == old(isLogin)
    {
      isLoading := true;
      localError := "";
      authError := None;
      localError := provider + " login is not configured yet. Please use email/password authentication.";
      isLoading := false;
    }
  }
}
