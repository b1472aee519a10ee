/** The access gate placed around every private page: an ordered decision
    from the session state to what is rendered. */
module ProtectedRoute {

  /** The part of the session the gate reads. The user object is present or
      absent; `emailConfirmed` stands for a truthy `email_confirmed_at`. */
  datatype Session = Session(
    loading: bool,
    hasUser: bool,
    emailConfirmed: bool,
    hasProfile: bool,
    hasAuthError: bool)

  /** A route location: the path and what follows it. */
  datatype Location = Location(pathname: string, search: string)

  datatype Outcome =
    | LoadingSpinner
    | RedirectToAuth(to: string, from: Location, replace: bool)
    | ConfirmEmailInterstitial
    | ProfileSetup
    | RenderChildren

  const AuthPath: string := "/authentication-login-register"
  const ResendHref: string := "/authentication-login-register?resend=true"

  /** The gate's if-chain, in its order. */
  function Gate(s: Session, location: Location): (o: Outcome)
    ensures s.loading ==> o == LoadingSpinner
    ensures !s.loading && !s.hasUser ==> o == RedirectToAuth(AuthPath, location, true)
    ensures !s.loading && s.hasUser && !s.emailConfirmed ==> o == ConfirmEmailInterstitial
    ensures o == ProfileSetup <==>
      !s.loading && s.hasUser && s.emailConfirmed && !s.hasProfile && !s.hasAuthError
    ensures o == RenderChildren <==>
      !s.loading && s.hasUser && s.emailConfirmed && (s.hasProfile || s.hasAuthError)
  {
    if s.loading then LoadingSpinner
    else if !s.hasUser then RedirectToAuth(AuthPath, location, true)
    else if !s.emailConfirmed then ConfirmEmailInterstitial
    else if !s.hasProfile && !s.hasAuthError then ProfileSetup
    else RenderChildren
  }

  /** Every session state leads to exactly one outcome, and the five guards
      that select them partition the states. */
  lemma GateIsTotalOrder(s: Session, location: Location)
    ensures var o := Gate(s, location);
      && (o.LoadingSpinner? <==> s.loading)
      && (o.RedirectToAuth? <==> !s.loading && !s.hasUser)
      && (o.ConfirmEmailInterstitial? <==> !s.loading && s.hasUser && !s.emailConfirmed)
      && (o.ProfileSetup? <==> !s.loading && s.hasUser && s.emailConfirmed && !s.hasProfile && !s.hasAuthError)
      && (o.RenderChildren? <==> !s.loading && s.hasUser && s.emailConfirmed && (s.hasProfile || s.hasAuthError))
  {
  }

  /** The redirect carries the place the visitor asked for, so the sign-in
      page can send them back there. */
  lemma RedirectKeepsLocation(s: Session, location: Location)
    requires Gate(s, location).RedirectToAuth?
    ensures Gate(s, location).from == location && Gate(s, location).to == AuthPath
  {
  }

  /** The two buttons of the confirmation interstitial. */
  datatype InterstitialAction = ReloadPage | ResendConfirmation

  datatype BrowserEffect = Reload | AssignHref(href: string)

  function InterstitialEffect(action: InterstitialAction): (e: BrowserEffect)
    ensures action == ReloadPage ==> e == Reload
    ensures action == ResendConfirmation ==>
      e.AssignHref? && |e.href| > |AuthPath| && e.href[..|AuthPath|] == AuthPath && e.href[|AuthPath|..] == "?resend=true"
  {
    match action
    case ReloadPage => Reload
    case ResendConfirmation => AssignHref(ResendHref)
  }
}
