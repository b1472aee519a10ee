/** The authentication service: each operation awaits one call to the
    authentication backend and turns what came back, or what was thrown, into
    a result record. The backend call itself is not modelled; its outcome is
    an input. */
module AuthService {
  import opened JsText
  import opened ServiceCall

  /** The user and session a sign-up or sign-in hands back. */
  datatype User = User(id: string, email: string, emailConfirmed: bool)
  datatype AuthData = AuthData(user: Option<User>, hasSession: bool)

  const ConnectionMessage: string :=
    "Cannot connect to authentication service. Your Supabase project may be paused or inactive. Please check your Supabase dashboard and resume your project if needed."
  const SignUpConfirmMessage: string :=
    "Please check your email and click the confirmation link to complete registration."
  const SignInUnconfirmedError: string :=
    "Please check your email and click the confirmation link before signing in. If you cannot find the email, please check your spam folder or contact support."
  const SignInNoConfirmationError: string :=
    "Please confirm your email address before signing in. Check your email for the confirmation link."
  const ResendSentMessage: string :=
    "Confirmation email sent. Please check your email and click the confirmation link."

  /** A fetch failure of the authentication client. */
  predicate IsAuthNetworkFailure(message: Option<string>)
  {
    MentionsEither(message, "Failed to fetch", "AuthRetryableFetchError")
  }

  /** The signup metadata: the first truthy of `fullName` and `full_name`,
      the username, and the role, which defaults to 'collector'. */
  datatype UserData = UserData(fullName: Option<string>, fullNameAlt: Option<string>,
                               username: Option<string>, role: Option<string>)
  datatype Metadata = Metadata(full_name: string, username: string, role: string)

  function SignUpMetadata(userData: UserData): (m: Metadata)
    ensures Truthy(userData.fullName) ==> m.full_name == userData.fullName.value
    ensures !Truthy(userData.fullName) && Truthy(userData.fullNameAlt) ==> m.full_name == userData.fullNameAlt.value
    ensures !Truthy(userData.fullName) && !Truthy(userData.fullNameAlt) ==> m.full_name == ""
    ensures m.username == if Truthy(userData.username) then userData.username.value else ""
    ensures m.role == if Truthy(userData.role) then userData.role.value else "collector"
    ensures m.role != ""
  {
    Metadata(
      if Truthy(userData.fullName) then userData.fullName.value else OrElse(userData.fullNameAlt, ""),
      OrElse(userData.username, ""),
      OrElse(userData.role, "collector"))
  }

  /** `signUp`. A backend error fails with its message; a user without a
      session succeeds and asks the visitor to confirm by e-mail; any other
      answer succeeds with no message; an exception fails with the
      connection text when it is a fetch failure and a generic one
      otherwise. */
  function SignUp(call: Call<AuthData>): (r: Outcome<AuthData>)
    ensures WellFormed(r) && !r.needsConfirmation
    ensures call.Returned? && call.error.Some? ==> r == Fail(call.error.value)
    ensures call.Returned? && call.error.None? ==>
      r.success && r.data == Some(call.data) &&
      (r.message.Some? <==> call.data.user.Some? && !call.data.hasSession) &&
      (r.message.Some? ==> r.message.value == SignUpConfirmMessage)
    ensures call.Threw? ==>
      !r.success && (r.error == Some(ConnectionMessage) <==> IsAuthNetworkFailure(call.message))
    ensures call.Threw? && !IsAuthNetworkFailure(call.message) ==>
      r.error == Some("Something went wrong during signup. Please try again.")
  {
    match call
    case Returned(data, error) =>
      if error.Some? then Fail(error.value)
      else if data.user.Some? && !data.hasSession then Succeed(Some(data), Some(SignUpConfirmMessage))
      else Succeed(Some(data), None)
    case Threw(message) =>
      if IsAuthNetworkFailure(message) then Fail(ConnectionMessage)
      else Fail("Something went wrong during signup. Please try again.")
  }

  /** `signIn`. A backend error that mentions 'Email not confirmed' asks for
      confirmation, any other backend error fails with its message, a user
      whose address is not confirmed asks for confirmation, and anything
      else succeeds; exceptions as in `signUp`. */
  function SignIn(call: Call<AuthData>): (r: Outcome<AuthData>)
    ensures WellFormed(r)
    ensures call.Returned? && call.error.Some? ==>
      !r.success &&
      (r.needsConfirmation <==> Includes(call.error.value, "Email not confirmed")) &&
      (!r.needsConfirmation ==> r.error == Some(call.error.value))
    ensures call.Returned? && call.error.None? ==>
      (r.needsConfirmation <==> call.data.user.Some? && !call.data.user.value.emailConfirmed) &&
      (r.success <==> !r.needsConfirmation)
    ensures r.success ==> call.Returned? && (call.data.user.None? || call.data.user.value.emailConfirmed)
    ensures call.Returned? && call.error.Some? && r.needsConfirmation ==> r.error == Some(SignInUnconfirmedError)
    ensures call.Returned? && call.error.None? && r.needsConfirmation ==> r.error == Some(SignInNoConfirmationError)
    ensures r.success ==> r.data == Some(call.data) && r.message == None
    ensures call.Threw? ==>
      !r.success && !r.needsConfirmation && (r.error == Some(ConnectionMessage) <==> IsAuthNetworkFailure(call.message))
    ensures call.Threw? && !IsAuthNetworkFailure(call.message) ==>
      r.error == Some("Something went wrong during login. Please try again.")
  {
    match call
    case Returned(data, error) =>
      if error.Some? then
        if Includes(error.value, "Email not confirmed") then
          Outcome(false, Some(SignInUnconfirmedError), true, None, None)
        else Fail(error.value)
      else if data.user.Some? && !data.user.value.emailConfirmed then
        Outcome(false, Some(SignInNoConfirmationError), true, None, None)
      else Succeed(Some(data), None)
    case Threw(message) =>
      if IsAuthNetworkFailure(message) then Fail(ConnectionMessage)
      else Fail("Something went wrong during login. Please try again.")
  }

  function ResendConfirmation(call: Call<Unit>): (r: Outcome<Unit>)
    ensures WellFormed(r)
    ensures r.success <==> call.Returned? && call.error.None?
    ensures call.Returned? && call.error.Some? ==> r.error == Some(call.error.value)
    ensures r.success ==> r.message == Some(ResendSentMessage)
    ensures call.Threw? ==> r.error == Some("Failed to resend confirmation email.")
  {
    Classify(call, Some(ResendSentMessage), "Failed to resend confirmation email.")
  }

  function SignOut(call: Call<Unit>): (r: Outcome<Unit>)
    ensures WellFormed(r)
    ensures r.success <==> call.Returned? && call.error.None?
    ensures call.Returned? && call.error.Some? ==> r.error == Some(call.error.value)
    ensures call.Threw? ==> r.error == Some("Something went wrong during logout. Please try again.")
  {
    Classify(call, None, "Something went wrong during logout. Please try again.")
  }

  function GetSession<D>(call: Call<D>): (r: Outcome<D>)
    ensures WellFormed(r)
    ensures r.success <==> call.Returned? && call.error.None?
    ensures r.success ==> r.data == Some(call.data) && r.message == None
    ensures call.Returned? && call.error.Some? ==> r.error == Some(call.error.value)
    ensures call.Threw? ==> r.error == Some("Failed to get session.")
  {
    Classify(call, None, "Failed to get session.")
  }

  function ResetPassword(call: Call<Unit>): (r: Outcome<Unit>)
    ensures WellFormed(r)
    ensures r.success <==> call.Returned? && call.error.None?
    ensures call.Returned? && call.error.Some? ==> r.error == Some(call.error.value)
    ensures call.Threw? ==> r.error == Some("Failed to send reset email.")
  {
    Classify(call, None, "Failed to send reset email.")
  }

  function SignInWithProvider<D>(provider: string, call: Call<D>): (r: Outcome<D>)
    ensures WellFormed(r)
    ensures r.success <==> call.Returned? && call.error.None?
    ensures r.success ==> r.data == Some(call.data) && r.message == None
    ensures call.Returned? && call.error.Some? ==> r.error == Some(call.error.value)
    ensures call.Threw? ==> r.error == Some("Failed to sign in with " + provider + ".")
  {
    Classify(call, None, "Failed to sign in with " + provider + ".")
  }

  function GetUserProfile<D>(call: Call<D>): (r: Outcome<D>)
    ensures WellFormed(r) && !r.needsConfirmation
    ensures r.success <==> call.Returned? && call.error.None?
    ensures r.success ==> r.data == Some(call.data) && r.message == None
    ensures call.Returned? && call.error.Some? ==> r.error == Some(call.error.value)
    ensures call.Threw? ==>
      r.error == Some(if IsDatabaseNetworkFailure(call.message) then DatabaseConnectionMessage else "Failed to load user profile.")
  {
    ClassifyDatabaseCall(call, "Failed to load user profile.")
  }

  /** The row sent by `updateUserProfile`: the caller's fields with
      `updated_at` stamped over them. */
  function ProfileUpdatePayload<V>(updates: map<string, V>, now: V): (p: map<string, V>)
    ensures p.Keys == updates.Keys + {"updated_at"} && p["updated_at"] == now
    ensures forall k :: k in updates && k != "updated_at" ==> p[k] == updates[k]
  {
    SpreadWith(updates, "updated_at", now)
  }

  function UpdateUserProfile<D>(call: Call<D>): (r: Outcome<D>)
    ensures WellFormed(r) && !r.needsConfirmation
    ensures r.success <==> call.Returned? && call.error.None?
    ensures r.success ==> r.data == Some(call.data) && r.message == None
    ensures call.Returned? && call.error.Some? ==> r.error == Some(call.error.value)
    ensures call.Threw? ==>
      r.error == Some(if IsDatabaseNetworkFailure(call.message) then DatabaseConnectionMessage else "Failed to update profile.")
  {
    ClassifyDatabaseCall(call, "Failed to update profile.")
  }

  /** No operation lets an exception escape, and every failure explains
      itself: whatever the backend did, the result is well formed. */
  lemma EveryOutcomeIsWellFormed(a: Call<AuthData>, u: Call<Unit>, provider: string)
    ensures WellFormed(SignUp(a)) && WellFormed(SignIn(a))
    ensures WellFormed(ResendConfirmation(u)) && WellFormed(SignOut(u)) && WellFormed(ResetPassword(u))
    ensures WellFormed(GetSession(a)) && WellFormed(GetUserProfile(a)) && WellFormed(UpdateUserProfile(a))
    ensures WellFormed(SignInWithProvider(provider, a))
  {
  }

  /** Sign-in and sign-up treat exceptions alike: the same exception gives
      the connection text in both, or the operation's generic text in both. */
  lemma ExceptionsClassifiedAlike(message: Option<string>)
    ensures SignIn(Threw(message)).error == Some(ConnectionMessage)
        <==> SignUp(Threw(message)).error == Some(ConnectionMessage)
  {
  }
}
