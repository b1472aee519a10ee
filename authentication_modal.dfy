/** The stand-alone authentication modal: a form that reports every failing
    field at once, the e-mail pattern it tests, and its mode switch. */
module AuthenticationModal {
  import opened JsText

  const ModalPath: string := "/authentication-login-register"
  const LandingPath: string := "/landing-page"
  const DashboardPath: string := "/collection-dashboard"
  const SocialDelayMs: nat := 1000

  datatype ModalForm = ModalForm(email: string, password: string, confirmPassword: string, name: string)

  const EmptyModalForm: ModalForm := ModalForm("", "", "", "")

  /** The `name` attribute of each input, which is also its key in the
      error map. */
  datatype Input = EmailInput | PasswordInput | ConfirmPasswordInput | NameInput

  function Key(i: Input): (k: string)
    ensures k in {"email", "password", "confirmPassword", "name"}
  {
    match i
    case EmailInput => "email"
    case PasswordInput => "password"
    case ConfirmPasswordInput => "confirmPassword"
    case NameInput => "name"
  }

  lemma KeysDistinct(i: Input, j: Input)
    ensures Key(i) == Key(j) <==> i == j
  {
  }

  function SetInput(f: ModalForm, i: Input, value: string): (g: ModalForm)
    ensures i == EmailInput ==> g == f.(email := value)
    ensures i == PasswordInput ==> g == f.(password := value)
    ensures i == ConfirmPasswordInput ==> g == f.(confirmPassword := value)
    ensures i == NameInput ==> g == f.(name := value)
  {
    match i
    case EmailInput => f.(email := value)
    case PasswordInput => f.(password := value)
    case ConfirmPasswordInput => f.(confirmPassword := value)
    case NameInput => f.(name := value)
  }

  // ---------------------------------------------------------------------------
  // The e-mail pattern

  predicate NoSpaceIn(s: string, lo: int, hi: int)
    requires 0 <= lo <= hi <= |s|
  {
    forall k :: lo <= k < hi ==> !IsSpace(s[k])
  }

  /** One match of `\S+@\S+\.\S+`: the runs `s[p..at]`, `s[at+1..dot]` and
      `s[dot+1..e]` are non-empty and free of whitespace, with an '@' at `at`
      and a '.' at `dot`. */
  ghost predicate PatternAt(s: string, p: int, at: int, dot: int, e: int)
  {
    && 0 <= p < at && at + 1 < dot && dot + 1 < e <= |s|
    && s[at] == '@' && s[dot] == '.'
    && NoSpaceIn(s, p, at) && NoSpaceIn(s, at + 1, dot) && NoSpaceIn(s, dot + 1, e)
  }

  /** What the unanchored pattern means: it matches some piece of the
      string. */
  ghost predicate MatchesEmailPattern(s: string)
  {
    exists p, at, dot, e :: PatternAt(s, p, at, dot, e)
  }

  /** An '@' at `at` and a '.' at `dot`, a non-space character before the
      '@' and after the '.', and at least one character between them, none
      of them whitespace. */
  predicate ShapeAt(s: string, at: int, dot: int)
    requires 0 < at && at + 1 < dot && dot + 1 < |s|
  {
    && s[at] == '@' && s[dot] == '.'
    && !IsSpace(s[at - 1]) && !IsSpace(s[dot + 1]) && NoSpaceIn(s, at + 1, dot)
  }

  /** The test the form runs. */
  predicate HasEmailShape(s: string)
  {
    exists at, dot :: 0 < at && at + 1 < dot && dot + 1 < |s| && ShapeAt(s, at, dot)
  }

  /** The test accepts exactly the strings the pattern matches somewhere. */
  lemma EmailShapeIffPattern(s: string)
    ensures HasEmailShape(s) <==> MatchesEmailPattern(s)
  {
    if HasEmailShape(s) {
      var at, dot :| 0 < at && at + 1 < dot && dot + 1 < |s| && ShapeAt(s, at, dot);
      assert PatternAt(s, at - 1, at, dot, dot + 2);
    }
    if MatchesEmailPattern(s) {
      var p, at, dot, e :| PatternAt(s, p, at, dot, e);
      assert s[at - 1] == s[at - 1] && p <= at - 1;
      assert ShapeAt(s, at, dot);
    }
  }

  /** The pattern is not anchored and '@' counts as a non-space character:
      "a@b@c.d" and "x y@z.w" both pass, while "a@b." and "@bc.d" do not. */
  lemma EmailPatternExamples()
    ensures HasEmailShape("a@b@c.d") && HasEmailShape("x y@z.w")
    ensures !HasEmailShape("a@b.") && !HasEmailShape("@bc.d")
  {
    assert ShapeAt("a@b@c.d", 3, 5);
    assert ShapeAt("x y@z.w", 3, 5);
    var t := "@bc.d";
    forall at, dot | 0 < at && at + 1 < dot && dot + 1 < |t| ensures !ShapeAt(t, at, dot) {
      assert t[at] != '@';
    }
  }

  // ---------------------------------------------------------------------------
  // Validation

  /** The e-mail and password part of a report: each input has an entry
      exactly when it fails, holding its message. */
  predicate ReportsCredentials(errors: map<string, string>, f: ModalForm)
  {
    && ("email" in errors <==> f.email == "" || !HasEmailShape(f.email))
    && ("email" in errors ==>
          errors["email"] == if f.email == "" then "Email is required" else "Please enter a valid email")
    && ("password" in errors <==> |f.password| < 6)
    && ("password" in errors ==>
          errors["password"] == if f.password == "" then "Password is required" else "Password must be at least 6 characters")
  }

  /** The name and confirmation part of a report: entries only on sign-up,
      each exactly when its input fails, holding its message. */
  predicate ReportsSignUp(errors: map<string, string>, f: ModalForm, isLogin: bool)
  {
    && ("name" in errors <==> !isLogin && f.name == "")
    && ("name" in errors ==> errors["name"] == "Name is required")
    && ("confirmPassword" in errors <==> !isLogin && (f.confirmPassword == "" || f.password != f.confirmPassword))
    && ("confirmPassword" in errors ==>
          errors["confirmPassword"] == if f.confirmPassword == "" then "Please confirm your password" else "Passwords do not match")
  }

  /** An error map reports a form's checks: every failing field has an
      entry with its message, and there are no other entries. */
  predicate Reports(errors: map<string, string>, f: ModalForm, isLogin: bool)
  {
    && errors.Keys <= {"email", "password", "name", "confirmPassword"}
    && ReportsCredentials(errors, f)
    && ReportsSignUp(errors, f, isLogin)
  }

  /** Merging the sign-up entries in keeps the e-mail and password entries. */
  lemma CredentialsKept(credentials: map<string, string>, signUp: map<string, string>, f: ModalForm)
    requires ReportsCredentials(credentials, f)
    requires signUp.Keys <= {"name", "confirmPassword"}
    ensures ReportsCredentials(credentials + signUp, f)
  {
  }

  /** Merging the sign-up entries into the e-mail and password ones brings
      them over unchanged. */
  lemma SignUpAdded(credentials: map<string, string>, signUp: map<string, string>, f: ModalForm, isLogin: bool)
    requires ReportsSignUp(signUp, f, isLogin)
    requires credentials.Keys <= {"email", "password"}
    ensures ReportsSignUp(credentials + signUp, f, isLogin)
  {
  }

  /** `validateForm`'s error map, filled field by field: every failing field
      gets its message, so all failures are reported together. */
  method CollectErrors(f: ModalForm, isLogin: bool) returns (errors: map<string, string>)
    ensures Reports(errors, f, isLogin)
  {
    var credentials := CredentialErrors(f);
    var signUp := map[];
    if !isLogin {
      signUp := SignUpErrors(f);
    }
    errors := credentials + signUp;
    CredentialsKept(credentials, signUp, f);
    SignUpAdded(credentials, signUp, f, isLogin);
  }

  /** The checks of the e-mail and password inputs, made in both modes. */
  method CredentialErrors(f: ModalForm) returns (errors: map<string, string>)
    ensures errors.Keys <= {"email", "password"}
    ensures "email" in errors <==> f.email == "" || !HasEmailShape(f.email)
    ensures "email" in errors ==>
      errors["email"] == if f.email == "" then "Email is required" else "Please enter a valid email"
    ensures "password" in errors <==> |f.password| < 6
    ensures "password" in errors ==>
      errors["password"] == if f.password == "" then "Password is required" else "Password must be at least 6 characters"
  {
    errors := map[];
    if f.email == "" {
      errors := errors["email" := "Email is required"];
    } else if !HasEmailShape(f.email) {
      errors := errors["email" := "Please enter a valid email"];
    }
    if f.password == "" {
      errors := errors["password" := "Password is required"];
    } else if |f.password| < 6 {
      errors := errors["password" := "Password must be at least 6 characters"];
    }
  }

  /** The checks of the name and confirmation inputs, made only on sign-up. */
  method SignUpErrors(f: ModalForm) returns (errors: map<string, string>)
    ensures errors.Keys <= {"name", "confirmPassword"}
    ensures "name" in errors <==> f.name == ""
    ensures "name" in errors ==> errors["name"] == "Name is required"
    ensures "confirmPassword" in errors <==> f.confirmPassword == "" || f.password != f.confirmPassword
    ensures "confirmPassword" in errors ==>
      errors["confirmPassword"] == if f.confirmPassword == "" then "Please confirm your password" else "Passwords do not match"
  {
    errors := map[];
    if f.name == "" {
      errors := errors["name" := "Name is required"];
    }
    if f.confirmPassword == "" {
      errors := errors["confirmPassword" := "Please confirm your password"];
    } else if f.password != f.confirmPassword {
      errors := errors["confirmPassword" := "Passwords do not match"];
    }
  }

  /** Logging in checks only e-mail and password: with a valid pair it
      passes whatever the other two fields hold. */
  method LoginIgnoresSignUpFields(f: ModalForm) returns (errors: map<string, string>)
    requires f.email != "" && HasEmailShape(f.email) && |f.password| >= 6
    ensures errors == map[]
  {
    errors := CollectErrors(f, true);
  }

  // ---------------------------------------------------------------------------
  // The modal

  /** What the modal asks the router to do; `NavigateLater` runs behind a
      timer. */
  datatype Effect = Navigate(path: string) | NavigateLater(delayMs: nat, path: string)

  /** The modal renders only on the authentication route. */
  predicate IsVisible(pathname: string)
  {
    pathname == ModalPath
  }

  class Modal {
    var isLogin: bool
    var isLoading: bool
    var formData: ModalForm
    var errors: map<string, string>
    var effects: seq<Effect>

    constructor ()
      ensures isLogin && !isLoading && formData == EmptyModalForm && errors == map[] && effects == []
    {
      isLogin := true;
      isLoading := false;
      formData := EmptyModalForm;
      errors := map[];
      effects := [];
    }

    /** Typing sets the input's field; if that field had a truthy error it
        becomes the empty string, and every other error stays. */
    method HandleInputChange(i: Input, value: string)
      modifies this
      ensures formData == SetInput(old(formData), i, value)
      ensures errors.Keys == old(errors).Keys
      ensures Key(i) in old(errors) && old(errors)[Key(i)] != "" ==> errors[Key(i)] == ""
      ensures Key(i) in old(errors) && old(errors)[Key(i)] == "" ==> errors[Key(i)] == ""
      ensures forall k :: k in errors && k != Key(i) ==> errors[k] == old(errors)[k]
      ensures isLogin == old(isLogin) && isLoading == old(isLoading) && effects == old(effects)
    {
      formData := SetInput(formData, i, value);
      if Key(i) in errors && errors[Key(i)] != "" {
        errors := errors[Key(i) := ""];
      }
    }

    /** `validateForm`: replaces the errors with a fresh map and reports
        whether it is empty. */
    method Validate() returns (valid: bool)
      modifies this
      ensures Reports(errors, old(formData), old(isLogin))
      ensures valid <==> |errors| == 0
      ensures valid <==> old(formData).email != "" && HasEmailShape(old(formData).email) && |old(formData).password| >= 6
                         && (!old(isLogin) ==> old(formData).name != "" && old(formData).confirmPassword != ""
                                               && old(formData).password == old(formData).confirmPassword)
      ensures formData == old(formData) && isLogin == old(isLogin) && isLoading == old(isLoading) && effects == old(effects)
    {
      errors := CollectErrors(formData, isLogin);
      valid := |errors| == 0;
    }

    /** The synchronous part of `handleSubmit`: a form that fails validation
        leaves loading off. */
    method BeginSubmit() returns (proceed: bool)
      modifies this
      ensures Reports(errors, old(formData), old(isLogin))
      ensures proceed <==> |errors| == 0
      ensures proceed ==> isLoading
      ensures !proceed ==> isLoading == old(isLoading)
      ensures formData == old(formData) && isLogin == old(isLogin) && effects == old(effects)
    {
      proceed := Validate();
      if proceed {
        isLoading := true;
      }
    }

    /** The rest of `handleSubmit`, after the simulated call: on success the
        dashboard, on a rejection the submit error. Loading ends either way. */
    method FinishSubmit(rejected: bool)
      modifies this
      ensures !isLoading
      ensures !rejected ==> effects == old(effects) + [Navigate(DashboardPath)] && errors == old(errors)
      ensures rejected ==> effects == old(effects) && errors == map["submit" := "Authentication failed. Please try again."]
      ensures formData == old(formData) && isLogin == old(isLogin)
    {
      if rejected {
        errors := map["submit" := "Authentication failed. Please try again."];
      } else {
        effects := effects + [Navigate(DashboardPath)];
      }
      isLoading := false;
    }

    /** Switching between log-in and sign-up flips the mode and starts over
        with an empty form and no errors. */
    method ToggleMode()
      modifies this
      ensures isLogin == !old(isLogin)
      ensures formData == EmptyModalForm && errors == map[]
      ensures isLoading == old(isLoading) && effects == old(effects)
    {
      isLogin := !isLogin;
      formData := EmptyModalForm;
      errors := map[];
    }

    /** Closing returns to the landing page. */
    method HandleClose()
      modifies this
      ensures effects == old(effects) + [Navigate(LandingPath)]
      ensures isLogin == old(isLogin) && isLoading == old(isLoading) && formData == old(formData) && errors == old(errors)
    {
      effects := effects + [Navigate(LandingPath)];
    }

    /** A social button goes to the dashboard after a second, whatever the
        provider. */
    method HandleSocialAuth(provider: string)
      modifies this
      ensures effects == old(effects) + [NavigateLater(SocialDelayMs, DashboardPath)]
      ensures isLogin == old(isLogin) && isLoading == old(isLoading) && formData == old(formData) && errors == old(errors)
    {
      effects := effects + [NavigateLater(SocialDelayMs, DashboardPath)];
    }
  }
}
