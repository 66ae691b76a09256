/** The sign-up screen: the ordered form validation with its messages, and
    the two chained Firebase tasks (account creation, then the profile
    write) that end in success or an error message. */
module SignupScreen {
  import opened KotlinStd
  import opened KotlinText
  import opened FirebaseTask

  datatype SignupForm = SignupForm(
    fullName: string, email: string, phoneNumber: string,
    password: string, confirmPassword: string)

  const EnterFullName := "Please enter your full name"
  const EnterEmail := "Please enter your email"
  const EnterValidEmail := "Please enter a valid email"
  const EnterPassword := "Please enter a password"
  const PasswordTooShort := "Password must be at least 6 characters"
  const PasswordsDiffer := "Passwords do not match"
  const SignupFailed := "Signup failed"
  const ProfileFailedPrefix := "Profile creation failed: "

  /** The form is acceptable: every rule of the screen holds. */
  predicate Acceptable(f: SignupForm)
  {
    f.fullName != "" && '@' in f.email && |f.password| >= 6 && f.password == f.confirmPassword
  }

  /** `validateForm`: the first failing rule's message, checked in the
      screen's order, or `None` when the form passes. */
  function Validate(f: SignupForm): (err: Option<string>)
    ensures err.None? <==> Acceptable(f)
    ensures err == Some(EnterFullName) <==> f.fullName == ""
    ensures err == Some(EnterEmail) <==> f.fullName != "" && f.email == ""
    ensures err == Some(EnterValidEmail) <==> f.fullName != "" && f.email != "" && '@' !in f.email
    ensures err == Some(EnterPassword) <==>
      f.fullName != "" && f.email != "" && '@' in f.email && f.password == ""
    ensures err == Some(PasswordTooShort) <==>
      f.fullName != "" && f.email != "" && '@' in f.email && 0 < |f.password| < 6
    ensures err == Some(PasswordsDiffer) <==>
      f.fullName != "" && f.email != "" && '@' in f.email && |f.password| >= 6 && f.password != f.confirmPassword
    ensures err == Some(PasswordsDiffer) ==> Acceptable(f.(confirmPassword := f.password))
  {
    ContainsChar(f.email, '@');
    if f.fullName == "" then Some(EnterFullName)
    else if f.email == "" then Some(EnterEmail)
    else if !Contains(f.email, "@") then Some(EnterValidEmail)
    else if f.password == "" then Some(EnterPassword)
    else if |f.password| < 6 then Some(PasswordTooShort)
    else if f.password != f.confirmPassword then Some(PasswordsDiffer)
    else None
  }

  /** The phone number is optional: it never changes the verdict. */
  lemma PhoneNumberIgnored(f: SignupForm, phone: string)
    ensures Validate(f.(phoneNumber := phone)) == Validate(f)
  {
  }

  /** The messages are distinct, so the message tells which rule failed
      first. */
  lemma MessagesDistinct()
    ensures |{EnterFullName, EnterEmail, EnterValidEmail, EnterPassword, PasswordTooShort, PasswordsDiffer}| == 6
  {
  }

  datatype Phase =
    | Editing
    /** Waiting for `createUserWithEmailAndPassword`. */
    | CreatingAccount
    /** Waiting for the profile document write of user `uid`. */
    | WritingProfile(uid: string)
    /** `onSignupSuccess` has been called. */
    | SignedUp

  datatype SignupState = SignupState(form: SignupForm, isLoading: bool, errorMessage: string, phase: Phase)

  const Initial := SignupState(SignupForm("", "", "", "", ""), false, "", Editing)

  predicate ButtonEnabled(st: SignupState)
  {
    !st.isLoading
  }

  /** Pressing "Create Account": a failing form shows its message; a passing
      one clears the error, sets the loading flag and starts the account
      creation. A disabled button does nothing. */
  function PressSignUp(st: SignupState): (next: SignupState)
    ensures !ButtonEnabled(st) ==> next == st
    ensures ButtonEnabled(st) && Validate(st.form).Some? ==>
      next == st.(errorMessage := Validate(st.form).value)
    ensures ButtonEnabled(st) && Validate(st.form).None? ==>
      next == st.(isLoading := true, errorMessage := "", phase := CreatingAccount)
  {
    if !ButtonEnabled(st) then st
    else match Validate(st.form)
      case Some(e) => st.(errorMessage := e)
      case None => st.(isLoading := true, errorMessage := "", phase := CreatingAccount)
  }

  /** The account-creation listener. `currentUser` is the signed-in user's
      id right after the task, when there is one. A success with no current
      user does nothing at all, so the screen keeps loading. */
  function AccountCreated(st: SignupState, result: TaskResult, currentUser: Option<string>): (next: SignupState)
    requires st.phase == CreatingAccount
    ensures result.Failed? ==>
      next == st.(isLoading := false, errorMessage := FailureText(result.message, SignupFailed), phase := Editing)
    ensures result == Succeeded && currentUser.Some? ==> next == st.(phase := WritingProfile(currentUser.value))
    ensures result == Succeeded && currentUser.None? ==> next == st
  {
    match result
    case Failed(m) => st.(isLoading := false, errorMessage := FailureText(m, SignupFailed), phase := Editing)
    case Succeeded =>
      match currentUser
      case Some(uid) => st.(phase := WritingProfile(uid))
      case None => st
  }

  /** The profile-write listener: success calls `onSignupSuccess`; failure
      shows "Profile creation failed: " and the exception's message. */
  function ProfileWritten(st: SignupState, result: TaskResult): (next: SignupState)
    requires st.phase.WritingProfile?
    ensures !next.isLoading
    ensures next.phase == SignedUp <==> result == Succeeded
    ensures result.Failed? ==>
      next.errorMessage == ProfileFailedPrefix + TemplateText(result.message) && next.phase == Editing
  {
    match result
    case Succeeded => st.(isLoading := false, phase := SignedUp)
    case Failed(m) => st.(isLoading := false, errorMessage := ProfileFailedPrefix + TemplateText(m), phase := Editing)
  }

  /** The whole sign-up from a fresh screen: one press, then the account
      task with its current user, then (when reached) the profile task. */
  function RunSignup(f: SignupForm, account: TaskResult, currentUser: Option<string>, profile: TaskResult): SignupState
  {
    var pressed := PressSignUp(Initial.(form := f));
    if pressed.phase != CreatingAccount then pressed
    else
      var created := AccountCreated(pressed, account, currentUser);
      if created.phase.WritingProfile? then ProfileWritten(created, profile) else created
  }

  /** Sign-up succeeds iff the form is acceptable and both tasks succeed
      with a current user; a refused form shows its message, a failed
      account task its message or "Signup failed". */
  lemma SignupFlow(f: SignupForm, account: TaskResult, currentUser: Option<string>, profile: TaskResult)
    ensures var final := RunSignup(f, account, currentUser, profile);
      && (final.phase == SignedUp <==>
            Acceptable(f) && account == Succeeded && currentUser.Some? && profile == Succeeded)
      && (!Acceptable(f) ==> final.errorMessage == Validate(f).value && !final.isLoading)
      && (Acceptable(f) && account.Failed? ==>
            final.errorMessage == FailureText(account.message, SignupFailed) && !final.isLoading)
      && (final.phase == SignedUp ==> final.errorMessage == "")
  {
  }

  /** A successful account task without a current user leaves the screen
      loading with the button disabled, and no listener is left to clear
      it. */
  lemma NoUserKeepsLoading(f: SignupForm, profile: TaskResult)
    requires Acceptable(f)
    ensures var final := RunSignup(f, Succeeded, None, profile);
      final.isLoading && !ButtonEnabled(final) && final.phase == CreatingAccount
  {
  }
}
