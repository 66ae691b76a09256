/** The sign-in screen: the "Sign In" button's guard, the loading flag that
    disables it, the completion of the Firebase sign-in, and the "Skip
    Login" button. */
module LoginScreen {
  import opened KotlinStd
  import opened FirebaseTask

  datatype LoginState = LoginState(
    email: string, password: string, isLoading: bool, errorMessage: string,
    /** `onLoginSuccess` has been called. */
    loggedIn: bool,
    /** A sign-in request is waiting for its completion listener. */
    pending: bool)

  const Initial := LoginState("", "", false, "", false, false)

  const FillInAllFields := "Please fill in all fields"
  const LoginFailed := "Login failed"

  /** The button is enabled iff nothing is loading. */
  predicate ButtonEnabled(st: LoginState)
  {
    !st.isLoading
  }

  /** Pressing "Sign In": with both fields filled a request starts, the
      loading flag is set and the error cleared; otherwise only the error
      message is set. A disabled button does nothing. */
  function PressSignIn(st: LoginState): (next: LoginState)
    ensures !ButtonEnabled(st) ==> next == st
    ensures ButtonEnabled(st) && st.email != "" && st.password != "" ==>
      next.isLoading && next.pending && next.errorMessage == "" && !ButtonEnabled(next)
    ensures ButtonEnabled(st) && (st.email == "" || st.password == "") ==>
      next == st.(errorMessage := FillInAllFields)
    ensures next.loggedIn == st.loggedIn
  {
    if !ButtonEnabled(st) then st
    else if st.email != "" && st.password != "" then
      st.(isLoading := true, errorMessage := "", pending := true)
    else st.(errorMessage := FillInAllFields)
  }

  /** The completion listener: loading stops either way; success signs in,
      failure shows the exception's message or "Login failed". */
  function SignInCompleted(st: LoginState, result: TaskResult): (next: LoginState)
    requires st.pending
    ensures !next.isLoading && !next.pending && ButtonEnabled(next)
    ensures next.loggedIn <==> st.loggedIn || result == Succeeded
    ensures result.Failed? ==> next.errorMessage == FailureText(result.message, LoginFailed)
    ensures result == Succeeded ==> next.errorMessage == st.errorMessage
  {
    var done := st.(isLoading := false, pending := false);
    match result
    case Succeeded => done.(loggedIn := true)
    case Failed(m) => done.(errorMessage := FailureText(m, LoginFailed))
  }

  /** "Skip Login" calls the success callback without any check. */
  function SkipLogin(st: LoginState): (next: LoginState)
    ensures next.loggedIn
  {
    st.(loggedIn := true)
  }

  /** One press of "Sign In" from a fresh screen followed by the request's
      completion: the user is signed in iff both fields were filled and
      Firebase accepted them, and the error shown names the reason
      otherwise. */
  lemma SignInFlow(email: string, password: string, result: TaskResult)
    ensures var pressed := PressSignIn(Initial.(email := email, password := password));
      var final := if pressed.pending then SignInCompleted(pressed, result) else pressed;
      && (final.loggedIn <==> email != "" && password != "" && result == Succeeded)
      && (email == "" || password == "" ==> final.errorMessage == FillInAllFields)
      && (email != "" && password != "" && result.Failed? ==>
            final.errorMessage == FailureText(result.message, LoginFailed))
      && (final.loggedIn ==> final.errorMessage == "")
      && ButtonEnabled(final)
  {
  }

  /** While a request is pending the button is disabled, so pressing again
      starts nothing. */
  lemma NoSecondRequestWhilePending(st: LoginState)
    ensures var p := PressSignIn(st);
      p.pending && p != st ==> PressSignIn(p) == p
  {
  }
}
