/**
 * The login / sign-up form: its validation rule for passwords, which toast and
 * navigation each outcome of the auth call produces, and its two loading flags.
 */
module AuthForm {
  import opened Outcomes
  import opened Toasts
  import opened AuthGuard

  const MinPasswordLength: nat := 6
  const InvalidEmailMessage: string := "Please enter a valid email address"
  const PasswordTooShortMessage: string := "Password must be at least 6 characters"

  /**
   * The messages `authFormSchema` reports. The e-mail check is zod's own
   * `email()` test, given here as `emailValid`.
   */
  function Issues(emailValid: bool, password: string): (issues: seq<string>)
    ensures issues == [] <==> emailValid && |password| >= MinPasswordLength
    ensures PasswordTooShortMessage in issues <==> |password| < MinPasswordLength
    ensures InvalidEmailMessage in issues <==> !emailValid
  {
    (if emailValid then [] else [InvalidEmailMessage])
    + (if |password| < MinPasswordLength then [PasswordTooShortMessage] else [])
  }

  datatype FormType = Login | Signup

  /** An `AuthError`; only its `code` is read. */
  datatype AuthError = AuthError(code: Option<string>)

  /** How an awaited auth call ends: it throws, or it resolves with `{ error }`. */
  datatype CallOutcome = Threw | Returned(error: Option<AuthError>)

  /** What a submission leaves on screen: one toast, and the route pushed, if any. */
  datatype Feedback = Feedback(toast: Toast, navigation: Option<string>)

  const GenericMessage: string := "Something went wrong. Please try again."
  const InvalidCredentialsMessage: string :=
    "Invalid email or password. Please check your credentials or sign up if you don't have an account."
  const LoggedInToast: Toast := Toast("Success", "You have been logged in", false)
  const SignedUpToast: Toast := Toast("Success", "Account created. Check your email for verification", false)
  const GoogleFailedMessage: string := "Could not sign in with Google. Please try again."

  /** The description of the toast for a login that resolved with an error. */
  function LoginErrorMessage(e: AuthError): (m: string)
    ensures m == InvalidCredentialsMessage <==> e.code == Some("invalid_credentials")
    ensures m != InvalidCredentialsMessage ==> m == GenericMessage
  {
    if e.code == Some("invalid_credentials") then InvalidCredentialsMessage else GenericMessage
  }

  /** The body of `onSubmit`'s `try`/`catch` for a form of type `kind`. */
  function SubmitFeedback(kind: FormType, outcome: CallOutcome): (f: Feedback)
    ensures f.navigation.Some? <==> kind == Login && outcome == Returned(None)
    ensures f.navigation.Some? ==> f.navigation.value == DashboardRoute && f.toast == LoggedInToast
    ensures kind == Login && outcome.Returned? && outcome.error.Some? ==>
              f.toast == ErrorToast(LoginErrorMessage(outcome.error.value))
    ensures kind == Signup && outcome.Returned? ==> f.toast == SignedUpToast
    ensures outcome.Threw? ==> f.toast == ErrorToast(GenericMessage)
  {
    match outcome
    case Threw => Feedback(ErrorToast(GenericMessage), None)
    case Returned(error) =>
      if kind == Signup then Feedback(SignedUpToast, None)
      else if error.Some? then Feedback(ErrorToast(LoginErrorMessage(error.value)), None)
      else
        assert kind == Login && outcome == Returned(None);
        Feedback(LoggedInToast, Some(DashboardRoute))
  }

  /** A submission fails visibly exactly when its toast is the destructive one. */
  lemma FailureIsDestructive(kind: FormType, outcome: CallOutcome)
    ensures SubmitFeedback(kind, outcome).toast.destructive <==>
              outcome.Threw? || (kind == Login && outcome.error.Some?)
  {
  }

  /** Sign-up never reads the error it gets back: an error and no error look the same. */
  lemma SignupIgnoresReturnedError(e: AuthError)
    ensures SubmitFeedback(Signup, Returned(Some(e))) == SubmitFeedback(Signup, Returned(None))
  {
  }

  /** The toast of `handleGoogleSignIn`, if any. */
  function GoogleFeedback(outcome: CallOutcome): (toast: Option<Toast>)
    ensures toast.None? <==> outcome == Returned(None)
    ensures toast.Some? ==> toast.value == ErrorToast(GoogleFailedMessage)
  {
    if outcome == Returned(None) then None else Some(ErrorToast(GoogleFailedMessage))
  }

  /** For Google sign-in, a returned error and a thrown exception are reported alike. */
  lemma GoogleFailuresAgree(e: AuthError)
    ensures GoogleFeedback(Returned(Some(e))) == GoogleFeedback(Threw)
  {
  }

  /** The mounted form's two spinners. */
  class AuthFormState {
    const kind: FormType
    var isLoading: bool
    var isGoogleLoading: bool

    constructor (kind: FormType)
      ensures this.kind == kind && !isLoading && !isGoogleLoading
    {
      this.kind := kind;
      isLoading := false;
      isGoogleLoading := false;
    }

    /**
     * `form.handleSubmit(onSubmit)`: validation, then `signIn` or `signUp`, given as
     * `call`. `busy` is `isLoading` while the call is awaited.
     */
    method Submit(email: string, emailValid: bool, password: string, call: (string, string) -> CallOutcome)
      returns (issues: seq<string>, feedback: Option<Feedback>, ghost busy: bool)
      modifies this
      ensures issues == Issues(emailValid, password)
      ensures feedback.Some? <==> issues == []
      ensures feedback.None? ==> isLoading == old(isLoading)
      ensures feedback.Some? ==> feedback.value == SubmitFeedback(kind, call(email, password)) && !isLoading && busy
      ensures isGoogleLoading == old(isGoogleLoading)
    {
      issues := Issues(emailValid, password);
      busy := isLoading;
      if issues != [] {
        return issues, None, busy;
      }
      isLoading := true;
      busy := isLoading;
      var outcome := call(email, password);
      feedback := Some(SubmitFeedback(kind, outcome));
      isLoading := false;
    }

    /** `handleGoogleSignIn`, with the awaited `signInWithGoogle()` as `outcome`. */
    method HandleGoogleSignIn(outcome: CallOutcome) returns (toast: Option<Toast>, ghost busy: bool)
      modifies this
      ensures toast == GoogleFeedback(outcome) && !isGoogleLoading && busy
      ensures isLoading == old(isLoading)
    {
      isGoogleLoading := true;
      busy := isGoogleLoading;
      toast := GoogleFeedback(outcome);
      isGoogleLoading := false;
    }
  }
}
