/** The sign-in screen (`Login`): three modes (sign-in, sign-up, forgot-password)
    kept in two flags, a mode switch, and a submit that calls the endpoint of
    the current mode and reports the outcome. */
module LoginPage {
  import opened Remote
  import Auth
  import opened Routes

  const SignUpFallback := "Sign up failed"
  const ResetFallback := "Password reset failed"
  const SignUpSucceeded := "Account created successfully! You can now log in."
  const ResetSent := "Password reset email sent! Check your inbox."

  datatype Mode = SignIn | SignUp | ForgotPassword

  /** The screen's state; `navigatedTo` is the last path passed to `navigate`. */
  datatype ScreenState = ScreenState(
    isSignUp: bool,
    isForgotPassword: bool,
    loading: bool,
    error: Option<string>,
    success: Option<string>,
    navigatedTo: Option<string>)

  const InitialScreen := ScreenState(false, false, false, None, None, None)

  /** The mode the screen shows: sign-up wins over forgot-password. */
  function ModeOf(s: ScreenState): Mode {
    if s.isSignUp then SignUp else if s.isForgotPassword then ForgotPassword else SignIn
  }

  /** At most one of the two flags is set. */
  predicate Exclusive(s: ScreenState) {
    !(s.isSignUp && s.isForgotPassword)
  }

  /** `toggleMode`: clear both messages and set exactly the flags of the target mode. */
  function ToggleStep(s: ScreenState, target: Mode): (r: ScreenState)
    ensures r.error.None? && r.success.None?
    ensures ModeOf(r) == target && Exclusive(r)
    ensures r.isSignUp == (target == SignUp) && r.isForgotPassword == (target == ForgotPassword)
    ensures r.loading == s.loading && r.navigatedTo == s.navigatedTo
  {
    var cleared := s.(error := None, success := None);
    match target
    case SignIn => cleared.(isSignUp := false, isForgotPassword := false)
    case SignUp => cleared.(isSignUp := true, isForgotPassword := false)
    case ForgotPassword => cleared.(isSignUp := false, isForgotPassword := true)
  }

  /** The identity-provider endpoint a submit calls. */
  datatype Endpoint = SignUpCall | PasswordResetCall | SignInCall

  /** Submit tests `isSignUp` before `isForgotPassword`. */
  function EndpointFor(s: ScreenState): (e: Endpoint)
    ensures e == SignUpCall <==> s.isSignUp
    ensures e == PasswordResetCall <==> !s.isSignUp && s.isForgotPassword
    ensures Exclusive(s) ==> e == match ModeOf(s) case SignIn => SignInCall case SignUp => SignUpCall case ForgotPassword => PasswordResetCall
  {
    if s.isSignUp then SignUpCall else if s.isForgotPassword then PasswordResetCall else SignInCall
  }

  /** The message an endpoint's rejection carries when the provider gives none. */
  function Fallback(e: Endpoint): (r: string)
    ensures r != ""
  {
    match e
    case SignUpCall => SignUpFallback
    case PasswordResetCall => ResetFallback
    case SignInCall => Auth.LoginFallback
  }

  /** The `catch` block: an `Error`'s message, or the generic failure text,
      which is the same text as the sign-in call's fallback. */
  function MessageOf(t: Thrown): (r: string)
    ensures r == "" ==> t.ErrorObject? && t.message == ""
  {
    match t
    case ErrorObject(message) => message
    case OtherValue => Auth.LoginFallback
  }

  /** `handleSubmit`, given how the call of the current mode came back (`None`
      when it completed, the thrown value otherwise). Both messages are cleared
      first; a failure shows its message and keeps the mode; a completed sign-up
      or reset shows its confirmation and goes back to sign-in; a completed
      sign-in goes to the dashboard. It always ends not loading. */
  function SubmitStep(s: ScreenState, outcome: Option<Thrown>): (r: ScreenState)
    ensures !r.loading
    ensures outcome.Some? ==>
      && r.error == Some(MessageOf(outcome.value)) && r.success.None?
      && r.isSignUp == s.isSignUp && r.isForgotPassword == s.isForgotPassword
      && r.navigatedTo == s.navigatedTo
    ensures outcome.None? && s.isSignUp ==>
      && r.error.None? && r.success == Some(SignUpSucceeded)
      && !r.isSignUp && r.isForgotPassword == s.isForgotPassword && r.navigatedTo == s.navigatedTo
    ensures outcome.None? && !s.isSignUp && s.isForgotPassword ==>
      && r.error.None? && r.success == Some(ResetSent)
      && !r.isSignUp && !r.isForgotPassword && r.navigatedTo == s.navigatedTo
    ensures outcome.None? && !s.isSignUp && !s.isForgotPassword ==>
      && r.error.None? && r.success.None?
      && !r.isSignUp && !r.isForgotPassword && r.navigatedTo == Some(DashboardPath)
    ensures Exclusive(s) ==> Exclusive(r) && (ModeOf(r) == ModeOf(s) || ModeOf(r) == SignIn)
  {
    var started := s.(loading := true, error := None, success := None);
    var finished :=
      match outcome
      case Some(t) => started.(error := Some(MessageOf(t)))
      case None =>
        if started.isSignUp then started.(success := Some(SignUpSucceeded), isSignUp := false)
        else if started.isForgotPassword then started.(success := Some(ResetSent), isForgotPassword := false)
        else started.(navigatedTo := Some(DashboardPath));
    finished.(loading := false)
  }

  /** What a submit shows when its call fails: a rejection shows the provider's
      message, or the current endpoint's non-empty fallback when the provider
      gives none; any other failure shows the thrown error's message, or
      'Authentication failed' for a value that is not an `Error`. A completed
      call shows no error. */
  lemma SubmitShowsFailure<T>(s: ScreenState, reply: Reply<T>)
    ensures var r := SubmitStep(s, ThrownBy(reply, Fallback(EndpointFor(s))));
      && (reply.Ok? ==> r.error.None?)
      && (reply.Rejected? ==> r.error == Some(if reply.providerMessage != "" then reply.providerMessage else Fallback(EndpointFor(s))))
      && (reply.Rejected? ==> r.error.value != "")
      && (reply.Failed? && reply.thrown.ErrorObject? ==> r.error == Some(reply.thrown.message))
      && (reply.Failed? && reply.thrown.OtherValue? ==> r.error == Some(Auth.LoginFallback))
  {
  }

  /** What the user can do on the screen. */
  datatype UiEvent = Toggle(target: Mode) | Submit(outcome: Option<Thrown>)

  function ApplyUi(s: ScreenState, e: UiEvent): ScreenState {
    match e
    case Toggle(target) => ToggleStep(s, target)
    case Submit(outcome) => SubmitStep(s, outcome)
  }

  function RunUi(s: ScreenState, events: seq<UiEvent>): ScreenState
    decreases |events|
  {
    if events == [] then s else RunUi(ApplyUi(s, events[0]), events[1..])
  }

  lemma {:induction false} ExclusiveUnderEvents(s: ScreenState, events: seq<UiEvent>)
    requires Exclusive(s)
    ensures Exclusive(RunUi(s, events))
    decreases |events|
  {
    if events != [] {
      ExclusiveUnderEvents(ApplyUi(s, events[0]), events[1..]);
    }
  }

  /** Whatever the user does, the screen is never in sign-up and forgot-password
      mode at once. */
  lemma ModesNeverOverlap(events: seq<UiEvent>)
    ensures Exclusive(RunUi(InitialScreen, events))
  {
    ExclusiveUnderEvents(InitialScreen, events);
  }

  /** The mode-dependent parts of the screen. */
  datatype View = View(
    title: string,
    prompt: string,
    headerLink: string,
    headerTarget: Mode,
    showsNameField: bool,
    showsPasswordField: bool,
    showsForgotLink: bool,
    submitLabel: string)

  /** What the screen renders, read off the two flags as the markup does. */
  function Render(s: ScreenState): (r: View)
    ensures r.showsNameField <==> ModeOf(s) == SignUp
    ensures r.showsForgotLink <==> ModeOf(s) == SignIn
    ensures r.headerTarget != ModeOf(s)
  {
    View(
      if s.isSignUp then "Create your account" else if s.isForgotPassword then "Reset your password" else "Sign in to your account",
      if s.isSignUp then "Already have an account?" else if s.isForgotPassword then "Remember your password?" else "Don't have an account?",
      if s.isSignUp then "Sign in" else "Sign up",
      if s.isSignUp then SignIn else SignUp,
      s.isSignUp,
      !s.isForgotPassword,
      !s.isSignUp && !s.isForgotPassword,
      if s.loading then
        (if s.isSignUp then "Creating account..." else if s.isForgotPassword then "Sending reset email..." else "Signing in...")
      else
        (if s.isSignUp then "Create Account" else if s.isForgotPassword then "Send Reset Link" else "Sign in"))
  }

  /** The screen of each mode, written out mode by mode. */
  function ViewFor(m: Mode, loading: bool): View {
    match m
    case SignIn =>
      View("Sign in to your account", "Don't have an account?", "Sign up", SignUp, false, true, true,
           if loading then "Signing in..." else "Sign in")
    case SignUp =>
      View("Create your account", "Already have an account?", "Sign in", SignIn, true, true, false,
           if loading then "Creating account..." else "Create Account")
    case ForgotPassword =>
      View("Reset your password", "Remember your password?", "Sign up", SignUp, false, false, false,
           if loading then "Sending reset email..." else "Send Reset Link")
  }

  /** With exclusive flags, everything the screen shows is determined by its mode;
      the header link leads from sign-up to sign-in and from the other two modes
      to sign-up. */
  lemma RenderFollowsMode(s: ScreenState)
    requires Exclusive(s)
    ensures Render(s) == ViewFor(ModeOf(s), s.loading)
    ensures ModeOf(ToggleStep(s, Render(s).headerTarget)) == if ModeOf(s) == SignUp then SignIn else SignUp
  {
  }

  /** The screen object, whose handlers update the flags and messages one after another. */
  class LoginScreen {
    var isSignUp: bool
    var isForgotPassword: bool
    var loading: bool
    var error: Option<string>
    var success: Option<string>
    var navigatedTo: Option<string>

    function Snapshot(): ScreenState
      reads this
    {
      ScreenState(isSignUp, isForgotPassword, loading, error, success, navigatedTo)
    }

    constructor ()
      ensures !isSignUp && !isForgotPassword && !loading && error.None? && success.None?
      ensures Snapshot() == InitialScreen
    {
      isSignUp := false;
      isForgotPassword := false;
      loading := false;
      error := None;
      success := None;
      navigatedTo := None;
    }

    method ToggleMode(target: Mode)
      modifies this
      ensures Snapshot() == ToggleStep(old(Snapshot()), target)
    {
      error := None;
      success := None;
      match target {
        case SignIn =>
          isSignUp := false;
          isForgotPassword := false;
        case SignUp =>
          isSignUp := true;
          isForgotPassword := false;
        case ForgotPassword =>
          isSignUp := false;
          isForgotPassword := true;
      }
    }

    /** `handleSubmit`. The sign-up and reset calls are made here (only whether
      they succeeded matters); the sign-in call goes through the session holder's
      `login`, which is the only path that touches `auth`. */
    method HandleSubmit(auth: Auth.AuthProvider, now: nat, reply: Reply<Auth.SignInBody>) returns (endpoint: Endpoint)
      modifies this, auth
      ensures endpoint == EndpointFor(old(Snapshot()))
      ensures Snapshot() == SubmitStep(old(Snapshot()), ThrownBy(reply, Fallback(endpoint)))
      ensures endpoint == SignInCall ==> auth.Snapshot() == Auth.LoginStep(old(auth.Snapshot()), now, reply).session
      ensures endpoint != SignInCall ==> auth.Snapshot() == old(auth.Snapshot())
    {
      loading := true;
      error := None;
      success := None;
      var thrown: Option<Thrown>;
      if isSignUp {
        endpoint := SignUpCall;
        thrown := ThrownBy(reply, SignUpFallback);
        if thrown.None? {
          success := Some(SignUpSucceeded);
          isSignUp := false;
        }
      } else if isForgotPassword {
        endpoint := PasswordResetCall;
        thrown := ThrownBy(reply, ResetFallback);
        if thrown.None? {
          success := Some(ResetSent);
          isForgotPassword := false;
        }
      } else {
        endpoint := SignInCall;
        thrown := auth.Login(now, reply);
        if thrown.None? {
          navigatedTo := Some(DashboardPath);
        }
      }
      if thrown.Some? {
        error := Some(MessageOf(thrown.value));
      }
      loading := false;
    }
  }
}
