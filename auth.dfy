/** The mobile sign-in screen: three modes, their fields and links, and the submit action. */
module AuthScreen {
  import opened Wrappers
  import opened Alerts

  datatype Mode = SignIn | SignUp | Reset

  /** The links under the form: "Forgot your password?", "Sign up", "Sign in", "Back to sign in". */
  datatype Link = ForgotPassword | SignUpLink | SignInLink | BackToSignIn

  /** The links a mode shows. */
  function Links(mode: Mode): set<Link> {
    match mode
    case SignIn => {ForgotPassword, SignUpLink}
    case SignUp => {SignInLink}
    case Reset => {BackToSignIn}
  }

  /** The mode a link switches to. */
  function Target(link: Link): Mode {
    match link
    case ForgotPassword => Reset
    case SignUpLink => SignUp
    case SignInLink => SignIn
    case BackToSignIn => SignIn
  }

  /** The screen can switch from `from` to `to` with one tap. */
  predicate CanSwitch(from: Mode, to: Mode) {
    exists link :: link in Links(from) && Target(link) == to
  }

  /** The only switches are sign-in to reset, sign-in to sign-up, and back to sign-in from either. */
  lemma SwitchesSpec(from: Mode, to: Mode)
    ensures CanSwitch(from, to) <==> (from, to) in {(SignIn, Reset), (SignIn, SignUp), (SignUp, SignIn), (Reset, SignIn)}
  {
    if from == SignIn && to == Reset { assert Target(ForgotPassword) == to; }
    if from == SignIn && to == SignUp { assert Target(SignUpLink) == to; }
    if from == SignUp && to == SignIn { assert Target(SignInLink) == to; }
    if from == Reset && to == SignIn { assert Target(BackToSignIn) == to; }
  }

  /** The full-name field is part of the form only when signing up. */
  predicate ShowsFullName(mode: Mode) {
    mode == SignUp
  }

  /** The password field is part of the form except when resetting. */
  predicate ShowsPassword(mode: Mode) {
    mode != Reset
  }

  /** The submit button's text. */
  function SubmitLabel(mode: Mode, loading: bool): (r: string)
    ensures loading <==> r == "Loading..."
  {
    if loading then "Loading..."
    else match mode
      case SignIn => "Sign In"
      case SignUp => "Sign Up"
      case Reset => "Send Reset Link"
  }

  /** Each mode has a label of its own. */
  lemma SubmitLabelsDiffer(a: Mode, b: Mode)
    ensures SubmitLabel(a, false) == SubmitLabel(b, false) <==> a == b
  {
  }

  /** The call `handleSubmit` makes to the authentication service. */
  datatype Action =
    | SignUpCall(email: string, password: string, fullName: string)
    | SignInCall(email: string, password: string)
    | ResetCall(email: string)

  /** The action of a mode, from the fields that mode shows. */
  function ActionFor(mode: Mode, email: string, password: string, fullName: string): (r: Action)
    ensures r.SignUpCall? <==> mode == SignUp
    ensures r.SignInCall? <==> mode == SignIn
    ensures r.ResetCall? <==> mode == Reset
    ensures r.email == email
    ensures ShowsPassword(mode) <==> (r.SignUpCall? || r.SignInCall?)
    ensures r.SignUpCall? || r.SignInCall? ==> r.password == password
    ensures ShowsFullName(mode) <==> r.SignUpCall?
    ensures r.SignUpCall? ==> r.fullName == fullName
  {
    match mode
    case SignUp => SignUpCall(email, password, fullName)
    case SignIn => SignInCall(email, password)
    case Reset => ResetCall(email)
  }

  /** The service's answer: success (for sign-up, whether a user came back) or an error message. */
  datatype AuthResult = Succeeded(userReturned: bool) | Error(message: string)

  const CONFIRM_ALERT := Alert("Success", "Check your email for the confirmation link!")
  const RESET_ALERT := Alert("Success", "Check your email for the password reset link!")

  /** The alert after the call: the error's message, or the success notice of sign-up and reset. */
  function AlertFor(action: Action, result: AuthResult): (r: Option<Alert>)
    ensures result.Error? ==> r == Some(Alert("Error", result.message))
    ensures result.Succeeded? && action.SignInCall? ==> r == None
    ensures result.Succeeded? && action.SignUpCall? ==> (r.Some? <==> result.userReturned) && (r.Some? ==> r.value == CONFIRM_ALERT)
    ensures result.Succeeded? && action.ResetCall? ==> r == Some(RESET_ALERT)
  {
    match result
    case Error(message) => Some(Alert("Error", message))
    case Succeeded(userReturned) =>
      match action
      case SignUpCall(_, _, _) => if userReturned then Some(CONFIRM_ALERT) else None
      case SignInCall(_, _) => None
      case ResetCall(_) => Some(RESET_ALERT)
  }

  class Screen {
    var mode: Mode
    var email: string
    var password: string
    var fullName: string
    var showPassword: bool
    var loading: bool
    /** The last alert shown, if any. */
    var alert: Option<Alert>

    constructor ()
      ensures mode == SignIn && email == "" && password == "" && fullName == ""
      ensures !showPassword && !loading && alert == None
    {
      mode := SignIn;
      email := "";
      password := "";
      fullName := "";
      showPassword := false;
      loading := false;
      alert := None;
    }

    function Label(): string
      reads this
    {
      SubmitLabel(mode, loading)
    }

    /** A tap on one of the links the current mode shows. */
    method Follow(link: Link)
      requires link in Links(mode)
      modifies this`mode
      ensures CanSwitch(old(mode), mode) && mode == Target(link)
    {
      mode := Target(link);
    }

    /** The eye button. */
    method TogglePasswordVisibility()
      modifies this`showPassword
      ensures showPassword == !old(showPassword)
    {
      showPassword := !showPassword;
    }

    /** The synchronous start of `handleSubmit`: loading starts and the mode's call is made. */
    method BeginSubmit() returns (action: Action)
      modifies this`loading
      ensures loading && Label() == "Loading..."
      ensures action == ActionFor(mode, email, password, fullName)
    {
      loading := true;
      action := ActionFor(mode, email, password, fullName);
    }

    /** The end of `handleSubmit`: the alert for the call it made, and loading stops either way. */
    method FinishSubmit(action: Action, result: AuthResult)
      modifies this`loading, this`alert
      ensures !loading
      ensures alert == if AlertFor(action, result).Some? then AlertFor(action, result) else old(alert)
    {
      var shown := AlertFor(action, result);
      if shown.Some? {
        alert := shown;
      }
      loading := false;
    }

    /** `handleSubmit` as a whole. */
    method HandleSubmit(result: AuthResult) returns (action: Action)
      modifies this`loading, this`alert
      ensures action == ActionFor(mode, email, password, fullName)
      ensures !loading && Label() == SubmitLabel(mode, false)
      ensures alert == if AlertFor(action, result).Some? then AlertFor(action, result) else old(alert)
    {
      action := BeginSubmit();
      FinishSubmit(action, result);
    }
  }
}
