/** The sign-in / sign-up page: the form, the ordered local checks of a sign-up, the
    outcome of the authentication call, and the mode toggle. */
module AuthPage {
  import opened Wrappers
  import opened Domain

  datatype AuthForm = AuthForm(name: string, email: string, password: string, confirmPassword: string)

  const EmptyForm: AuthForm := AuthForm("", "", "", "")

  datatype AuthField = NameField | EmailField | PasswordField | ConfirmPasswordField

  /** What the authentication service did: succeeded, returned an error, or threw. Either
      kind of error may lack a message. */
  datatype CallOutcome = Succeeded | ReturnedError(message: Option<string>) | Threw(message: Option<string>)

  /** A call made to the authentication service. */
  datatype AuthCall =
    | SignUp(email: string, password: string, name: string, languagePreference: Language)
    | SignIn(email: string, password: string)

  const PasswordsDoNotMatch: string := "Passwords do not match"
  const PasswordTooShort: string := "Password must be at least 6 characters"
  const MinPasswordLength: int := 6

  /** `message || fallback`. */
  function MessageOr(message: Option<string>, fallback: string): (r: string)
    ensures message.Some? && message.value != "" ==> r == message.value
    ensures !(message.Some? && message.value != "") ==> r == fallback
  {
    if message.Some? && message.value != "" then message.value else fallback
  }

  /** `location.state?.from?.pathname || '/'`. */
  function FromPath(savedPath: Option<string>): (r: string)
    ensures r != ""
    ensures savedPath.Some? && savedPath.value != "" ==> r == savedPath.value
    ensures !(savedPath.Some? && savedPath.value != "") ==> r == "/"
  {
    MessageOr(savedPath, "/")
  }

  /** What a submit does: the error it leaves on screen, the service call it makes, and
      where it navigates. */
  datatype SubmitEffect = SubmitEffect(error: string, call: Option<AuthCall>, navigateTo: Option<string>)

  /** `handleSubmit`. In sign-up mode the mismatch check comes first, then the length
      check; either stops before the service is called. Otherwise the service is called
      once, and its outcome decides the error or the navigation. */
  function SubmitResult(isSignUp: bool, form: AuthForm, outcome: CallOutcome, savedPath: Option<string>)
    : (r: SubmitEffect)
    ensures isSignUp && form.password != form.confirmPassword ==> r == SubmitEffect(PasswordsDoNotMatch, None, None)
    ensures isSignUp && form.password == form.confirmPassword && |form.password| < MinPasswordLength ==>
      r == SubmitEffect(PasswordTooShort, None, None)
    ensures r.call.None? <==> isSignUp && (form.password != form.confirmPassword || |form.password| < MinPasswordLength)
    ensures r.call.Some? && isSignUp ==> r.call.value == SignUp(form.email, form.password, form.name, Language.English)
    ensures !isSignUp ==> r.call == Some(SignIn(form.email, form.password))
    ensures r.navigateTo.Some? <==> r.call.Some? && outcome.Succeeded?
    ensures r.navigateTo.Some? ==> r.navigateTo.value == (if isSignUp then "/onboarding" else FromPath(savedPath))
    ensures r.call.Some? ==> r.error == match outcome
      case Succeeded => ""
      case ReturnedError(m) => MessageOr(m, if isSignUp then "Failed to create account" else "Failed to sign in")
      case Threw(m) => MessageOr(m, "An unexpected error occurred")
  {
    if isSignUp && form.password != form.confirmPassword then SubmitEffect(PasswordsDoNotMatch, None, None)
    else if isSignUp && |form.password| < MinPasswordLength then SubmitEffect(PasswordTooShort, None, None)
    else
      var call := if isSignUp then SignUp(form.email, form.password, form.name, Language.English)
                  else SignIn(form.email, form.password);
      match outcome
      case Succeeded => SubmitEffect("", Some(call), Some(if isSignUp then "/onboarding" else FromPath(savedPath)))
      case ReturnedError(m) =>
        SubmitEffect(MessageOr(m, if isSignUp then "Failed to create account" else "Failed to sign in"), Some(call), None)
      case Threw(m) => SubmitEffect(MessageOr(m, "An unexpected error occurred"), Some(call), None)
  }

  /** A sign-up that reaches the service has a confirmed password of at least six
      characters; a failed sign-up or sign-in always leaves a non-empty error. */
  lemma SubmitOutcomes(isSignUp: bool, form: AuthForm, outcome: CallOutcome, savedPath: Option<string>)
    ensures var r := SubmitResult(isSignUp, form, outcome, savedPath);
      (r.call.Some? && isSignUp ==> form.password == form.confirmPassword && |form.password| >= 6)
      && (r.navigateTo.None? ==> r.error != "")
      && (r.navigateTo.Some? ==> r.error == "")
  {
  }

  /** The `required` attributes on the inputs the page shows: the browser sends the form
      only when the email and password fields are filled, and in sign-up mode the name and
      confirmation fields too. */
  predicate RequiredFilled(isSignUp: bool, form: AuthForm) {
    form.email != "" && form.password != ""
    && (isSignUp ==> form.name != "" && form.confirmPassword != "")
  }

  /** Sign-in mode makes no local checks: whatever the two password fields hold, however
      short or mismatched, a sign-in goes to the service with the email and password as
      typed, and only the service's outcome decides the error. */
  lemma SignInHasNoLocalChecks(form: AuthForm, outcome: CallOutcome, savedPath: Option<string>)
    requires RequiredFilled(false, form)
    ensures var r := SubmitResult(false, form, outcome, savedPath);
      r.call == Some(SignIn(form.email, form.password))
      && r.error == SubmitResult(false, form.(confirmPassword := form.password), outcome, savedPath).error
  {
  }

  class AuthPageState {
    var isSignUp: bool
    var loading: bool
    var error: string
    var form: AuthForm
    /** Every call made to the authentication service, in order. */
    var calls: seq<AuthCall>
    var navigatedTo: Option<string>

    constructor()
      ensures !isSignUp && !loading && error == "" && form == EmptyForm && calls == [] && navigatedTo == None
    {
      isSignUp := false;
      loading := false;
      error := "";
      form := EmptyForm;
      calls := [];
      navigatedTo := None;
    }

    /** `handleChange`: the named field takes the value and the error is cleared. */
    method Change(field: AuthField, value: string)
      modifies this
      ensures error == ""
      ensures form == match field
        case NameField => old(form).(name := value)
        case EmailField => old(form).(email := value)
        case PasswordField => old(form).(password := value)
        case ConfirmPasswordField => old(form).(confirmPassword := value)
      ensures isSignUp == old(isSignUp) && loading == old(loading)
      ensures calls == old(calls) && navigatedTo == old(navigatedTo)
    {
      match field {
        case NameField => form := form.(name := value);
        case EmailField => form := form.(email := value);
        case PasswordField => form := form.(password := value);
        case ConfirmPasswordField => form := form.(confirmPassword := value);
      }
      error := "";
    }

    /** `handleSubmit`, reached only once the browser has accepted the required fields;
        `outcome` is what the service call does and `savedPath` the page the user was sent
        here from. Every path ends with `loading` false. */
    method Submit(outcome: CallOutcome, savedPath: Option<string>)
      requires RequiredFilled(isSignUp, form)
      modifies this
      ensures !loading
      ensures var r := SubmitResult(old(isSignUp), old(form), outcome, savedPath);
        error == r.error
        && calls == old(calls) + (if r.call.Some? then [r.call.value] else [])
        && navigatedTo == (if r.navigateTo.Some? then r.navigateTo else old(navigatedTo))
      ensures isSignUp == old(isSignUp) && form == old(form)
    {
      loading := true;
      error := "";
      if isSignUp {
        if form.password != form.confirmPassword {
          error := PasswordsDoNotMatch;
          loading := false;
          return;
        }
        if |form.password| < MinPasswordLength {
          error := PasswordTooShort;
          loading := false;
          return;
        }
        calls := calls + [SignUp(form.email, form.password, form.name, Language.English)];
        match outcome
        case Succeeded => navigatedTo := Some("/onboarding");
        case ReturnedError(m) => error := MessageOr(m, "Failed to create account");
        case Threw(m) => error := MessageOr(m, "An unexpected error occurred");
      } else {
        calls := calls + [SignIn(form.email, form.password)];
        match outcome
        case Succeeded => navigatedTo := Some(FromPath(savedPath));
        case ReturnedError(m) => error := MessageOr(m, "Failed to sign in");
        case Threw(m) => error := MessageOr(m, "An unexpected error occurred");
      }
      loading := false;
    }

    /** The Sign In / Sign Up link: flips the mode, clears the error and empties all four
        fields. */
    method ToggleMode()
      modifies this
      ensures isSignUp == !old(isSignUp) && error == "" && form == EmptyForm
      ensures loading == old(loading) && calls == old(calls) && navigatedTo == old(navigatedTo)
    {
      isSignUp := !isSignUp;
      error := "";
      form := EmptyForm;
    }
  }
}
