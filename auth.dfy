/** The sign-in / sign-up page of `src/pages/Auth.js`. The identity
    provider's calls are not made here: what each call did is an input, and
    the page's reaction to it is computed by a pure dispatch function that
    the state-changing handlers apply. */
module Auth {
  import opened Common

  const DEFAULT_DESTINATION := "/quotation"
  const OAUTH_REDIRECT := "/auth"
  const COMPLETE := "complete"
  const NEEDS_FIRST_FACTOR := "needs_first_factor"
  const NEEDS_SECOND_FACTOR := "needs_second_factor"
  const EMAIL_CODE := "email_code"
  const PASSWORD_MISMATCH := "Passwords do not match."
  const TWO_FACTOR_REQUIRED := "Two-factor authentication is required. Please complete it in your Clerk account."
  const AUTH_FAILED := "Authentication failed. Please try again."
  const OAUTH_FAILED := "OAuth sign-in failed. Please try again."
  const VERIFICATION_PENDING := "Verification pending. Please try again."
  const VERIFICATION_FAILED := "Verification failed. Please try again."

  datatype Mode = SignIn | SignUp

  /** `location.state?.from || '/quotation'`. */
  function Destination(from: Option<string>): (r: string)
    ensures r != ""
    ensures from.Some? && from.value != "" ==> r == from.value
    ensures (from.None? || from.value == "") ==> r == DEFAULT_DESTINATION
  {
    Or(from, DEFAULT_DESTINATION)
  }

  // ---------------------------------------------------------------------------
  // The form

  datatype AuthForm = AuthForm(name: string, email: string, identifier: string,
                               username: string, password: string, confirm: string)

  const EMPTY_FORM := AuthForm("", "", "", "", "", "")

  datatype AuthField = Name | EmailAddress | Identifier | Username | Password | Confirm

  function FieldOf(form: AuthForm, field: AuthField): string {
    match field
    case Name => form.name
    case EmailAddress => form.email
    case Identifier => form.identifier
    case Username => form.username
    case Password => form.password
    case Confirm => form.confirm
  }

  /** `handleChange`: only the named field takes the new value. */
  function WithField(form: AuthForm, field: AuthField, value: string): (r: AuthForm)
    ensures FieldOf(r, field) == value
    ensures forall g :: g != field ==> FieldOf(r, g) == FieldOf(form, g)
  {
    match field
    case Name => form.(name := value)
    case EmailAddress => form.(email := value)
    case Identifier => form.(identifier := value)
    case Username => form.(username := value)
    case Password => form.(password := value)
    case Confirm => form.(confirm := value)
  }

  // ---------------------------------------------------------------------------
  // Name splitting

  /** The `firstName` and `lastName` handed to sign-up; `None` is
      `undefined`. */
  datatype NameParts = NameParts(first: Option<string>, last: Option<string>)

  function Defined(s: string): (r: Option<string>)
    ensures r.Some? <==> s != ""
    ensures r.Some? ==> r.value == s
  {
    if s != "" then Some(s) else None
  }

  /** `const [firstName, ...rest] = name.trim().split(' ')` with
      `firstName || undefined` and `rest.join(' ') || undefined`: the first
      name is the trimmed name up to its first space; the last name is
      everything after that space. When the trimmed name holds a space both
      parts are defined and, put back together around one space, give the
      trimmed name; without a space there is no last name. */
  function SplitName(name: string): (r: NameParts)
    ensures var t := Trim(name); var k := IndexOf(t, ' ');
      && r.first == Defined(t[..k])
      && (k == |t| ==> r.last.None?)
      && (k < |t| ==> r.last == Some(t[k + 1..]))
    ensures var t := Trim(name);
      ' ' in t ==> r.first.Some? && r.last.Some? && r.first.value + " " + r.last.value == t
  {
    var t := Trim(name);
    NamePartsFacts(t);
    NamePartsOf(t)
  }

  function NamePartsOf(t: string): NameParts {
    var parts := Split(t, ' ');
    NameParts(Defined(parts[0]), Defined(Join(parts[1..], " ")))
  }

  /** For a string that neither starts nor ends with a space, the parts are
      the text before and after the first space. */
  lemma {:induction false} NamePartsFacts(t: string)
    requires t == [] || (t[0] != ' ' && t[|t| - 1] != ' ')
    ensures NamePartsOf(t).first == Defined(t[..IndexOf(t, ' ')])
    ensures IndexOf(t, ' ') == |t| ==> NamePartsOf(t).last.None?
    ensures IndexOf(t, ' ') < |t| ==> NamePartsOf(t).last == Some(t[IndexOf(t, ' ') + 1..])
    ensures ' ' in t ==>
      var r := NamePartsOf(t);
      r.first.Some? && r.last.Some? && r.first.value + " " + r.last.value == t
  {
    SplitAtFirstSpace(t);
    var k := IndexOf(t, ' ');
    if ' ' in t {
      assert k < |t|;
      assert t == t[..k] + " " + t[k + 1..];
    }
  }

  /** The first part of `t.split(' ')` is `t` up to its first space, and the
      other parts, joined again by spaces, are what follows that space. */
  lemma {:induction false} SplitAtFirstSpace(t: string)
    ensures var parts := Split(t, ' '); var k := IndexOf(t, ' ');
      && parts[0] == t[..k]
      && Join(parts[1..], " ") == (if k < |t| then t[k + 1..] else "")
  {
    var parts := Split(t, ' ');
    var k := IndexOf(t, ' ');
    if k < |t| {
      assert parts == [t[..k]] + Split(t[k + 1..], ' ');
      assert parts[1..] == Split(t[k + 1..], ' ');
      JoinSplit(t[k + 1..], ' ');
    } else {
      assert parts == [t];
    }
  }

  // ---------------------------------------------------------------------------
  // Calls to the identity provider and their outcomes

  datatype SignInParams = SignInParams(identifier: string, password: string)

  datatype SignUpParams = SignUpParams(emailAddress: string, password: string, username: Option<string>,
                                       firstName: Option<string>, lastName: Option<string>)

  /** The account call `handleAuth` issues, if any. */
  datatype AuthCall = NoCall | SignInCall(signIn: SignInParams) | SignUpCall(signUp: SignUpParams)

  /** How the follow-up call of a handler settled (`setActive`, or the
      preparation of an email code); a rejection carries the first error's
      message, if any. */
  datatype FollowUp = Proceeded | FollowUpThrew(message: Option<string>)

  /** How the first awaited call of a handler settled: it rejected, or it
      returned a status, the strategies of the supported first factors (when
      reported) and how the follow-up call settled. */
  datatype Outcome =
    | Threw(message: Option<string>)
    | Returned(status: string, firstFactors: Option<seq<string>>, next: FollowUp)

  /** What the page does in response. */
  datatype Effect =
    | Navigate(to: string)
    | AwaitSignInCode
    | AwaitEmailCode
    | ShowError(message: string)
    | NoEffect

  /** `supportedFirstFactors?.find((f) => f.strategy === 'email_code')` is
      truthy. */
  predicate HasEmailFactor(firstFactors: Option<seq<string>>) {
    firstFactors.Some? && EMAIL_CODE in firstFactors.value
  }

  /** `err?.errors?.[0]?.message || fallback`. */
  function ErrorMessage(message: Option<string>, fallback: string): (r: string)
    ensures message.Some? && message.value != "" ==> r == message.value
    ensures message.None? || message.value == "" ==> r == fallback
    ensures r != "" || fallback == ""
  {
    Or(message, fallback)
  }

  /** Activate the session, then navigate; a rejection of the activation is
      reported with the handler's fallback message. */
  function Activate(next: FollowUp, destination: string, fallback: string): (e: Effect)
    ensures next.Proceeded? ==> e == Navigate(destination)
    ensures next.FollowUpThrew? ==> e == ShowError(ErrorMessage(next.message, fallback))
  {
    match next
    case Proceeded => Navigate(destination)
    case FollowUpThrew(m) => ShowError(ErrorMessage(m, fallback))
  }

  /** The sign-in branch of `handleAuth` after `signIn.create`: `complete`
      activates the session and navigates to the destination;
      `needs_first_factor` with an email-code factor prepares it and awaits
      the code; `needs_second_factor` shows an error; anything else does
      nothing. Rejections show their message or the default one. */
  function SignInDispatch(outcome: Outcome, destination: string): (e: Effect)
    ensures outcome.Threw? ==> e == ShowError(ErrorMessage(outcome.message, AUTH_FAILED))
    ensures e.Navigate? <==> outcome.Returned? && outcome.status == COMPLETE && outcome.next.Proceeded?
    ensures e.Navigate? ==> e.to == destination
    ensures e.AwaitSignInCode? <==>
      (outcome.Returned? && outcome.status == NEEDS_FIRST_FACTOR && HasEmailFactor(outcome.firstFactors)
       && outcome.next.Proceeded?)
    ensures !e.AwaitEmailCode?
    ensures outcome.Returned? && outcome.status == NEEDS_SECOND_FACTOR ==> e == ShowError(TWO_FACTOR_REQUIRED)
    ensures (outcome.Returned? && outcome.next.FollowUpThrew?
             && (outcome.status == COMPLETE
                 || (outcome.status == NEEDS_FIRST_FACTOR && HasEmailFactor(outcome.firstFactors)))) ==>
      e == ShowError(ErrorMessage(outcome.next.message, AUTH_FAILED))
    ensures (outcome.Returned? && outcome.status != COMPLETE && outcome.status != NEEDS_SECOND_FACTOR
             && !(outcome.status == NEEDS_FIRST_FACTOR && HasEmailFactor(outcome.firstFactors))) ==> e == NoEffect
    ensures e.ShowError? ==> e.message != ""
  {
    match outcome
    case Threw(m) => ShowError(ErrorMessage(m, AUTH_FAILED))
    case Returned(status, factors, next) =>
      if status == COMPLETE then Activate(next, destination, AUTH_FAILED)
      else if status == NEEDS_FIRST_FACTOR && HasEmailFactor(factors) then
        (match next
         case Proceeded => AwaitSignInCode
         case FollowUpThrew(m) => ShowError(ErrorMessage(m, AUTH_FAILED)))
      else if status == NEEDS_SECOND_FACTOR then ShowError(TWO_FACTOR_REQUIRED)
      else NoEffect
  }

  /** The sign-up branch of `handleAuth` after `signUp.create`: `complete`
      activates the session and navigates; any other status prepares email
      verification and awaits the code. */
  function SignUpDispatch(outcome: Outcome, destination: string): (e: Effect)
    ensures outcome.Threw? ==> e == ShowError(ErrorMessage(outcome.message, AUTH_FAILED))
    ensures e.Navigate? <==> outcome.Returned? && outcome.status == COMPLETE && outcome.next.Proceeded?
    ensures e.Navigate? ==> e.to == destination
    ensures e.AwaitEmailCode? <==> outcome.Returned? && outcome.status != COMPLETE && outcome.next.Proceeded?
    ensures outcome.Returned? && outcome.next.FollowUpThrew? ==>
      e == ShowError(ErrorMessage(outcome.next.message, AUTH_FAILED))
    ensures !e.AwaitSignInCode? && !e.NoEffect?
    ensures e.ShowError? ==> e.message != ""
  {
    match outcome
    case Threw(m) => ShowError(ErrorMessage(m, AUTH_FAILED))
    case Returned(status, _, next) =>
      if status == COMPLETE then Activate(next, destination, AUTH_FAILED)
      else
        match next
        case Proceeded => AwaitEmailCode
        case FollowUpThrew(m) => ShowError(ErrorMessage(m, AUTH_FAILED))
  }

  /** Both verification handlers after the code attempt: `complete` activates
      and navigates; any other status asks to try again. */
  function VerificationDispatch(outcome: Outcome, destination: string): (e: Effect)
    ensures outcome.Threw? ==> e == ShowError(ErrorMessage(outcome.message, VERIFICATION_FAILED))
    ensures e.Navigate? <==> outcome.Returned? && outcome.status == COMPLETE && outcome.next.Proceeded?
    ensures e.Navigate? ==> e.to == destination
    ensures outcome.Returned? && outcome.status != COMPLETE ==> e == ShowError(VERIFICATION_PENDING)
    ensures outcome.Returned? && outcome.status == COMPLETE && outcome.next.FollowUpThrew? ==>
      e == ShowError(ErrorMessage(outcome.next.message, VERIFICATION_FAILED))
    ensures e.Navigate? || e.ShowError?
  {
    match outcome
    case Threw(m) => ShowError(ErrorMessage(m, VERIFICATION_FAILED))
    case Returned(status, _, next) =>
      if status == COMPLETE then Activate(next, destination, VERIFICATION_FAILED)
      else ShowError(VERIFICATION_PENDING)
  }

  /** The arguments of `signUp.create`: empty username and names become
      `undefined`. */
  function SignUpRequest(form: AuthForm): (p: SignUpParams)
    ensures p.emailAddress == form.email && p.password == form.password
    ensures p.username == Defined(form.username)
    ensures NameParts(p.firstName, p.lastName) == SplitName(form.name)
  {
    var parts := SplitName(form.name);
    SignUpParams(form.email, form.password, Defined(form.username), parts.first, parts.last)
  }

  /** The arguments of `signIn.create`: the identifier is trimmed. */
  function SignInRequest(form: AuthForm): (p: SignInParams)
    ensures exists i :: TrimmedAt(form.identifier, i, p.identifier)
    ensures p.identifier == [] || (!IsWhitespace(p.identifier[0]) && !IsWhitespace(p.identifier[|p.identifier| - 1]))
    ensures p.password == form.password
  {
    SignInParams(Trim(form.identifier), form.password)
  }

  /** The request of an OAuth redirect. */
  datatype OAuthRequest = OAuthRequest(strategy: string, redirectUrl: string, redirectUrlComplete: string)

  // ---------------------------------------------------------------------------
  // Page state

  /** The page state and its handlers. Each `async` handler is split into
      the part that runs up to its first `await`, which returns the call it
      issues, and the continuation that applies the call's outcome. */
  class AuthPage {
    const destination: string
    var mode: Mode
    var form: AuthForm
    var verificationCode: string
    var signInCode: string
    var pendingVerification: bool
    var pendingSignInVerification: bool
    var loading: bool
    var error: string
    var oauthLoading: string
    /** The path of the last `navigate(destination, { replace: true })`. */
    var navigatedTo: Option<string>

    constructor (from: Option<string>)
      ensures destination == Destination(from)
      ensures mode == SignIn && form == EMPTY_FORM
      ensures verificationCode == "" && signInCode == ""
      ensures !pendingVerification && !pendingSignInVerification
      ensures !loading && error == "" && oauthLoading == "" && navigatedTo.None?
    {
      destination := Destination(from);
      mode := SignIn;
      form := EMPTY_FORM;
      verificationCode := "";
      signInCode := "";
      pendingVerification := false;
      pendingSignInVerification := false;
      loading := false;
      error := "";
      oauthLoading := "";
      navigatedTo := None;
    }

    method HandleChange(field: AuthField, value: string)
      modifies this`form
      ensures form == WithField(old(form), field, value)
    {
      form := WithField(form, field, value);
    }

    method SetVerificationCode(code: string)
      modifies this`verificationCode
      ensures verificationCode == code
    {
      verificationCode := code;
    }

    method SetSignInCode(code: string)
      modifies this`signInCode
      ensures signInCode == code
    {
      signInCode := code;
    }

    /** `handleModeChange`: the new mode, with the error, both pending
        verifications and both codes cleared; the form is kept. */
    method HandleModeChange(nextMode: Mode)
      modifies this`mode, this`error, this`pendingVerification, this`verificationCode,
               this`pendingSignInVerification, this`signInCode
      ensures mode == nextMode && error == ""
      ensures !pendingVerification && verificationCode == ""
      ensures !pendingSignInVerification && signInCode == ""
    {
      mode := nextMode;
      error := "";
      pendingVerification := false;
      verificationCode := "";
      pendingSignInVerification := false;
      signInCode := "";
    }

    /** `handleAuth` up to `signIn.create` or `signUp.create`. While loading
        it does nothing at all. Otherwise the error is cleared; an unloaded
        client for the current mode stops there; a sign-up whose passwords
        differ reports the mismatch and creates nothing; otherwise loading
        is set and the account call is returned. */
    method BeginAuth(signInLoaded: bool, signUpLoaded: bool) returns (call: AuthCall)
      modifies this`loading, this`error
      ensures old(loading) ==> call.NoCall? && loading && error == old(error)
      ensures !old(loading) && mode == SignIn ==>
        && error == ""
        && (signInLoaded ==> call == SignInCall(SignInRequest(form)) && loading)
        && (!signInLoaded ==> call.NoCall? && !loading)
      ensures !old(loading) && mode == SignUp ==>
        if !signUpLoaded then call.NoCall? && !loading && error == ""
        else if form.password != form.confirm then call.NoCall? && !loading && error == PASSWORD_MISMATCH
        else call == SignUpCall(SignUpRequest(form)) && loading && error == ""
    {
      if loading {
        call := NoCall;
        return;
      }
      error := "";
      if mode == SignIn && !signInLoaded {
        call := NoCall;
        return;
      }
      if mode == SignUp && !signUpLoaded {
        call := NoCall;
        return;
      }
      loading := true;
      if mode == SignIn {
        call := SignInCall(SignInRequest(form));
      } else if form.password != form.confirm {
        error := PASSWORD_MISMATCH;
        loading := false;
        call := NoCall;
      } else {
        call := SignUpCall(SignUpRequest(form));
      }
    }

    /** Carries out an effect: navigation, a pending verification, or an
        error message. */
    method Apply(e: Effect)
      modifies this`navigatedTo, this`pendingVerification, this`pendingSignInVerification, this`error
      ensures navigatedTo == (if e.Navigate? then Some(e.to) else old(navigatedTo))
      ensures pendingSignInVerification == (e.AwaitSignInCode? || old(pendingSignInVerification))
      ensures pendingVerification == (e.AwaitEmailCode? || old(pendingVerification))
      ensures error == (if e.ShowError? then e.message else old(error))
    {
      match e
      case Navigate(to) => navigatedTo := Some(to);
      case AwaitSignInCode => pendingSignInVerification := true;
      case AwaitEmailCode => pendingVerification := true;
      case ShowError(m) => error := m;
      case NoEffect =>
    }

    /** The continuation of a sign-in `handleAuth`; loading is cleared in
        every case. */
    method SignInSettled(outcome: Outcome)
      modifies this`navigatedTo, this`pendingVerification, this`pendingSignInVerification, this`error,
               this`loading
      ensures !loading
      ensures var e := SignInDispatch(outcome, destination);
        && navigatedTo == (if e.Navigate? then Some(destination) else old(navigatedTo))
        && pendingSignInVerification == (e.AwaitSignInCode? || old(pendingSignInVerification))
        && pendingVerification == old(pendingVerification)
        && error == (if e.ShowError? then e.message else old(error))
    {
      Apply(SignInDispatch(outcome, destination));
      loading := false;
    }

    /** The continuation of a sign-up `handleAuth`; loading is cleared in
        every case. */
    method SignUpSettled(outcome: Outcome)
      modifies this`navigatedTo, this`pendingVerification, this`pendingSignInVerification, this`error,
               this`loading
      ensures !loading
      ensures var e := SignUpDispatch(outcome, destination);
        && navigatedTo == (if e.Navigate? then Some(destination) else old(navigatedTo))
        && pendingVerification == (e.AwaitEmailCode? || old(pendingVerification))
        && pendingSignInVerification == old(pendingSignInVerification)
        && error == (if e.ShowError? then e.message else old(error))
    {
      Apply(SignUpDispatch(outcome, destination));
      loading := false;
    }

    /** `handleVerification` (`forSignIn` false) and
        `handleSignInVerification` (`forSignIn` true) up to the code attempt:
        nothing happens while the client is unloaded or a call is loading;
        otherwise the error is cleared, loading is set and the code to submit
        is returned. */
    method BeginVerification(forSignIn: bool, clientLoaded: bool) returns (code: Option<string>)
      modifies this`loading, this`error
      ensures !clientLoaded || old(loading) ==> code.None? && loading == old(loading) && error == old(error)
      ensures clientLoaded && !old(loading) ==>
        && code == Some(if forSignIn then signInCode else verificationCode)
        && loading && error == ""
    {
      if !clientLoaded || loading {
        code := None;
        return;
      }
      error := "";
      loading := true;
      code := Some(if forSignIn then signInCode else verificationCode);
    }

    /** The continuation of either verification handler. */
    method VerificationSettled(outcome: Outcome)
      modifies this`navigatedTo, this`pendingVerification, this`pendingSignInVerification, this`error,
               this`loading
      ensures !loading
      ensures var e := VerificationDispatch(outcome, destination);
        && navigatedTo == (if e.Navigate? then Some(destination) else old(navigatedTo))
        && pendingVerification == old(pendingVerification)
        && pendingSignInVerification == old(pendingSignInVerification)
        && error == (if e.ShowError? then e.message else old(error))
    {
      Apply(VerificationDispatch(outcome, destination));
      loading := false;
    }

    /** `handleOAuth` up to the redirect: nothing happens while the current
        mode's client is unloaded or another redirect is in progress;
        otherwise the error is cleared, the strategy marked as loading and
        the redirect request returned. */
    method BeginOAuth(strategy: string, signInLoaded: bool, signUpLoaded: bool) returns (req: Option<OAuthRequest>)
      modifies this`error, this`oauthLoading
      ensures var isLoaded := if mode == SignUp then signUpLoaded else signInLoaded;
        if !isLoaded || old(oauthLoading) != "" then
          req.None? && error == old(error) && oauthLoading == old(oauthLoading)
        else
          req == Some(OAuthRequest(strategy, OAUTH_REDIRECT, destination)) && error == "" && oauthLoading == strategy
    {
      var isLoaded := if mode == SignUp then signUpLoaded else signInLoaded;
      if !isLoaded || oauthLoading != "" {
        req := None;
        return;
      }
      error := "";
      oauthLoading := strategy;
      req := Some(OAuthRequest(strategy, OAUTH_REDIRECT, destination));
    }

    /** A rejected redirect shows its message and frees the buttons; a
        successful one leaves the page. */
    method OAuthFailed(message: Option<string>)
      modifies this`error, this`oauthLoading
      ensures error == ErrorMessage(message, OAUTH_FAILED) && error != ""
      ensures oauthLoading == ""
    {
      error := ErrorMessage(message, OAUTH_FAILED);
      oauthLoading := "";
    }
  }
}
