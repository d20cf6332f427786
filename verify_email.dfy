/** The verify-email screen: an email field taken from the route with a
    "resend code" button, and a code field with a "verify" button. */
module VerifyEmail {
  import opened Text
  import opened Effects
  import opened Validation

  const VerifyingMessage := "Verifying..."
  const SendingMessage := "Sending..."
  const VerificationFailedTitle := "Verification Failed"
  const VerificationFailedMessage := "Resend code or try again later."
  const ResendFailedTitle := "Resend Code Failed"
  const ResendFailedMessage := "Check input fields or try again later."
  const VerifyOkButton := "okButtonVerifyFailed"
  const ResendOkButton := "okButtonSendCodeFailed"
  const VerifiedMessage := "Your email has been verified successfully."
  const SignInRoute := "SignIn"

  const CodeSentPrefix := "Verification code has been sent to "
  const CodeSentSuffix := ". Use the code to verify your email."

  /** The snackbar text after a code was resent: it names the email as typed. */
  function CodeSentMessage(username: string): (m: string)
    ensures |m| == |CodeSentPrefix| + |username| + |CodeSentSuffix|
    ensures m[..|CodeSentPrefix|] == CodeSentPrefix
    ensures m[|CodeSentPrefix|..|m| - |CodeSentSuffix|] == username
    ensures m[|m| - |CodeSentSuffix|..] == CodeSentSuffix
  {
    CodeSentPrefix + username + CodeSentSuffix
  }

  /** Different emails give different snackbar texts. */
  lemma CodeSentMessageInjective(a: string, b: string)
    requires CodeSentMessage(a) == CodeSentMessage(b)
    ensures a == b
  {
  }

  /** The email field's value from `route.params?.email`; an absent email is
      `undefined`, which `!` and `trim` treat as the empty string. */
  function InitialUsername(params: RouteParams): (u: string)
    ensures params.email.Some? ==> u == params.email.value
    ensures params.email.None? ==> u == []
  {
    match params.email
    case Some(email) => email
    case None => ""
  }

  /** The "resend code" button's disabled rule. */
  function ResendDisabled(username: string): (r: bool)
    ensures r <==> username == []
  {
    !Filled(username)
  }

  /** The "verify" button's disabled rule. */
  function VerifyDisabled(username: string, code: string): (r: bool)
    ensures r <==> username == [] || code == []
  {
    !(Filled(username) && Filled(code))
  }

  class VerifyEmailScreen {
    var username: string
    var code: string
    var isVerifyDisabled: bool
    var isResendDisabled: bool
    /** The call awaiting its outcome, if any. */
    var pending: Option<AuthRequest>
    var effects: seq<Effect>
    /** `route.params?.signInHasBackAction`, passed on untouched. */
    const signInHasBackAction: Flag

    /** The state once React has re-run every effect whose inputs changed. */
    ghost predicate Valid()
      reads this
    {
      && (VerifyDisabled(username, code) ==> isVerifyDisabled)
      && (pending.None? ==> isResendDisabled == ResendDisabled(username))
      && (pending.Some? ==> match pending.value
           case ConfirmSignUpWithUsername(u, c) =>
             && isResendDisabled == ResendDisabled(username)
             && isVerifyDisabled && !VerifyDisabled(username, code)
             && u == Trim(username) && c == code
           case ResendSignUpWithUsername(u) =>
             isResendDisabled && !ResendDisabled(username) && u == Trim(username)
           case _ => false)
    }

    /** Mounting: the email comes from the route and both rules are evaluated. */
    constructor (params: RouteParams)
      ensures Valid()
      ensures username == InitialUsername(params) && code == []
      ensures isResendDisabled == (InitialUsername(params) == []) && isVerifyDisabled
      ensures pending == None && effects == []
      ensures signInHasBackAction == params.signInHasBackAction
    {
      username, code := InitialUsername(params), "";
      isResendDisabled := ResendDisabled(InitialUsername(params));
      isVerifyDisabled := VerifyDisabled(InitialUsername(params), "");
      pending, effects := None, [];
      signInHasBackAction := params.signInHasBackAction;
    }

    /** The screen gains focus: `isFocused` has just turned true. A caller
        calls it once per such change, never twice without the screen losing
        focus in between; losing focus logs nothing and is not modelled. */
    method Focus()
      requires Valid()
      modifies this
      ensures Valid() && username == old(username) && code == old(code)
      ensures isVerifyDisabled == old(isVerifyDisabled) && isResendDisabled == old(isResendDisabled)
      ensures pending == old(pending)
      ensures effects == old(effects) + [Event("onVerifyEmailScreenDisplay")]
    {
      effects := effects + [Event("onVerifyEmailScreenDisplay")];
    }

    method SetUsername(s: string)
      requires Valid() && pending.None?
      modifies this
      ensures Valid()
      ensures username == s && code == old(code)
      ensures isResendDisabled == ResendDisabled(s)
      ensures isVerifyDisabled == if s == old(username) then old(isVerifyDisabled) else VerifyDisabled(s, code)
      ensures pending == old(pending) && effects == old(effects)
    {
      if s != username {
        username := s;
        isResendDisabled := ResendDisabled(username);
        isVerifyDisabled := VerifyDisabled(username, code);
      }
    }

    method SetCode(s: string)
      requires Valid() && pending.None?
      modifies this
      ensures Valid()
      ensures code == s && username == old(username) && isResendDisabled == old(isResendDisabled)
      ensures isVerifyDisabled == if s == old(code) then old(isVerifyDisabled) else VerifyDisabled(username, s)
      ensures pending == old(pending) && effects == old(effects)
    {
      if s != code {
        code := s;
        isVerifyDisabled := VerifyDisabled(username, code);
      }
    }

    /** The "verify" button; a disabled button ignores the press, and the
        button is disabled while its own request is in flight, so pressing it again
        then makes no second call. */
    method PressVerify()
      requires Valid() && (pending.None? || pending.value.ConfirmSignUpWithUsername?)
      modifies this
      ensures Valid() && username == old(username) && code == old(code)
      ensures isVerifyDisabled && isResendDisabled == old(isResendDisabled)
      ensures old(isVerifyDisabled) ==> pending == old(pending) && effects == old(effects)
      ensures old(pending).Some? ==> pending == old(pending) && effects == old(effects)
      ensures !old(isVerifyDisabled) ==>
        && pending == Some(ConfirmSignUpWithUsername(Trim(username), code))
        && effects == old(effects) + [
             Event("onVerifyEmailStart"),
             ShowLoading(VerifyingMessage),
             Call(ConfirmSignUpWithUsername(Trim(username), code))]
    {
      if isVerifyDisabled {
        return;
      }
      effects := effects + [Event("onVerifyEmailStart")];
      isVerifyDisabled := true;
      effects := effects + [ShowLoading(VerifyingMessage)];
      var request := ConfirmSignUpWithUsername(Trim(username), code);
      effects := effects + [Call(request)];
      pending := Some(request);
    }

    /** The email is verified: a snackbar, then sign-in is pushed; the button stays disabled. */
    method SettleVerifySuccess()
      requires Valid() && pending.Some? && pending.value.ConfirmSignUpWithUsername?
      modifies this
      ensures Valid() && username == old(username) && code == old(code)
      ensures pending == None && isVerifyDisabled && isResendDisabled == old(isResendDisabled)
      ensures effects == old(effects) + [
        HideLoading,
        Event("onVerifyEmailSuccess"),
        Snackbar(VerifiedMessage, SnackbarDurationMs),
        Nav(Push, SignInRoute, RouteParams(None, signInHasBackAction))]
    {
      pending := None;
      effects := effects + [
        HideLoading,
        Event("onVerifyEmailSuccess"),
        Snackbar(VerifiedMessage, SnackbarDurationMs),
        Nav(Push, SignInRoute, RouteParams(None, signInHasBackAction))];
    }

    /** Verification failed; "verify" is enabled again. */
    method SettleVerifyFailure(errorCode: string)
      requires Valid() && pending.Some? && pending.value.ConfirmSignUpWithUsername?
      modifies this
      ensures Valid() && username == old(username) && code == old(code)
      ensures pending == None && !isVerifyDisabled && isResendDisabled == old(isResendDisabled)
      ensures effects == old(effects) + [
        HideLoading,
        ErrorEvent("onVerifyEmailError", errorCode),
        Dialog(VerificationFailedTitle, VerificationFailedMessage, [VerifyOkButton])]
    {
      pending := None;
      effects := effects + [
        HideLoading,
        ErrorEvent("onVerifyEmailError", errorCode),
        Dialog(VerificationFailedTitle, VerificationFailedMessage, [VerifyOkButton])];
      isVerifyDisabled := false;
    }

    /** The "resend code" button; a disabled button ignores the press, and the
        button is disabled while its own request is in flight, so pressing it again
        then makes no second call. */
    method PressResend()
      requires Valid() && (pending.None? || pending.value.ResendSignUpWithUsername?)
      modifies this
      ensures Valid() && username == old(username) && code == old(code)
      ensures isResendDisabled && isVerifyDisabled == old(isVerifyDisabled)
      ensures old(isResendDisabled) ==> pending == old(pending) && effects == old(effects)
      ensures old(pending).Some? ==> pending == old(pending) && effects == old(effects)
      ensures !old(isResendDisabled) ==>
        && pending == Some(ResendSignUpWithUsername(Trim(username)))
        && effects == old(effects) + [
             Event("onVerifyEmailSendCodeStart"),
             ShowLoading(SendingMessage),
             Call(ResendSignUpWithUsername(Trim(username)))]
    {
      if isResendDisabled {
        return;
      }
      effects := effects + [Event("onVerifyEmailSendCodeStart")];
      isResendDisabled := true;
      effects := effects + [ShowLoading(SendingMessage)];
      var request := ResendSignUpWithUsername(Trim(username));
      effects := effects + [Call(request)];
      pending := Some(request);
    }

    /** The code was resent: the code field is cleared, which leaves "verify"
        disabled, and "resend code" is enabled again. */
    method SettleResendSuccess()
      requires Valid() && pending.Some? && pending.value.ResendSignUpWithUsername?
      modifies this
      ensures Valid() && username == old(username)
      ensures pending == None && code == [] && isVerifyDisabled && !isResendDisabled
      ensures effects == old(effects) + [
        HideLoading,
        Event("onVerifyEmailSendCodeSuccess"),
        Snackbar(CodeSentMessage(username), SnackbarDurationMs)]
    {
      effects := effects + [
        HideLoading,
        Event("onVerifyEmailSendCodeSuccess"),
        Snackbar(CodeSentMessage(username), SnackbarDurationMs)];
      pending := None;
      // clearing an already empty code re-runs no rule; the stored flag is then already up
      if code != "" {
        code := "";
        isVerifyDisabled := VerifyDisabled(username, code);
      }
      isResendDisabled := false;
    }

    /** Resending failed; "resend code" is enabled again. */
    method SettleResendFailure(errorCode: string)
      requires Valid() && pending.Some? && pending.value.ResendSignUpWithUsername?
      modifies this
      ensures Valid() && username == old(username) && code == old(code)
      ensures pending == None && !isResendDisabled && isVerifyDisabled == old(isVerifyDisabled)
      ensures effects == old(effects) + [
        HideLoading,
        ErrorEvent("onVerifyEmailSendCodeError", errorCode),
        Dialog(ResendFailedTitle, ResendFailedMessage, [ResendOkButton])]
    {
      pending := None;
      effects := effects + [
        HideLoading,
        ErrorEvent("onVerifyEmailSendCodeError", errorCode),
        Dialog(ResendFailedTitle, ResendFailedMessage, [ResendOkButton])];
      isResendDisabled := false;
    }
  }

  /** Opened without an email: both buttons are disabled and pressing them does nothing. */
  method NoEmailScenario() returns (resendDisabled: bool, verifyDisabled: bool, log: seq<Effect>)
    ensures resendDisabled && verifyDisabled && log == []
  {
    var screen := new VerifyEmailScreen(RouteParams(None, Undefined));
    screen.PressResend();
    screen.PressVerify();
    resendDisabled, verifyDisabled, log := screen.isResendDisabled, screen.isVerifyDisabled, screen.effects;
  }

  /** Opened from sign-up with a padded email: resend sends it trimmed and names
      it as given; the typed code is cleared, disabling "verify". */
  method ResendScenario() returns (code: string, verifyDisabled: bool, log: seq<Effect>)
    ensures code == [] && verifyDisabled
    ensures log == [
      Event("onVerifyEmailSendCodeStart"),
      ShowLoading(SendingMessage),
      Call(ResendSignUpWithUsername("u@x.com")),
      HideLoading,
      Event("onVerifyEmailSendCodeSuccess"),
      Snackbar(CodeSentMessage("u@x.com "), SnackbarDurationMs)]
  {
    var screen := new VerifyEmailScreen(RouteParams(Some("u@x.com "), Bool(true)));
    screen.SetCode("123456");
    assert "u@x.com " == "" + "u@x.com" + " ";
    TrimPadded("", "u@x.com", " ");
    screen.PressResend();
    var started := screen.effects;
    assert started == [
      Event("onVerifyEmailSendCodeStart"),
      ShowLoading(SendingMessage),
      Call(ResendSignUpWithUsername("u@x.com"))];
    screen.SettleResendSuccess();
    code, verifyDisabled, log := screen.code, screen.isVerifyDisabled, screen.effects;
  }

  /** A verified email ends on the sign-in screen, with the back-action flag passed on. */
  method VerifyScenario() returns (log: seq<Effect>)
    ensures log == [
      Event("onVerifyEmailStart"),
      ShowLoading(VerifyingMessage),
      Call(ConfirmSignUpWithUsername("u@x.com", "123456")),
      HideLoading,
      Event("onVerifyEmailSuccess"),
      Snackbar(VerifiedMessage, SnackbarDurationMs),
      Nav(Push, SignInRoute, RouteParams(None, Bool(false)))]
  {
    var screen := new VerifyEmailScreen(RouteParams(Some("u@x.com"), Bool(false)));
    screen.SetCode("123456");
    TrimOfTrimmed("u@x.com");
    screen.PressVerify();
    screen.SettleVerifySuccess();
    log := screen.effects;
  }

  /** Pressing "resend code" twice before the call settles sends one request. */
  method DoubleResendScenario() returns (log: seq<Effect>)
    ensures log == [
      Event("onVerifyEmailSendCodeStart"),
      ShowLoading(SendingMessage),
      Call(ResendSignUpWithUsername("u@x.com"))]
  {
    var screen := new VerifyEmailScreen(RouteParams(Some("u@x.com"), Undefined));
    TrimOfTrimmed("u@x.com");
    screen.PressResend();
    screen.PressResend();
    log := screen.effects;
  }
}
