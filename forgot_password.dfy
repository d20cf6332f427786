/** The forgot-password screen: an email field with a "send code" button, then
    code, new-password and confirmation fields with a "reset password" button. */
module ForgotPassword {
  import opened Text
  import opened Effects
  import opened Validation

  const SendingMessage := "Sending..."
  const ResettingMessage := "Resetting..."
  const SendCodeFailedTitle := "Send Code Failed"
  const SendCodeFailedMessage := "Check input fields or try again later."
  const ResetFailedTitle := "Reset Password Failed"
  const ResetFailedMessage := "Resend code or try again later."
  const SendCodeOkButton := "okButtonSendCodeFailed"
  const ResetOkButton := "okButtonResetFailed"
  const ResetSuccessMessage := "Your password has been reset successfully."
  const SignInRoute := "SignIn"

  const CodeSentPrefix := "Verification code has been sent to "
  const CodeSentSuffix := ". Use the code to reset your password."

  /** The snackbar text after a code was sent: it names the email as typed. */
  function CodeSentMessage(username: string): (m: string)
    ensures |m| == |CodeSentPrefix| + |username| + |CodeSentSuffix|
    ensures m[..|CodeSentPrefix|] == CodeSentPrefix
    ensures m[|CodeSentPrefix|..|m| - |CodeSentSuffix|] == username
    ensures m[|m| - |CodeSentSuffix|..] == CodeSentSuffix
  {
    CodeSentPrefix + username + CodeSentSuffix
  }

  /** Different emails give different snackbar texts. */
  lemma CodeSentMessageInjective(a: string, b: string)
    requires CodeSentMessage(a) == CodeSentMessage(b)
    ensures a == b
  {
  }

  /** The "send code" button's disabled rule. */
  function SendCodeDisabled(username: string): (r: bool)
    ensures r <==> username == []
  {
    !Filled(username)
  }

  /** The "reset password" button's disabled rule: a field is still empty or one
      of the two password flags is up. */
  function ResetDisabled(username: string, code: string, password: string, confirmedPassword: string): (r: bool)
    ensures !r <==>
      username != [] && code != [] && JsLength(password) >= MinPasswordLength && confirmedPassword == password
    ensures code == [] ==> r
  {
    !(Filled(username) && Filled(code) && Filled(password) && Filled(confirmedPassword))
      || PasswordError(password)
      || ConfirmError(password, confirmedPassword)
  }

  class ForgotPasswordScreen {
    var username: string
    var code: string
    var password: string
    var confirmedPassword: string
    var isSendCodeDisabled: bool
    var isResetDisabled: bool
    var isPasswordError: bool
    var isConfirmPasswordError: bool
    /** The call awaiting its outcome, if any. */
    var pending: Option<AuthRequest>
    var effects: seq<Effect>
    /** `route.params?.signInHasBackAction`, passed on untouched. */
    const signInHasBackAction: Flag

    /** The state once React has re-run every effect whose inputs changed. */
    ghost predicate Valid()
      reads this
    {
      && isPasswordError == PasswordError(password)
      && isConfirmPasswordError == ConfirmError(password, confirmedPassword)
      && (ResetDisabled(username, code, password, confirmedPassword) ==> isResetDisabled)
      && (pending.None? ==> isSendCodeDisabled == SendCodeDisabled(username))
      && (pending.Some? ==> match pending.value
           case ForgotPasswordWithUsername(u) =>
             isSendCodeDisabled && !SendCodeDisabled(username) && u == Trim(username)
           case ForgotPasswordSubmitWithUsername(u, c, p) =>
             && isSendCodeDisabled == SendCodeDisabled(username)
             && isResetDisabled && !ResetDisabled(username, code, password, confirmedPassword)
             && u == Trim(username) && c == code && p == password
           case _ => false)
    }

    twostate predicate FormUnchanged()
      reads this
    {
      && username == old(username)
      && password == old(password)
      && confirmedPassword == old(confirmedPassword)
      && isPasswordError == old(isPasswordError)
      && isConfirmPasswordError == old(isConfirmPasswordError)
    }

    constructor (params: RouteParams)
      ensures Valid()
      ensures username == [] && code == [] && password == [] && confirmedPassword == []
      ensures isSendCodeDisabled && isResetDisabled && !isPasswordError && !isConfirmPasswordError
      ensures pending == None && effects == []
      ensures signInHasBackAction == params.signInHasBackAction
    {
      username, code, password, confirmedPassword := "", "", "", "";
      // mounting runs the "send code" rule on the empty email
      isSendCodeDisabled := SendCodeDisabled("");
      isResetDisabled := true;
      isPasswordError, isConfirmPasswordError := false, false;
      pending, effects := None, [];
      signInHasBackAction := params.signInHasBackAction;
    }

    /** The screen gains focus: `isFocused` has just turned true. A caller
        calls it once per such change, never twice without the screen losing
        focus in between; losing focus logs nothing and is not modelled. */
    method Focus()
      requires Valid()
      modifies this
      ensures Valid() && FormUnchanged() && code == old(code)
      ensures isSendCodeDisabled == old(isSendCodeDisabled) && isResetDisabled == old(isResetDisabled)
      ensures pending == old(pending)
      ensures effects == old(effects) + [Event("onForgotPasswordScreenDisplay")]
    {
      effects := effects + [Event("onForgotPasswordScreenDisplay")];
    }

    method SetUsername(s: string)
      requires Valid() && pending.None?
      modifies this
      ensures Valid()
      ensures username == s && code == old(code) && password == old(password)
      ensures confirmedPassword == old(confirmedPassword)
      ensures isPasswordError == old(isPasswordError) && isConfirmPasswordError == old(isConfirmPasswordError)
      ensures isSendCodeDisabled == SendCodeDisabled(s)
      ensures isResetDisabled ==
        if s == old(username) then old(isResetDisabled) else ResetDisabled(s, code, password, confirmedPassword)
      ensures pending == old(pending) && effects == old(effects)
    {
      if s != username {
        username := s;
        isSendCodeDisabled := SendCodeDisabled(username);
        isResetDisabled := ResetDisabled(username, code, password, confirmedPassword);
      }
    }

    method SetCode(s: string)
      requires Valid() && pending.None?
      modifies this
      ensures Valid() && FormUnchanged()
      ensures code == s && isSendCodeDisabled == old(isSendCodeDisabled)
      ensures isResetDisabled ==
        if s == old(code) then old(isResetDisabled) else ResetDisabled(username, s, password, confirmedPassword)
      ensures pending == old(pending) && effects == old(effects)
    {
      if s != code {
        code := s;
        isResetDisabled := ResetDisabled(username, code, password, confirmedPassword);
      }
    }

    method SetPassword(s: string)
      requires Valid() && pending.None?
      modifies this
      ensures Valid()
      ensures password == s && username == old(username) && code == old(code)
      ensures confirmedPassword == old(confirmedPassword)
      ensures isPasswordError == PasswordError(s)
      ensures isConfirmPasswordError == ConfirmError(s, confirmedPassword)
      ensures isSendCodeDisabled == old(isSendCodeDisabled)
      ensures isResetDisabled ==
        if s == old(password) then old(isResetDisabled) else ResetDisabled(username, code, s, confirmedPassword)
      ensures pending == old(pending) && effects == old(effects)
    {
      if s != password {
        password := s;
        isPasswordError := PasswordError(password);
        isConfirmPasswordError := ConfirmError(password, confirmedPassword);
        isResetDisabled := ResetDisabled(username, code, password, confirmedPassword);
      }
    }

    method SetConfirmedPassword(s: string)
      requires Valid() && pending.None?
      modifies this
      ensures Valid()
      ensures confirmedPassword == s && username == old(username) && code == old(code)
      ensures password == old(password) && isPasswordError == old(isPasswordError)
      ensures isConfirmPasswordError == ConfirmError(password, s)
      ensures isSendCodeDisabled == old(isSendCodeDisabled)
      ensures isResetDisabled ==
        if s == old(confirmedPassword) then old(isResetDisabled) else ResetDisabled(username, code, password, s)
      ensures pending == old(pending) && effects == old(effects)
    {
      if s != confirmedPassword {
        confirmedPassword := s;
        isConfirmPasswordError := ConfirmError(password, confirmedPassword);
        isResetDisabled := ResetDisabled(username, code, password, confirmedPassword);
      }
    }

    /** The "send code" button; a disabled button ignores the press, and the
        button is disabled while its own request is in flight, so pressing it again
        then makes no second call. */
    method PressSendCode()
      requires Valid() && (pending.None? || pending.value.ForgotPasswordWithUsername?)
      modifies this
      ensures Valid() && FormUnchanged() && code == old(code)
      ensures isSendCodeDisabled && isResetDisabled == old(isResetDisabled)
      ensures old(isSendCodeDisabled) ==> pending == old(pending) && effects == old(effects)
      ensures old(pending).Some? ==> pending == old(pending) && effects == old(effects)
      ensures !old(isSendCodeDisabled) ==>
        && pending == Some(ForgotPasswordWithUsername(Trim(username)))
        && effects == old(effects) + [
             Event("onForgotPasswordSendCodeStart"),
             ShowLoading(SendingMessage),
             Call(ForgotPasswordWithUsername(Trim(username)))]
    {
      if isSendCodeDisabled {
        return;
      }
      effects := effects + [Event("onForgotPasswordSendCodeStart")];
      isSendCodeDisabled := true;
      effects := effects + [ShowLoading(SendingMessage)];
      var request := ForgotPasswordWithUsername(Trim(username));
      effects := effects + [Call(request)];
      pending := Some(request);
    }

    /** The code was sent: the code field is cleared, which leaves "reset
        password" disabled, and "send code" is enabled again. */
    method SettleSendCodeSuccess()
      requires Valid() && pending.Some? && pending.value.ForgotPasswordWithUsername?
      modifies this
      ensures Valid() && FormUnchanged()
      ensures pending == None && code == [] && isResetDisabled && !isSendCodeDisabled
      ensures effects == old(effects) + [
        HideLoading,
        Event("onForgotPasswordSendCodeSuccess"),
        Snackbar(CodeSentMessage(username), SnackbarDurationMs)]
    {
      effects := effects + [
        HideLoading,
        Event("onForgotPasswordSendCodeSuccess"),
        Snackbar(CodeSentMessage(username), SnackbarDurationMs)];
      pending := None;
      // clearing an already empty code re-runs no rule; the stored flag is then already up
      if code != "" {
        code := "";
        isResetDisabled := ResetDisabled(username, code, password, confirmedPassword);
      }
      isSendCodeDisabled := false;
    }

    /** Sending the code failed; "send code" is enabled again. */
    method SettleSendCodeFailure(errorCode: string)
      requires Valid() && pending.Some? && pending.value.ForgotPasswordWithUsername?
      modifies this
      ensures Valid() && FormUnchanged() && code == old(code)
      ensures pending == None && !isSendCodeDisabled && isResetDisabled == old(isResetDisabled)
      ensures effects == old(effects) + [
        HideLoading,
        ErrorEvent("onForgotPasswordSendCodeError", errorCode),
        Dialog(SendCodeFailedTitle, SendCodeFailedMessage, [SendCodeOkButton])]
    {
      pending := None;
      effects := effects + [HideLoading, ErrorEvent("onForgotPasswordSendCodeError", errorCode)];
      effects := effects + [Dialog(SendCodeFailedTitle, SendCodeFailedMessage, [SendCodeOkButton])];
      isSendCodeDisabled := false;
    }

    /** The "reset password" button; a disabled button ignores the press, and the
        button is disabled while its own request is in flight, so pressing it again
        then makes no second call. The
        confirmation is not sent. */
    method PressReset()
      requires Valid() && (pending.None? || pending.value.ForgotPasswordSubmitWithUsername?)
      modifies this
      ensures Valid() && FormUnchanged() && code == old(code)
      ensures isResetDisabled && isSendCodeDisabled == old(isSendCodeDisabled)
      ensures old(isResetDisabled) ==> pending == old(pending) && effects == old(effects)
      ensures old(pending).Some? ==> pending == old(pending) && effects == old(effects)
      ensures !old(isResetDisabled) ==>
        && pending == Some(ForgotPasswordSubmitWithUsername(Trim(username), code, password))
        && effects == old(effects) + [
             Event("onForgotPasswordResetStart"),
             ShowLoading(ResettingMessage),
             Call(ForgotPasswordSubmitWithUsername(Trim(username), code, password))]
    {
      if isResetDisabled {
        return;
      }
      effects := effects + [Event("onForgotPasswordResetStart")];
      isResetDisabled := true;
      effects := effects + [ShowLoading(ResettingMessage)];
      var request := ForgotPasswordSubmitWithUsername(Trim(username), code, password);
      effects := effects + [Call(request)];
      pending := Some(request);
    }

    /** The password was reset: a snackbar, then sign-in is pushed; the button stays disabled. */
    method SettleResetSuccess()
      requires Valid() && pending.Some? && pending.value.ForgotPasswordSubmitWithUsername?
      modifies this
      ensures Valid() && FormUnchanged() && code == old(code)
      ensures pending == None && isResetDisabled && isSendCodeDisabled == old(isSendCodeDisabled)
      ensures effects == old(effects) + [
        HideLoading,
        Event("onForgotPasswordResetSuccess"),
        Snackbar(ResetSuccessMessage, SnackbarDurationMs),
        Nav(Push, SignInRoute, RouteParams(None, signInHasBackAction))]
    {
      pending := None;
      effects := effects + [HideLoading, Event("onForgotPasswordResetSuccess")];
      effects := effects + [Snackbar(ResetSuccessMessage, SnackbarDurationMs)];
      effects := effects + [Nav(Push, SignInRoute, RouteParams(None, signInHasBackAction))];
    }

    /** Resetting failed; "reset password" is enabled again. */
    method SettleResetFailure(errorCode: string)
      requires Valid() && pending.Some? && pending.value.ForgotPasswordSubmitWithUsername?
      modifies this
      ensures Valid() && FormUnchanged() && code == old(code)
      ensures pending == None && !isResetDisabled && isSendCodeDisabled == old(isSendCodeDisabled)
      ensures effects == old(effects) + [
        HideLoading,
        ErrorEvent("onForgotPasswordResetError", errorCode),
        Dialog(ResetFailedTitle, ResetFailedMessage, [ResetOkButton])]
    {
      pending := None;
      effects := effects + [HideLoading, ErrorEvent("onForgotPasswordResetError", errorCode)];
      effects := effects + [Dialog(ResetFailedTitle, ResetFailedMessage, [ResetOkButton])];
      isResetDisabled := false;
    }
  }

  /** A code is requested for a padded email: the call gets the email trimmed,
      the snackbar names it as typed. */
  method SendCodeScenario() returns (log: seq<Effect>)
    ensures log == [
      Event("onForgotPasswordSendCodeStart"),
      ShowLoading(SendingMessage),
      Call(ForgotPasswordWithUsername("u@x.com")),
      HideLoading,
      Event("onForgotPasswordSendCodeSuccess"),
      Snackbar(CodeSentMessage(" u@x.com"), SnackbarDurationMs)]
  {
    var screen := new ForgotPasswordScreen(RouteParams(None, Undefined));
    screen.SetUsername(" u@x.com");
    assert " u@x.com" == " " + "u@x.com" + "";
    TrimPadded(" ", "u@x.com", "");
    screen.PressSendCode();
    var started := screen.effects;
    assert started == [
      Event("onForgotPasswordSendCodeStart"),
      ShowLoading(SendingMessage),
      Call(ForgotPasswordWithUsername("u@x.com"))];
    screen.SettleSendCodeSuccess();
    log := screen.effects;
  }

  /** A forgot-password screen with every reset field filled in, `password`
      typed and confirmed, and nothing logged. */
  method FilledResetForm(params: RouteParams, password: string) returns (screen: ForgotPasswordScreen)
    requires JsLength(password) >= MinPasswordLength
    ensures fresh(screen) && screen.Valid() && screen.signInHasBackAction == params.signInHasBackAction
    ensures screen.username == "u@x.com" && screen.code == "123456"
    ensures screen.password == password && screen.confirmedPassword == password
    ensures !screen.isResetDisabled && screen.pending.None? && screen.effects == []
  {
    screen := new ForgotPasswordScreen(params);
    screen.SetUsername("u@x.com");
    screen.SetCode("123456");
    screen.SetPassword(password);
    screen.SetConfirmedPassword(password);
  }

  /** A reset carries the trimmed email, the code and the new password, never
      the confirmation, and ends on the sign-in screen; this holds for every
      password of at least eight code units. */
  method ResetScenario(password: string) returns (log: seq<Effect>)
    requires JsLength(password) >= MinPasswordLength
    ensures log == [
      Event("onForgotPasswordResetStart"),
      ShowLoading(ResettingMessage),
      Call(ForgotPasswordSubmitWithUsername("u@x.com", "123456", password)),
      HideLoading,
      Event("onForgotPasswordResetSuccess"),
      Snackbar(ResetSuccessMessage, SnackbarDurationMs),
      Nav(Push, SignInRoute, RouteParams(None, Bool(true)))]
  {
    var screen := FilledResetForm(RouteParams(None, Bool(true)), password);
    TrimOfTrimmed("u@x.com");
    var request := ForgotPasswordSubmitWithUsername("u@x.com", "123456", password);
    screen.PressReset();
    var started := screen.effects;
    assert started == [Event("onForgotPasswordResetStart"), ShowLoading(ResettingMessage), Call(request)];
    screen.SettleResetSuccess();
    log := screen.effects;
  }

  /** A code typed before "send code" is cleared when the new code is sent, so
      "reset password", enabled before, is disabled until the new code is typed. */
  method ResendClearsCodeScenario(password: string) returns (enabledBefore: bool, code: string, resetDisabled: bool)
    requires JsLength(password) >= MinPasswordLength
    ensures enabledBefore && code == [] && resetDisabled
  {
    var screen := FilledResetForm(RouteParams(None, Undefined), password);
    enabledBefore := !screen.isResetDisabled;
    screen.PressSendCode();
    screen.SettleSendCodeSuccess();
    code, resetDisabled := screen.code, screen.isResetDisabled;
  }
}
