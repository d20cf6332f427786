/** The sign-up screen: email, password and confirmation fields, one
    "sign up" button and two federated shortcuts. */
module SignUp {
  import opened Text
  import opened Effects
  import opened Validation

  const SigningUpMessage := "Signing up..."
  const SignUpFailedTitle := "Sign Up Failed"
  const UnknownErrorMessage := "An unknown error occurred. Check input fields or try again later."
  const OkButton := "okButton"
  const VerifyEmailRoute := "VerifyEmail"

  /** The "sign up" button's disabled rule: a field is still empty (raw, not
      trimmed) or one of the two password flags is up. */
  function SignUpDisabled(username: string, password: string, confirmedPassword: string): (r: bool)
    ensures !r <==> username != [] && JsLength(password) >= MinPasswordLength && confirmedPassword == password
    ensures username == [] || password == [] || confirmedPassword == [] ==> r
  {
    !(Filled(username) && Filled(password) && Filled(confirmedPassword))
      || PasswordError(password)
      || ConfirmError(password, confirmedPassword)
  }

  /** A username of blanks only counts as filled: sign-up is enabled, yet the
      backend is then sent the empty username. */
  lemma BlankUsernameCountsAsFilled(username: string, password: string)
    requires username != [] && AllWhitespace(username)
    requires JsLength(password) >= MinPasswordLength
    ensures !SignUpDisabled(username, password, password)
    ensures Trim(username) == []
  {
    TrimEmptyIff(username);
  }

  /** The example of a padded email: lodash strips both blank runs. */
  lemma TrimPaddedEmail()
    ensures Trim("  a@b.com ") == "a@b.com"
  {
    assert "  a@b.com " == "  " + "a@b.com" + " ";
    TrimPadded("  ", "a@b.com", " ");
  }

  class SignUpScreen {
    var username: string
    var password: string
    var confirmedPassword: string
    var isPasswordError: bool
    var isConfirmPasswordError: bool
    var isDisabledSignUp: bool
    /** The sign-up call awaiting its outcome, if any. */
    var pending: Option<AuthRequest>
    var effects: seq<Effect>
    /** `route.params?.signInHasBackAction`, passed on untouched. */
    const signInHasBackAction: Flag

    /** The state once React has re-run every effect whose inputs changed. */
    ghost predicate Valid()
      reads this
    {
      && isPasswordError == PasswordError(password)
      && isConfirmPasswordError == ConfirmError(password, confirmedPassword)
      && (SignUpDisabled(username, password, confirmedPassword) ==> isDisabledSignUp)
      && (pending.Some? ==>
            && isDisabledSignUp
            && !SignUpDisabled(username, password, confirmedPassword)
            && pending.value == SignUpWithUsername(Trim(username), password))
    }

    twostate predicate FormUnchanged()
      reads this
    {
      && username == old(username)
      && password == old(password)
      && confirmedPassword == old(confirmedPassword)
      && isPasswordError == old(isPasswordError)
      && isConfirmPasswordError == old(isConfirmPasswordError)
    }

    constructor (params: RouteParams)
      ensures Valid()
      ensures username == [] && password == [] && confirmedPassword == []
      ensures isDisabledSignUp && !isPasswordError && !isConfirmPasswordError
      ensures pending == None && effects == []
      ensures signInHasBackAction == params.signInHasBackAction
    {
      username, password, confirmedPassword := "", "", "";
      isPasswordError, isConfirmPasswordError := false, false;
      isDisabledSignUp := true;
      pending, effects := None, [];
      signInHasBackAction := params.signInHasBackAction;
    }

    /** The screen gains focus: `isFocused` has just turned true. A caller
        calls it once per such change, never twice without the screen losing
        focus in between; losing focus logs nothing and is not modelled. */
    method Focus()
      requires Valid()
      modifies this
      ensures Valid() && FormUnchanged()
      ensures isDisabledSignUp == old(isDisabledSignUp) && pending == old(pending)
      ensures effects == old(effects) + [Event("onSignUpScreenDisplay")]
    {
      effects := effects + [Event("onSignUpScreenDisplay")];
    }

    method SetUsername(s: string)
      requires Valid() && pending.None?
      modifies this
      ensures Valid()
      ensures username == s && password == old(password) && confirmedPassword == old(confirmedPassword)
      ensures isPasswordError == old(isPasswordError) && isConfirmPasswordError == old(isConfirmPasswordError)
      ensures isDisabledSignUp ==
        if s == old(username) then old(isDisabledSignUp) else SignUpDisabled(s, password, confirmedPassword)
      ensures pending == old(pending) && effects == old(effects)
    {
      if s != username {
        username := s;
        isDisabledSignUp := SignUpDisabled(username, password, confirmedPassword);
      }
    }

    method SetPassword(s: string)
      requires Valid() && pending.None?
      modifies this
      ensures Valid()
      ensures password == s && username == old(username) && confirmedPassword == old(confirmedPassword)
      ensures isPasswordError == PasswordError(s)
      ensures isConfirmPasswordError == ConfirmError(s, confirmedPassword)
      ensures isDisabledSignUp ==
        if s == old(password) then old(isDisabledSignUp) else SignUpDisabled(username, s, confirmedPassword)
      ensures pending == old(pending) && effects == old(effects)
    {
      if s != password {
        password := s;
        isPasswordError := PasswordError(password);
        isConfirmPasswordError := ConfirmError(password, confirmedPassword);
        isDisabledSignUp := SignUpDisabled(username, password, confirmedPassword);
      }
    }

    method SetConfirmedPassword(s: string)
      requires Valid() && pending.None?
      modifies this
      ensures Valid()
      ensures confirmedPassword == s && username == old(username) && password == old(password)
      ensures isPasswordError == old(isPasswordError)
      ensures isConfirmPasswordError == ConfirmError(password, s)
      ensures isDisabledSignUp ==
        if s == old(confirmedPassword) then old(isDisabledSignUp) else SignUpDisabled(username, password, s)
      ensures pending == old(pending) && effects == old(effects)
    {
      if s != confirmedPassword {
        confirmedPassword := s;
        isConfirmPasswordError := ConfirmError(password, confirmedPassword);
        isDisabledSignUp := SignUpDisabled(username, password, confirmedPassword);
      }
    }

    /** The "sign up" button; a disabled button ignores the press, and the
        button is disabled while its own request is in flight, so pressing it again
        then makes no second call. */
    method PressSignUp()
      requires Valid()
      modifies this
      ensures Valid() && FormUnchanged()
      ensures isDisabledSignUp
      ensures old(isDisabledSignUp) ==> pending == old(pending) && effects == old(effects)
      ensures old(pending).Some? ==> pending == old(pending) && effects == old(effects)
      ensures !old(isDisabledSignUp) ==>
        && pending == Some(SignUpWithUsername(Trim(username), password))
        && effects == old(effects) + [
             Event("onSignUpWithUsernameStart"),
             ShowLoading(SigningUpMessage),
             Call(SignUpWithUsername(Trim(username), password))]
    {
      if isDisabledSignUp {
        return;
      }
      effects := effects + [Event("onSignUpWithUsernameStart")];
      isDisabledSignUp := true;
      effects := effects + [ShowLoading(SigningUpMessage)];
      var request := SignUpWithUsername(Trim(username), password);
      effects := effects + [Call(request)];
      pending := Some(request);
    }

    /** The sign-up call resolves. The button stays disabled. */
    method SettleSuccess()
      requires Valid() && pending.Some?
      modifies this
      ensures Valid() && FormUnchanged()
      ensures pending == None && isDisabledSignUp
      ensures effects == old(effects) + [
        HideLoading,
        Event("onSignUpWithUsernameSuccess"),
        Nav(Navigate, VerifyEmailRoute, RouteParams(Some(username), signInHasBackAction))]
    {
      pending := None;
      effects := effects + [HideLoading, Event("onSignUpWithUsernameSuccess")];
      effects := effects + [Nav(Navigate, VerifyEmailRoute, RouteParams(Some(username), signInHasBackAction))];
    }

    /** The sign-up call rejects with an error whose code is `code`. */
    method SettleFailure(code: string)
      requires Valid() && pending.Some?
      modifies this
      ensures Valid() && FormUnchanged()
      ensures pending == None && !isDisabledSignUp
      ensures effects == old(effects) + [
        HideLoading,
        ErrorEvent("onSignUpWithUsernameError", code),
        Dialog(SignUpFailedTitle, UnknownErrorMessage, [OkButton])]
    {
      pending := None;
      effects := effects + [HideLoading, ErrorEvent("onSignUpWithUsernameError", code)];
      effects := effects + [Dialog(SignUpFailedTitle, UnknownErrorMessage, [OkButton])];
      isDisabledSignUp := false;
    }

    /** "Continue with Google": fire and forget. */
    method PressGoogle()
      requires Valid()
      modifies this
      ensures Valid() && FormUnchanged()
      ensures isDisabledSignUp == old(isDisabledSignUp) && pending == old(pending)
      ensures effects == old(effects) + [ShowLoading(SigningUpMessage), Call(SignInWithGoogle), Event("onSignUpWithGoogle")]
    {
      effects := effects + [ShowLoading(SigningUpMessage), Call(SignInWithGoogle), Event("onSignUpWithGoogle")];
    }

    /** "Continue with Apple": fire and forget. */
    method PressApple()
      requires Valid()
      modifies this
      ensures Valid() && FormUnchanged()
      ensures isDisabledSignUp == old(isDisabledSignUp) && pending == old(pending)
      ensures effects == old(effects) + [ShowLoading(SigningUpMessage), Call(SignInWithApple), Event("onSignUpWithApple")]
    {
      effects := effects + [ShowLoading(SigningUpMessage), Call(SignInWithApple), Event("onSignUpWithApple")];
    }
  }

  /** A sign-up screen with `username` typed and a long enough `password` typed
      and confirmed: the button is enabled and nothing is logged. */
  method FilledSignUpForm(params: RouteParams, username: string, password: string) returns (screen: SignUpScreen)
    requires username != [] && JsLength(password) >= MinPasswordLength
    ensures fresh(screen) && screen.Valid() && screen.signInHasBackAction == params.signInHasBackAction
    ensures screen.username == username
    ensures screen.password == password && screen.confirmedPassword == password
    ensures !screen.isDisabledSignUp && screen.pending.None? && screen.effects == []
  {
    screen := new SignUpScreen(params);
    screen.SetUsername(username);
    screen.SetPassword(password);
    screen.SetConfirmedPassword(password);
  }

  /** A padded email is sent trimmed but passed on to verification as typed;
      the password is sent as it is. */
  method PaddedEmailScenario(password: string) returns (log: seq<Effect>)
    requires JsLength(password) >= MinPasswordLength
    ensures log == [
      Event("onSignUpWithUsernameStart"),
      ShowLoading(SigningUpMessage),
      Call(SignUpWithUsername("a@b.com", password)),
      HideLoading,
      Event("onSignUpWithUsernameSuccess"),
      Nav(Navigate, VerifyEmailRoute, RouteParams(Some("  a@b.com "), Bool(true)))]
  {
    var screen := FilledSignUpForm(RouteParams(None, Bool(true)), "  a@b.com ", password);
    TrimPaddedEmail();
    screen.PressSignUp();
    screen.SettleSuccess();
    log := screen.effects;
  }

  /** A five-character password raises the flag and keeps the button disabled;
      pressing it then does nothing. */
  method ShortPasswordScenario() returns (flagged: bool, disabled: bool, log: seq<Effect>)
    ensures flagged && disabled && log == []
  {
    var screen := new SignUpScreen(RouteParams(None, Undefined));
    screen.SetUsername("u@x.com");
    screen.SetPassword("short");
    screen.SetConfirmedPassword("short");
    ShortBmpPasswordFlagged("short");
    screen.PressSignUp();
    flagged, disabled, log := screen.isPasswordError, screen.isDisabledSignUp, screen.effects;
  }

  /** Pressing "sign up" twice before the call settles sends one request. */
  method DoublePressScenario(password: string) returns (log: seq<Effect>)
    requires JsLength(password) >= MinPasswordLength
    ensures log == [
      Event("onSignUpWithUsernameStart"),
      ShowLoading(SigningUpMessage),
      Call(SignUpWithUsername("u@x.com", password))]
  {
    var screen := FilledSignUpForm(RouteParams(None, Undefined), "u@x.com", password);
    TrimOfTrimmed("u@x.com");
    screen.PressSignUp();
    screen.PressSignUp();
    log := screen.effects;
  }

  /** After a failure the button is enabled again and a retry sends the same request. */
  method RetryScenario(password: string) returns (requests: seq<Effect>)
    requires JsLength(password) >= MinPasswordLength
    ensures |requests| == 2 && requests[0] == requests[1] == Call(SignUpWithUsername("u@x.com", password))
  {
    var screen := FilledSignUpForm(RouteParams(None, Undefined), "u@x.com", password);
    TrimOfTrimmed("u@x.com");
    screen.PressSignUp();
    var first := screen.effects[|screen.effects| - 1];
    screen.SettleFailure("UsernameExistsException");
    screen.PressSignUp();
    var second := screen.effects[|screen.effects| - 1];
    requests := [first, second];
  }
}
