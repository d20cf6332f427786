/** The sign-in screen: email and password fields, a "sign in" button whose
    failure dialog depends on the error code, links to sign-up and forgot
    password, and two federated shortcuts. */
module SignIn {
  import opened Text
  import opened Effects
  import opened Validation

  const SigningInMessage := "Signing in..."
  const SignInFailedTitle := "Sign In Failed"
  const UnknownErrorMessage := "An unknown error occurred. Check input fields or try again later."
  const IncorrectCredentialsMessage := "Incorrect username or password."
  const NotVerifiedMessage := "Your email address is not verified. Verify email to continue."
  const CloseButton := "closeButton"
  const VerifyButton := "verifyButton"
  const UserNotFound := "UserNotFoundException"
  const NotAuthorized := "NotAuthorizedException"
  const UserNotConfirmed := "UserNotConfirmedException"
  const VerifyEmailRoute := "VerifyEmail"
  const SignUpRoute := "SignUp"
  const ForgotPasswordRoute := "ForgotPassword"

  /** The "sign in" button's disabled rule: no password length check. */
  function SignInDisabled(username: string, password: string): (r: bool)
    ensures r <==> username == [] || password == []
  {
    !Filled(username) || !Filled(password)
  }

  /** The dialog a failed sign-in opens, chosen by the error's code. */
  function FailureDialog(code: string): (d: Effect)
    ensures d.Dialog? && d.title == SignInFailedTitle
    ensures d.message == IncorrectCredentialsMessage <==> code == UserNotFound || code == NotAuthorized
    ensures d.message == NotVerifiedMessage <==> code == UserNotConfirmed
    ensures d.message == UnknownErrorMessage <==>
      code != UserNotFound && code != NotAuthorized && code != UserNotConfirmed
    ensures 1 <= |d.actionIds| <= 2 && d.actionIds[0] == CloseButton
    ensures VerifyButton in d.actionIds <==> code == UserNotConfirmed
    ensures |d.actionIds| == 2 <==> code == UserNotConfirmed
  {
    var message :=
      if code == UserNotFound || code == NotAuthorized then IncorrectCredentialsMessage
      else UnknownErrorMessage;
    var message := if code == UserNotConfirmed then NotVerifiedMessage else message;
    var actions := [CloseButton] + (if code == UserNotConfirmed then [VerifyButton] else []);
    Dialog(SignInFailedTitle, message, actions)
  }

  class SignInScreen {
    var username: string
    var password: string
    var isSignInDisabled: bool
    /** The sign-in call awaiting its outcome, if any. */
    var pending: Option<AuthRequest>
    /** While a dialog with a Verify action is open: the email its handler captured. */
    var verifyActionEmail: Option<string>
    var effects: seq<Effect>
    /** `!!route.params?.signInHasBackAction`. */
    const hasBackAction: bool

    /** The state once React has re-run every effect whose inputs changed. */
    ghost predicate Valid()
      reads this
    {
      && (SignInDisabled(username, password) ==> isSignInDisabled)
      && (pending.Some? ==>
            && isSignInDisabled
            && !SignInDisabled(username, password)
            && pending.value == SignInWithUsername(Trim(username), password))
    }

    twostate predicate FormUnchanged()
      reads this
    {
      username == old(username) && password == old(password)
    }

    constructor (params: RouteParams)
      ensures Valid()
      ensures username == [] && password == [] && isSignInDisabled
      ensures pending == None && verifyActionEmail == None && effects == []
      ensures hasBackAction == Truthy(params.signInHasBackAction)
    {
      username, password := "", "";
      isSignInDisabled := true;
      pending, verifyActionEmail, effects := None, None, [];
      hasBackAction := Truthy(params.signInHasBackAction);
    }

    /** The screen gains focus: `isFocused` has just turned true. A caller
        calls it once per such change, never twice without the screen losing
        focus in between; losing focus logs nothing and is not modelled. */
    method Focus()
      requires Valid()
      modifies this
      ensures Valid() && FormUnchanged()
      ensures isSignInDisabled == old(isSignInDisabled) && pending == old(pending)
      ensures verifyActionEmail == old(verifyActionEmail)
      ensures effects == old(effects) + [Event("onSignInScreenDisplay")]
    {
      effects := effects + [Event("onSignInScreenDisplay")];
    }

    method SetUsername(s: string)
      requires Valid() && pending.None?
      modifies this
      ensures Valid()
      ensures username == s && password == old(password)
      ensures isSignInDisabled == if s == old(username) then old(isSignInDisabled) else SignInDisabled(s, password)
      ensures pending == old(pending) && verifyActionEmail == old(verifyActionEmail) && effects == old(effects)
    {
      if s != username {
        username := s;
        isSignInDisabled := SignInDisabled(username, password);
      }
    }

    method SetPassword(s: string)
      requires Valid() && pending.None?
      modifies this
      ensures Valid()
      ensures password == s && username == old(username)
      ensures isSignInDisabled == if s == old(password) then old(isSignInDisabled) else SignInDisabled(username, s)
      ensures pending == old(pending) && verifyActionEmail == old(verifyActionEmail) && effects == old(effects)
    {
      if s != password {
        password := s;
        isSignInDisabled := SignInDisabled(username, password);
      }
    }

    /** The "sign in" button; a disabled button ignores the press, and the
        button is disabled while its own request is in flight, so pressing it again
        then makes no second call. */
    method PressSignIn()
      requires Valid()
      modifies this
      ensures Valid() && FormUnchanged()
      ensures isSignInDisabled && verifyActionEmail == old(verifyActionEmail)
      ensures old(isSignInDisabled) ==> pending == old(pending) && effects == old(effects)
      ensures old(pending).Some? ==> pending == old(pending) && effects == old(effects)
      ensures !old(isSignInDisabled) ==>
        && pending == Some(SignInWithUsername(Trim(username), password))
        && effects == old(effects) + [
             Event("onSignInWithUsernameStart"),
             ShowLoading(SigningInMessage),
             Call(SignInWithUsername(Trim(username), password))]
    {
      if isSignInDisabled {
        return;
      }
      effects := effects + [Event("onSignInWithUsernameStart")];
      isSignInDisabled := true;
      effects := effects + [ShowLoading(SigningInMessage)];
      var request := SignInWithUsername(Trim(username), password);
      effects := effects + [Call(request)];
      pending := Some(request);
    }

    /** The sign-in call resolves: only the success event. The loading dialog
        stays up and the button stays disabled. */
    method SettleSuccess()
      requires Valid() && pending.Some?
      modifies this
      ensures Valid() && FormUnchanged()
      ensures pending == None && isSignInDisabled && verifyActionEmail == old(verifyActionEmail)
      ensures effects == old(effects) + [Event("onSignInWithUsernameSuccess")]
    {
      pending := None;
      effects := effects + [Event("onSignInWithUsernameSuccess")];
    }

    /** The sign-in call rejects with an error whose code is `code`: the error
        event comes before the loading dialog is hidden, the dialog follows the
        code, and the button's rule is evaluated afresh. */
    method SettleFailure(code: string)
      requires Valid() && pending.Some?
      modifies this
      ensures Valid() && FormUnchanged()
      ensures pending == None
      ensures isSignInDisabled == SignInDisabled(username, password) && !isSignInDisabled
      ensures effects == old(effects) + [
        ErrorEvent("onSignInWithUsernameError", code),
        HideLoading,
        FailureDialog(code)]
      ensures verifyActionEmail == if code == UserNotConfirmed then Some(username) else None
    {
      pending := None;
      effects := effects + [ErrorEvent("onSignInWithUsernameError", code), HideLoading, FailureDialog(code)];
      verifyActionEmail := if code == UserNotConfirmed then Some(username) else None;
      isSignInDisabled := !(Filled(username) && Filled(password));
    }

    /** The dialog's Verify action: push verification for the email entered at
        the failed attempt, then close the dialog. */
    method PressDialogVerify()
      requires Valid() && verifyActionEmail.Some?
      modifies this
      ensures Valid() && FormUnchanged()
      ensures isSignInDisabled == old(isSignInDisabled) && pending == old(pending)
      ensures verifyActionEmail == None
      ensures effects == old(effects) + [
        Nav(Push, VerifyEmailRoute, RouteParams(Some(old(verifyActionEmail).value), Bool(hasBackAction))),
        CloseDialog]
    {
      effects := effects + [
        Nav(Push, VerifyEmailRoute, RouteParams(Some(verifyActionEmail.value), Bool(hasBackAction))),
        CloseDialog];
      verifyActionEmail := None;
    }

    /** The dialog's Close action. A caller calls it only while the failure
        dialog opened by `SettleFailure` is on screen; the model does not track
        whether a dialog is showing. */
    method PressDialogClose()
      requires Valid()
      modifies this
      ensures Valid() && FormUnchanged()
      ensures isSignInDisabled == old(isSignInDisabled) && pending == old(pending)
      ensures verifyActionEmail == None
      ensures effects == old(effects) + [CloseDialog]
    {
      effects := effects + [CloseDialog];
      verifyActionEmail := None;
    }

    /** The "Sign Up" link. */
    method PressSignUpLink()
      requires Valid()
      modifies this
      ensures Valid() && FormUnchanged()
      ensures isSignInDisabled == old(isSignInDisabled) && pending == old(pending)
      ensures verifyActionEmail == old(verifyActionEmail)
      ensures effects == old(effects) + [Nav(Push, SignUpRoute, RouteParams(None, Bool(hasBackAction)))]
    {
      effects := effects + [Nav(Push, SignUpRoute, RouteParams(None, Bool(hasBackAction)))];
    }

    /** The "Forgot Password" link. */
    method PressForgotPasswordLink()
      requires Valid()
      modifies this
      ensures Valid() && FormUnchanged()
      ensures isSignInDisabled == old(isSignInDisabled) && pending == old(pending)
      ensures verifyActionEmail == old(verifyActionEmail)
      ensures effects == old(effects) + [Nav(Push, ForgotPasswordRoute, RouteParams(None, Bool(hasBackAction)))]
    {
      effects := effects + [Nav(Push, ForgotPasswordRoute, RouteParams(None, Bool(hasBackAction)))];
    }

    /** "Continue with Google": fire and forget. */
    method PressGoogle()
      requires Valid()
      modifies this
      ensures Valid() && FormUnchanged()
      ensures isSignInDisabled == old(isSignInDisabled) && pending == old(pending)
      ensures verifyActionEmail == old(verifyActionEmail)
      ensures effects == old(effects) + [Call(SignInWithGoogle), ShowLoading(SigningInMessage), Event("onSignInWithGoogle")]
    {
      effects := effects + [Call(SignInWithGoogle), ShowLoading(SigningInMessage), Event("onSignInWithGoogle")];
    }

    /** "Continue with Apple": fire and forget. */
    method PressApple()
      requires Valid()
      modifies this
      ensures Valid() && FormUnchanged()
      ensures isSignInDisabled == old(isSignInDisabled) && pending == old(pending)
      ensures verifyActionEmail == old(verifyActionEmail)
      ensures effects == old(effects) + [Call(SignInWithApple), ShowLoading(SigningInMessage), Event("onSignInWithApple")]
    {
      effects := effects + [Call(SignInWithApple), ShowLoading(SigningInMessage), Event("onSignInWithApple")];
    }
  }

  /** An unverified account: the dialog offers Verify, and Verify pushes the
      verification screen with the email as typed, then closes the dialog. */
  method UnverifiedScenario() returns (dialog: Effect, log: seq<Effect>)
    ensures dialog == Dialog(SignInFailedTitle, NotVerifiedMessage, [CloseButton, VerifyButton])
    ensures log == [Nav(Push, VerifyEmailRoute, RouteParams(Some("u@x.com "), Bool(false))), CloseDialog]
  {
    var screen := new SignInScreen(RouteParams(None, Undefined));
    screen.SetUsername("u@x.com ");
    screen.SetPassword("pw");
    screen.PressSignIn();
    screen.SettleFailure(UserNotConfirmed);
    dialog := screen.effects[|screen.effects| - 1];
    var before := |screen.effects|;
    screen.PressDialogVerify();
    log := screen.effects[before..];
  }

  /** A wrong password: one Close action, and the button is enabled again. */
  method WrongPasswordScenario() returns (dialog: Effect, disabled: bool)
    ensures dialog == Dialog(SignInFailedTitle, IncorrectCredentialsMessage, [CloseButton])
    ensures !disabled
  {
    var screen := new SignInScreen(RouteParams(None, Bool(true)));
    screen.SetUsername("u@x.com");
    screen.SetPassword("pw");
    screen.PressSignIn();
    screen.SettleFailure(NotAuthorized);
    dialog, disabled := screen.effects[|screen.effects| - 1], screen.isSignInDisabled;
  }
}
