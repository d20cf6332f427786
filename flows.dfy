/** The screens chained through the parameters their navigations carry. */
module Flows {
  import opened Text
  import opened Effects
  import opened Validation
  import SignIn
  import SignUp
  import VerifyEmail

  /** The last navigation's parameters in a log. */
  function LastNavParams(log: seq<Effect>): (params: RouteParams)
    requires log != [] && log[|log| - 1].Nav?
  {
    log[|log| - 1].params
  }

  /** Sign-in → sign-up → verify email → sign-in: whatever back-action flag the
      first sign-in screen was opened with, the last one shows the same. */
  method BackActionRoundTrip(flag: Flag, password: string) returns (hasBackAction: bool)
    requires JsLength(password) >= MinPasswordLength
    ensures hasBackAction == Truthy(flag)
  {
    var signIn := new SignIn.SignInScreen(RouteParams(None, flag));
    signIn.PressSignUpLink();
    var signUp := SignUp.FilledSignUpForm(LastNavParams(signIn.effects), "u@x.com", password);
    signUp.PressSignUp();
    signUp.SettleSuccess();
    var verify := new VerifyEmail.VerifyEmailScreen(LastNavParams(signUp.effects));
    verify.SetCode("123456");
    verify.PressVerify();
    verify.SettleVerifySuccess();
    var back := new SignIn.SignInScreen(LastNavParams(verify.effects));
    hasBackAction := back.hasBackAction;
  }

  /** The verification screen opened after a sign-up shows the email exactly as
      it was typed, padding included, with "resend code" enabled. */
  method SignUpToVerifyEmail(password: string) returns (username: string, resendDisabled: bool)
    requires JsLength(password) >= MinPasswordLength
    ensures username == "  u@x.com" && !resendDisabled
  {
    var signUp := SignUp.FilledSignUpForm(RouteParams(None, Undefined), "  u@x.com", password);
    signUp.PressSignUp();
    signUp.SettleSuccess();
    var verify := new VerifyEmail.VerifyEmailScreen(LastNavParams(signUp.effects));
    username, resendDisabled := verify.username, verify.isResendDisabled;
  }
}
