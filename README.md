# Authentication screens: form rules and submission state machines

This project models four mobile authentication screens: sign in, sign up, forgot password and verify email. Each screen collects credentials in text fields. It works out from them whether its buttons are enabled and whether the password fields show an error. On a press it calls an external authentication library once. It then turns the outcome into dialogs, snackbars and navigations.

The model covers what the screens decide. It leaves out how they look.

- `Text` (text.dfy): lodash's `trim`, written as `TrimStart(TrimEnd(s))`. Lemmas pin it down. It drops only whitespace. It keeps the rest as one contiguous piece with no whitespace at either end. It is idempotent. It yields `""` exactly for all-whitespace input. The whitespace set is JavaScript's `\s`. The lemmas of `Text` hold for any whitespace set; the concrete examples elsewhere (padded emails) rely on the space character being in it. `Text` also defines JavaScript's `length`, `JsLength`, which counts UTF-16 code units: a character past U+FFFF counts twice.
- `Effects` (effects.dfy): the effect log. The screens talk to collaborators they do not own: analytics hooks, the loading dialog, the authentication library, the message dialog, the snackbar and the navigator. Each screen records every such call, in order, in `effects: seq<Effect>`. A `Call` carries exactly the arguments the library receives, so contracts can say what was called, with which arguments (trimmed or raw), and in what order.
- `Validation` (validation.dfy): the two password flags shared by sign-up and forgot password, and JavaScript truthiness of a text field (only `""` is falsy; nothing is trimmed). The eight-character minimum is measured with `JsLength`, as `password.length` is: four emoji make a long enough password (`Validation.AstralPasswordLongEnough`).
- `SignUp`, `ForgotPassword`, `SignIn`, `VerifyEmail`: one module and one class per screen. The fields are the text fields and the boolean flags. Keystroke methods (`SetUsername`, ...) update a field and re-run the rules that read it. This is the state React reaches once every `useEffect` whose inputs changed has run. Setting a field to its current value re-runs nothing, just as React skips a state update that does not change the value. Press methods (`PressSignUp`, ...) model the button together with its handler: a disabled button ignores the press, and an enabled one starts the handler. An `await` is split in two: the press records the call in `pending`, and the `Settle...Success` / `Settle...Failure(code)` methods finish it.
- `Flows` (flows.dfy): screens chained through the route parameters of their navigations.

Each class keeps an invariant, `Valid()`:
- the password flags are always the rule functions of the current fields;
- whenever a button's rule says "disabled", the stored flag is set (a stored flag can stay set when the rule says "enabled", e.g. after a successful sign-up);
- "send code" and "resend code" are always exactly their rule while nothing is pending;
- while a request is pending, its button is disabled, its rule says "enabled" (the press needed that), and `pending` holds exactly the request that was sent.

This invariant is what makes re-enabling a button safe on failure, and it is why clearing the code after a resend always leaves "reset password" or "verify" disabled.

Other behaviour the model follows:
- Emptiness is checked on the raw text. A username made only of blanks counts as filled, and it is trimmed only when sent (`SignUp.BlankUsernameCountsAsFilled`).
- Sign-in's failure path logs the error event before hiding the loading dialog. The other screens hide first.
- Sign-in's success path only logs the success event.
- On the verify-email screen, an `email` parameter that is absent (`undefined`) becomes the empty string. `!username` and `trim` both treat it that way.
- On forgot password, "send code" is declared enabled (`useState(false)`). The rule runs on mount and disables it, and the model starts from that state. On verify email, both buttons are evaluated on mount in the same way.

## Model

| member | source | states |
|---|---|---|
| Text.TrimStart | src/sign-up-screen/index.js:140 | the leading-trim is no longer than its input and the result does not start with whitespace |
| Text.TrimEnd | src/sign-up-screen/index.js:140 | the trailing-trim is no longer than its input and the result does not end with whitespace |
| Text.Trim | src/sign-up-screen/index.js:140 | lodash `trim` as used at every `trim(username)`: the result has no whitespace at either end and is no longer than the input |
| Text.TrimStartSpec | src/sign-up-screen/index.js:140 | the leading-trim keeps a suffix, drops only whitespace and stops at the first non-whitespace character |
| Text.TrimEndSpec | src/sign-up-screen/index.js:140 | the trailing-trim keeps a prefix, drops only whitespace and stops at the last non-whitespace character |
| Text.TrimEndPadded | src/sign-up-screen/index.js:140 | trailing whitespace after a string that does not end in whitespace is exactly what the trailing-trim removes |
| Text.TrimStartPadded | src/sign-up-screen/index.js:140 | leading whitespace before a string that does not start with whitespace is exactly what the leading-trim removes |
| Text.TrimPadded | src/sign-in-screen/index.js:127 | trimming whitespace-padding around a trimmed string returns that string |
| Text.TrimSplits | src/forgot-password-screen/index.js:92 | every string is its trimmed form with whitespace on both sides |
| Text.TrimOfTrimmed | src/verify-email-screen/index.js:82 | a username with no outer whitespace is sent unchanged |
| Text.TrimIdempotent | src/verify-email-screen/index.js:121 | trimming twice is trimming once |
| Text.TrimEmptyIff | src/forgot-password-screen/index.js:128 | the trimmed username is empty exactly when the username is all whitespace |
| Text.JsLength | src/sign-up-screen/index.js:126 | `password.length` in UTF-16 code units: at least the number of characters and at most twice it |
| Text.JsLengthConcat | src/sign-up-screen/index.js:126 | `length` of a concatenation is the sum of the lengths |
| Text.JsLengthBmp | src/sign-up-screen/index.js:126 | `length` equals the character count exactly when no character lies past U+FFFF |
| Validation.Filled | src/sign-in-screen/index.js:104 | JavaScript truthiness of a field (`!username`): true exactly for a non-empty string, with no trimming |
| Validation.PasswordError | src/sign-up-screen/index.js:126 | the password flag holds exactly when the password is non-empty and its `length` in UTF-16 code units is at most 7; an empty password, or one of eight or more characters, is never flagged (the same rule is at src/forgot-password-screen/index.js:82) |
| Validation.AstralPasswordLongEnough | src/sign-up-screen/index.js:126 | a password of four characters past U+FFFF has `length` 8 and is not flagged |
| Validation.ShortBmpPasswordFlagged | src/sign-up-screen/index.js:126 | a password of 1 to 7 characters, all within U+FFFF, is flagged |
| Validation.ConfirmError | src/sign-up-screen/index.js:127 | the confirm flag holds exactly when the confirmation is non-empty and differs, as a literal string, from the password (also src/forgot-password-screen/index.js:83) |
| SignUp.SignUpDisabled | src/sign-up-screen/index.js:120-128 | sign-up is enabled exactly when the username is non-empty, the password's `length` is at least 8 UTF-16 code units and the confirmation equals it; any empty field disables it |
| SignUp.BlankUsernameCountsAsFilled | src/sign-up-screen/index.js:120-140 | a whitespace-only username enables sign-up although the backend then receives the empty username |
| SignUp.TrimPaddedEmail | src/sign-up-screen/index.js:140 | the username "  a@b.com " is sent as "a@b.com" |
| SignUp.SignUpScreen.constructor | src/sign-up-screen/index.js:56-72 | all fields empty, both flags false, the button disabled, nothing logged; the route's back-action parameter is kept as given |
| SignUp.SignUpScreen.Focus | src/sign-up-screen/index.js:84-92 | focusing logs the display event and changes nothing else |
| SignUp.SignUpScreen.SetUsername | src/sign-up-screen/index.js:119-123 | a new username re-evaluates the disabled rule; flags, other fields and log unchanged |
| SignUp.SignUpScreen.SetPassword | src/sign-up-screen/index.js:119-128 | a new password re-derives both flags and the disabled rule |
| SignUp.SignUpScreen.SetConfirmedPassword | src/sign-up-screen/index.js:119-128 | a new confirmation re-derives the confirm flag and the disabled rule |
| SignUp.SignUpScreen.PressSignUp | src/sign-up-screen/index.js:134-142 | disabled (including while its own request is in flight): no effect and no second call; else logs the start event, "Signing up..." and one call with the trimmed username and the raw password (no confirmation), and leaves the button disabled |
| SignUp.SignUpScreen.SettleSuccess | src/sign-up-screen/index.js:143-151 | hides loading, logs success, then navigates once to VerifyEmail with the untrimmed username and the route's back-action parameter; the button stays disabled |
| SignUp.SignUpScreen.SettleFailure | src/sign-up-screen/index.js:152-168 | hides loading, logs the error event, opens 'Sign Up Failed' with the single action okButton, and re-enables the button |
| SignUp.SignUpScreen.PressGoogle | src/sign-up-screen/index.js:171-175 | shows "Signing up...", triggers Google sign-in, logs the event, in that order |
| SignUp.SignUpScreen.PressApple | src/sign-up-screen/index.js:177-181 | shows "Signing up...", triggers Apple sign-in, logs the event, in that order |
| SignUp.PaddedEmailScenario | src/sign-up-screen/index.js:134-151 | for every password of at least 8 code units, a successful sign-up with "  a@b.com " sends "a@b.com" with that password and navigates with "  a@b.com " untouched |
| SignUp.ShortPasswordScenario | src/sign-up-screen/index.js:120-127 | a 5-character password raises the flag, keeps the button disabled, and a press then logs nothing |
| SignUp.DoublePressScenario | src/sign-up-screen/index.js:134-142 | for every password of at least 8 code units, two presses before the call settles log one start, one loading dialog and one call |
| SignUp.RetryScenario | src/sign-up-screen/index.js:134-168 | for every password of at least 8 code units, after a failure the button is enabled and a second press sends the same request |
| ForgotPassword.SendCodeDisabled | src/forgot-password-screen/index.js:71-73 | send-code is disabled exactly when the username is empty |
| ForgotPassword.CodeSentMessage | src/forgot-password-screen/index.js:98 | the snackbar text is the fixed opening, then the username exactly as typed, then the fixed ending about resetting the password |
| ForgotPassword.CodeSentMessageInjective | src/forgot-password-screen/index.js:98 | different usernames give different snackbar texts |
| ForgotPassword.ResetDisabled | src/forgot-password-screen/index.js:75-84 | reset is enabled exactly when username and code are non-empty, the password's `length` is at least 8 UTF-16 code units and the confirmation equals it; an empty code disables it |
| ForgotPassword.ForgotPasswordScreen.constructor | src/forgot-password-screen/index.js:40-48 | all fields empty, both buttons disabled (send-code once its rule has run on mount), flags false, nothing logged |
| ForgotPassword.ForgotPasswordScreen.Focus | src/forgot-password-screen/index.js:61-69 | focusing logs the display event and changes nothing else |
| ForgotPassword.ForgotPasswordScreen.SetUsername | src/forgot-password-screen/index.js:71-79 | a new username re-evaluates both button rules |
| ForgotPassword.ForgotPasswordScreen.SetCode | src/forgot-password-screen/index.js:75-79 | a new code re-evaluates the reset rule only |
| ForgotPassword.ForgotPasswordScreen.SetPassword | src/forgot-password-screen/index.js:75-84 | a new password re-derives both flags and the reset rule |
| ForgotPassword.ForgotPasswordScreen.SetConfirmedPassword | src/forgot-password-screen/index.js:75-84 | a new confirmation re-derives the confirm flag and the reset rule |
| ForgotPassword.ForgotPasswordScreen.PressSendCode | src/forgot-password-screen/index.js:86-93 | disabled (including while its own request is in flight): no effect and no second call; else logs start, "Sending..." and a call with only the trimmed username, and disables send-code |
| ForgotPassword.ForgotPasswordScreen.SettleSendCodeSuccess | src/forgot-password-screen/index.js:94-119 | hides loading, logs success, clears the code (so reset is disabled), shows a 5-second snackbar naming the untrimmed username, re-enables send-code |
| ForgotPassword.ForgotPasswordScreen.SettleSendCodeFailure | src/forgot-password-screen/index.js:102-119 | hides loading, logs the error, opens 'Send Code Failed' with one Ok action, re-enables send-code; the code is kept |
| ForgotPassword.ForgotPasswordScreen.PressReset | src/forgot-password-screen/index.js:122-131 | disabled (including while its own request is in flight): no effect and no second call; else logs start, "Resetting..." and a call with the trimmed username, the raw code and the raw password, never the confirmation |
| ForgotPassword.ForgotPasswordScreen.SettleResetSuccess | src/forgot-password-screen/index.js:132-142 | hides loading, logs success, shows the reset snackbar, then pushes SignIn with the back-action parameter; reset stays disabled |
| ForgotPassword.ForgotPasswordScreen.SettleResetFailure | src/forgot-password-screen/index.js:143-159 | hides loading, logs the error, opens 'Reset Password Failed' with one Ok action, re-enables reset |
| ForgotPassword.SendCodeScenario | src/forgot-password-screen/index.js:86-101 | " u@x.com" is sent as "u@x.com" and named as typed in the snackbar |
| ForgotPassword.ResetScenario | src/forgot-password-screen/index.js:122-142 | for every password of at least 8 code units, a full reset logs exactly the start, loading, call (with that password), hide, success, snackbar and push, in that order |
| ForgotPassword.ResendClearsCodeScenario | src/forgot-password-screen/index.js:94-101 | with reset enabled, sending a code clears the typed code and leaves reset disabled |
| SignIn.SignInDisabled | src/sign-in-screen/index.js:102-105 | sign-in is disabled exactly when username or password is empty; there is no length check |
| SignIn.FailureDialog | src/sign-in-screen/index.js:134-161 | title always 'Sign In Failed'; 'Incorrect username or password.' exactly for UserNotFoundException or NotAuthorizedException, the not-verified message exactly for UserNotConfirmedException, the unknown-error message otherwise; actions start with closeButton and contain verifyButton (length 2) exactly for UserNotConfirmedException |
| SignIn.SignInScreen.constructor | src/sign-in-screen/index.js:66-78 | empty fields, button disabled, no dialog, nothing logged; hasBackAction is the truthiness of the route parameter |
| SignIn.SignInScreen.Focus | src/sign-in-screen/index.js:80-88 | focusing logs the display event and changes nothing else |
| SignIn.SignInScreen.SetUsername | src/sign-in-screen/index.js:102-105 | a new username re-evaluates the rule |
| SignIn.SignInScreen.SetPassword | src/sign-in-screen/index.js:102-105 | a new password re-evaluates the rule |
| SignIn.SignInScreen.PressSignIn | src/sign-in-screen/index.js:121-129 | disabled (including while its own request is in flight): no effect and no second call; else logs start, "Signing in..." and a call with the trimmed username and the raw password; the button is disabled |
| SignIn.SignInScreen.SettleSuccess | src/sign-in-screen/index.js:130 | only the success event: loading stays shown and the button stays disabled |
| SignIn.SignInScreen.SettleFailure | src/sign-in-screen/index.js:131-163 | logs the error before hiding loading, opens the classified dialog, captures the username for Verify only on UserNotConfirmedException, and resets the button to its rule (which is then enabled) |
| SignIn.SignInScreen.PressDialogVerify | src/sign-in-screen/index.js:111-119 | pushes VerifyEmail with the untrimmed username from the failed attempt and hasBackAction, then closes the dialog |
| SignIn.SignInScreen.PressDialogClose | src/sign-in-screen/index.js:135-141 | the Close action closes the dialog and drops its Verify action |
| SignIn.SignInScreen.PressSignUpLink | src/sign-in-screen/index.js:178-181 | pushes SignUp carrying hasBackAction unchanged |
| SignIn.SignInScreen.PressForgotPasswordLink | src/sign-in-screen/index.js:183-186 | pushes ForgotPassword carrying hasBackAction unchanged |
| SignIn.SignInScreen.PressGoogle | src/sign-in-screen/index.js:166-170 | triggers Google sign-in, shows "Signing in...", logs the event, in that order |
| SignIn.SignInScreen.PressApple | src/sign-in-screen/index.js:172-176 | triggers Apple sign-in, shows "Signing in...", logs the event, in that order |
| SignIn.UnverifiedScenario | src/sign-in-screen/index.js:111-163 | UserNotConfirmedException offers Close and Verify; Verify pushes VerifyEmail with the entered username and closes the dialog |
| SignIn.WrongPasswordScenario | src/sign-in-screen/index.js:131-163 | NotAuthorizedException gives the incorrect-credentials message with only Close and re-enables the button |
| VerifyEmail.CodeSentMessage | src/verify-email-screen/index.js:127 | the snackbar text is the fixed opening, then the username exactly as typed, then the fixed ending about verifying the email |
| VerifyEmail.CodeSentMessageInjective | src/verify-email-screen/index.js:127 | different usernames give different snackbar texts |
| VerifyEmail.InitialUsername | src/verify-email-screen/index.js:64-66 | the email field is the route's email, or empty when there is none |
| VerifyEmail.ResendDisabled | src/verify-email-screen/index.js:68-70 | resend is disabled exactly when the username is empty |
| VerifyEmail.VerifyDisabled | src/verify-email-screen/index.js:72-74 | verify is disabled exactly when username or code is empty |
| VerifyEmail.VerifyEmailScreen.constructor | src/verify-email-screen/index.js:38-74 | username from the route, empty code, verify disabled, resend disabled exactly when the route's email is absent or empty, nothing logged |
| VerifyEmail.VerifyEmailScreen.Focus | src/verify-email-screen/index.js:54-62 | focusing logs the display event and changes nothing else |
| VerifyEmail.VerifyEmailScreen.SetUsername | src/verify-email-screen/index.js:68-74 | a new username re-evaluates both rules |
| VerifyEmail.VerifyEmailScreen.SetCode | src/verify-email-screen/index.js:72-74 | a new code re-evaluates the verify rule only |
| VerifyEmail.VerifyEmailScreen.PressVerify | src/verify-email-screen/index.js:76-84 | disabled (including while its own request is in flight): no effect and no second call; else logs start, "Verifying..." and a call with the trimmed username and the raw code |
| VerifyEmail.VerifyEmailScreen.SettleVerifySuccess | src/verify-email-screen/index.js:85-95 | hides loading, logs success, shows the verified snackbar, then pushes SignIn with the back-action parameter; verify stays disabled |
| VerifyEmail.VerifyEmailScreen.SettleVerifyFailure | src/verify-email-screen/index.js:96-112 | hides loading, logs the error, opens 'Verification Failed' with one Ok action, re-enables verify |
| VerifyEmail.VerifyEmailScreen.PressResend | src/verify-email-screen/index.js:115-122 | disabled (including while its own request is in flight): no effect and no second call; else logs start, "Sending..." and a call with only the trimmed username |
| VerifyEmail.VerifyEmailScreen.SettleResendSuccess | src/verify-email-screen/index.js:123-148 | hides loading, logs success, clears the code (so verify is disabled), shows a snackbar naming the untrimmed username, re-enables resend |
| VerifyEmail.VerifyEmailScreen.SettleResendFailure | src/verify-email-screen/index.js:131-148 | hides loading, logs the error, opens 'Resend Code Failed' with one Ok action, re-enables resend |
| VerifyEmail.NoEmailScenario | src/verify-email-screen/index.js:64-74 | opened without an email, both buttons are disabled and pressing them logs nothing |
| VerifyEmail.DoubleResendScenario | src/verify-email-screen/index.js:115-122 | two presses of "resend code" before the call settles log one start, one loading dialog and one call |
| VerifyEmail.ResendScenario | src/verify-email-screen/index.js:115-148 | a resend sends the trimmed email, names it as given, and clears a typed code, disabling verify |
| VerifyEmail.VerifyScenario | src/verify-email-screen/index.js:76-95 | a successful verification logs exactly start, loading, call, hide, success, snackbar and the push to SignIn |
| Effects.Truthy | src/sign-in-screen/index.js:78 | `!!route.params?.signInHasBackAction`: true exactly for the boolean `true`; an absent parameter is false |
| Flows.BackActionRoundTrip | src/sign-in-screen/index.js:78 | for every back-action parameter and every password of at least 8 code units, sign-in → sign-up → verify email → sign-in ends with the same hasBackAction |
| Flows.SignUpToVerifyEmail | src/sign-up-screen/index.js:145-151 | for every password of at least 8 code units, the verification screen opened after sign-up shows the email exactly as typed, with resend enabled |

## Left out

- Rendering: JSX, theme, icons, styled components (`styled.js`), inline error text, and text-input properties.
- The route table in `src/route-config.js`. Route names appear only as the strings in navigation effects.
- Federated sign-in completion, and loading dialogs hidden because of authentication-hub events, the app coming to the foreground, or `isAuthenticated`. These depend on external lifecycle signals. Only the fixed effects of the Google/Apple button handlers are logged.
- The authentication backend, the navigator, the dialog, snackbar and loading libraries, and the analytics hooks. They are foreign code and appear only as entries in the effect log. The dialog kind (always "error"), the button labels and the snackbar position (always top) are not recorded.
- The Ok buttons' handlers on sign-up, forgot password and verify email. They only close the dialog. On sign-in, Close is modelled.
- Back buttons (`navigation.goBack()`). They only navigate.
- Real asynchrony and render scheduling. Each screen allows one pending request. A form button may be pressed again while its own request is pending, and the press is then a no-op, as in the source. Keystrokes, and a press on forgot password's or verify email's *other* form button, require that nothing is pending; this stands in for the blocking loading dialog, since one pending request cannot represent two calls in flight. Intermediate renders before the effects settle are not modelled.
- Route parameters that change while a screen stays mounted. The source reads `route.params` on each render (`email` on verify email, `signInHasBackAction` on every screen). The model reads both once, at construction, so it agrees with the source only while the parameters stay the same.
- Route parameters other than `undefined` or a boolean, and errors without a `code`. A missing code is any string that is none of the three recognised codes.
