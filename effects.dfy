/** What the screens hand to their collaborators, recorded as an ordered log:
    analytics hooks, the loading dialog, the authentication library, the
    message dialog, the snackbar and the navigator. */
module Effects {

  datatype Option<T> = None | Some(value: T)

  /** A route parameter that is either absent (`undefined`) or a boolean. */
  datatype Flag = Undefined | Bool(value: bool)

  /** JavaScript's `!!flag`. */
  predicate Truthy(f: Flag): (r: bool)
    ensures r <==> f == Bool(true)
    ensures f == Undefined ==> !r
  {
    f.Bool? && f.value
  }

  /** `route.params` as the screens read it. */
  datatype RouteParams = RouteParams(email: Option<string>, signInHasBackAction: Flag)

  /** A call into the authentication library, with exactly the arguments passed. */
  datatype AuthRequest =
    | SignUpWithUsername(username: string, password: string)
    | SignInWithUsername(username: string, password: string)
    | ConfirmSignUpWithUsername(username: string, code: string)
    | ResendSignUpWithUsername(username: string)
    | ForgotPasswordWithUsername(username: string)
    | ForgotPasswordSubmitWithUsername(username: string, code: string, password: string)
    | SignInWithGoogle
    | SignInWithApple

  /** `navigation.navigate` or `navigation.push`. */
  datatype NavKind = Navigate | Push

  datatype Effect =
    | Event(name: string)                          // analytics hook without arguments
    | ErrorEvent(name: string, code: string)       // analytics hook given the caught error
    | ShowLoading(message: string)
    | HideLoading
    | Call(request: AuthRequest)
    | Dialog(title: string, message: string, actionIds: seq<string>)  // always of the error type
    | CloseDialog
    | Snackbar(message: string, durationMs: nat)   // always at the top of the screen
    | Nav(kind: NavKind, route: string, params: RouteParams)

  /** Snackbars on these screens stay for five seconds. */
  const SnackbarDurationMs: nat := 5000
}
