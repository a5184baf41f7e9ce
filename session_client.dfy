/**
 * The client side of the session library as the two auth forms use it:
 * `signIn('credentials', {email, password, redirect: false})` and its result.
 * The library's internals (sessions, tokens, cookies) are not modelled; its
 * result is an input.
 */
module SessionClient {
  import opened Wrappers

  datatype SignInRequest = SignInRequest(provider: string, email: string, password: string, redirect: bool)

  /** The `{error}` object `signIn` resolves to; `error` is absent on success. */
  datatype SignInResponse = SignInResponse(error: Option<string>)

  /** `signIn` either throws or resolves to a response, possibly `undefined`. */
  datatype SignInOutcome = SignInThrew | SignInReturned(result: Option<SignInResponse>)

  /** Where the form navigates after a successful sign-in. */
  const DashboardPath := "/dashboard"

  /** The credentials sign-in a form sends: the entered email and password, unchanged, without redirect. */
  function CredentialsSignIn(email: string, password: string): (r: SignInRequest)
    ensures r.email == email && r.password == password && !r.redirect && r.provider == "credentials"
  {
    SignInRequest("credentials", email, password, false)
  }
}
