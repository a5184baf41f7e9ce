/**
 * The login form: its `error` and `loading` state cells, the navigation it
 * triggers, and `handleSubmit`. The handler runs in two parts around one
 * awaited call: `Submit` up to `await signIn(...)`, and `OnSignIn` once the
 * call settles; `pending` records that the handler is suspended in between.
 */
module LoginPage {
  import opened Wrappers
  import opened SessionClient

  class LoginForm {
    var email: string
    var password: string
    var error: string
    var loading: bool
    var navigatedTo: Option<string>
    var pending: bool

    ghost predicate Valid()
      reads this
    {
      && (pending ==> loading && navigatedTo.None? && error == "")
      && (!loading ==> !pending && navigatedTo.None?)
      && (navigatedTo.Some? ==> navigatedTo.value == DashboardPath)
    }

    /** The inputs and the submit button are disabled exactly while `loading`, so while the sign-in is awaited. */
    predicate Disabled()
      reads this
      ensures Disabled() <==> loading
      ensures Valid() && pending ==> Disabled()
    {
      loading
    }

    constructor ()
      ensures Valid() && !Disabled()
      ensures email == "" && password == "" && error == "" && navigatedTo.None? && !pending
    {
      email, password, error := "", "", "";
      loading, pending := false, false;
      navigatedTo := None;
    }

    method EnterEmail(v: string)
      requires Valid() && !Disabled()
      modifies this`email
      ensures Valid() && email == v
    {
      email := v;
    }

    method EnterPassword(v: string)
      requires Valid() && !Disabled()
      modifies this`password
      ensures Valid() && password == v
    {
      password := v;
    }

    /**
     * Submitting sets `loading` and clears `error`, then asks for a sign-in with the
     * entered credentials. Both inputs are `required`, so the browser submits the
     * form only when neither is empty.
     */
    method Submit() returns (request: SignInRequest)
      requires Valid() && !Disabled()
      requires email != "" && password != ""
      modifies this`loading, this`error, this`pending
      ensures Valid() && Disabled() && pending
      ensures error == ""
      ensures request == CredentialsSignIn(email, password)
      ensures request.email != "" && request.password != ""
    {
      loading := true;
      error := "";
      pending := true;
      request := CredentialsSignIn(email, password);
    }

    /**
     * The sign-in call settles. A result with an error shows it and re-enables the
     * form; any other result navigates to the dashboard with `error` still empty.
     * There is no catch: a throwing `signIn` ends the handler with `loading` still set.
     */
    method OnSignIn(outcome: SignInOutcome)
      requires Valid() && pending
      modifies this`loading, this`error, this`pending, this`navigatedTo
      ensures Valid() && !pending
      ensures outcome.SignInThrew? ==>
        error == old(error) && loading && navigatedTo.None?
      ensures outcome.SignInReturned? && outcome.result.Some? && outcome.result.value.error.Some?
              && outcome.result.value.error.value != "" ==>
        error == outcome.result.value.error.value && !loading && navigatedTo.None?
      ensures outcome.SignInReturned? && !(outcome.result.Some? && outcome.result.value.error.Some?
              && outcome.result.value.error.value != "") ==>
        error == old(error) == "" && loading && navigatedTo == Some(DashboardPath)
    {
      pending := false;
      if outcome.SignInThrew? {
        return;
      }
      var result := outcome.result;
      if result.Some? && result.value.error.Some? && result.value.error.value != "" {
        error := result.value.error.value;
        loading := false;
      } else {
        navigatedTo := Some(DashboardPath);
      }
    }
  }
}
