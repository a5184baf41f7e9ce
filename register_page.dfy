/**
 * The registration form: the password-strength indicator, and `handleSubmit`,
 * which registers through the API route and then signs in automatically. The
 * handler awaits two calls, so it runs in three parts: `Submit` up to the
 * `fetch`, `OnRegisterReply` once the reply and its JSON body are in, and
 * `OnSignIn` once the sign-in settles; `pending` records where it is suspended.
 */
module RegisterPage {
  import opened Wrappers
  import opened Strings
  import opened SessionClient

  datatype Strength = Weak | Medium | Strong

  /**
   * `getPasswordStrength`: nothing for an empty password, then by `pass.length`
   * (UTF-16 code units): under 6, under 10, the rest.
   */
  function PasswordStrength(pass: string): (r: Option<Strength>)
    ensures r == None <==> pass == ""
    ensures r == Some(Weak) <==> 1 <= Utf16Length(pass) <= 5
    ensures r == Some(Medium) <==> 6 <= Utf16Length(pass) <= 9
    ensures r == Some(Strong) <==> 10 <= Utf16Length(pass)
  {
    var n := Utf16Length(pass);
    if n == 0 then None
    else if n < 6 then Some(Weak)
    else if n < 10 then Some(Medium)
    else Some(Strong)
  }

  /** Three emoji are six code units in JavaScript, so they already rate as medium. */
  lemma AstralCharactersCountTwice()
    ensures |"\U{1F600}\U{1F600}\U{1F600}"| == 3
    ensures PasswordStrength("\U{1F600}\U{1F600}\U{1F600}") == Some(Medium)
  {
    assert forall i :: 0 <= i < 3 ==> IsAstral("\U{1F600}\U{1F600}\U{1F600}"[i]);
  }

  /** The `{ label, color }` object `getPasswordStrength` returns (`caption` is its `label`). */
  datatype Appearance = Appearance(caption: string, color: string)

  /** A different word and a different colour class (red, yellow, green) for each strength. */
  function AppearanceOf(s: Strength): (r: Appearance)
    ensures r.caption == "Weak" <==> s == Weak
    ensures r.caption == "Medium" <==> s == Medium
    ensures r.caption == "Strong" <==> s == Strong
    ensures r.color == "bg-red-500" <==> s == Weak
    ensures r.color == "bg-yellow-500" <==> s == Medium
    ensures r.color == "bg-green-500" <==> s == Strong
  {
    match s
    case Weak => Appearance("Weak", "bg-red-500")
    case Medium => Appearance("Medium", "bg-yellow-500")
    case Strong => Appearance("Strong", "bg-green-500")
  }

  /** The bar's width, chosen by comparing the label as the page does. */
  function BarWidth(s: Strength): (w: string)
    ensures s == Weak ==> w == "33%"
    ensures s == Medium ==> w == "66%"
    ensures s == Strong ==> w == "100%"
  {
    if AppearanceOf(s).caption == "Weak" then "33%"
    else if AppearanceOf(s).caption == "Medium" then "66%"
    else "100%"
  }

  function Rank(s: Strength): nat {
    match s
    case Weak => 0
    case Medium => 1
    case Strong => 2
  }

  /** A longer password (in code units) never gets a weaker label. */
  lemma StrengthIsMonotone(p: string, q: string)
    requires p != "" && Utf16Length(p) <= Utf16Length(q)
    ensures PasswordStrength(q).Some?
    ensures Rank(PasswordStrength(p).value) <= Rank(PasswordStrength(q).value)
  {
  }

  /** The JSON body of the register reply; `error` is absent when the route did not send one. */
  datatype ReplyBody = ReplyBody(error: Option<string>)

  /** The register `fetch`: it throws, or yields `response.ok` and a body (`None` when `response.json()` throws). */
  datatype RegisterReply = FetchThrew | Replied(ok: bool, data: Option<ReplyBody>)

  /** The JSON the form posts to the registration route. */
  datatype RegisterRequest = RegisterRequest(name: string, email: string, password: string)

  datatype Pending = Idle | AwaitingRegister | AwaitingSignIn

  const RegistrationFailed := "Registration failed"
  const LoginAfterRegistrationFailed := "Login after registration failed"
  const UnexpectedError := "An unexpected error occurred. Please try again."

  /** The text of a non-empty optional string, or `default`: `x || default`. */
  function OrElse(x: Option<string>, default: string): (r: string)
    ensures Truthy(x) ==> r == x.value
    ensures !Truthy(x) ==> r == default
  {
    if Truthy(x) then x.value else default
  }

  class RegisterForm {
    var name: string
    var email: string
    var password: string
    var error: string
    var loading: bool
    var navigatedTo: Option<string>
    var pending: Pending

    ghost predicate Valid()
      reads this
    {
      && (pending != Idle ==> loading && navigatedTo.None? && error == "")
      && (!loading ==> pending == Idle && navigatedTo.None?)
      && (navigatedTo.Some? ==> navigatedTo.value == DashboardPath)
    }

    /** The indicator shown under the password field, if any. */
    function Indicator(): (r: Option<Strength>)
      reads this
      ensures r.Some? <==> password != ""
    {
      PasswordStrength(password)
    }

    constructor ()
      ensures Valid() && !loading && pending == Idle
      ensures name == "" && email == "" && password == "" && error == "" && navigatedTo.None?
    {
      name, email, password, error := "", "", "", "";
      loading, pending := false, Idle;
      navigatedTo := None;
    }

    method EnterName(v: string)
      requires Valid() && !loading
      modifies this`name
      ensures Valid() && name == v
    {
      name := v;
    }

    method EnterEmail(v: string)
      requires Valid() && !loading
      modifies this`email
      ensures Valid() && email == v
    {
      email := v;
    }

    method EnterPassword(v: string)
      requires Valid() && !loading
      modifies this`password
      ensures Valid() && password == v
    {
      password := v;
    }

    /**
     * Submitting sets `loading`, clears `error` and posts the three fields. All
     * three inputs are `required` and the password has `minLength={6}`, so the
     * browser submits the form only with a name, an email and a password of at
     * least 6 code units, which never rates as weak.
     */
    method Submit() returns (request: RegisterRequest)
      requires Valid() && !loading
      requires name != "" && email != "" && Utf16Length(password) >= 6
      modifies this`loading, this`error, this`pending
      ensures Valid() && loading && error == "" && pending == AwaitingRegister
      ensures request == RegisterRequest(name, email, password)
      ensures PasswordStrength(request.password).Some? && PasswordStrength(request.password).value != Weak
    {
      loading := true;
      error := "";
      pending := AwaitingRegister;
      request := RegisterRequest(name, email, password);
    }

    /**
     * The register reply is in. A throw ends in the generic message; a non-ok reply
     * shows its `error` (or "Registration failed") and stops without signing in; an
     * ok reply asks for a sign-in with the entered email and password.
     */
    method OnRegisterReply(reply: RegisterReply) returns (signIn: Option<SignInRequest>)
      requires Valid() && pending == AwaitingRegister
      modifies this`loading, this`error, this`pending
      ensures Valid() && navigatedTo == old(navigatedTo)
      ensures (reply.FetchThrew? || reply.data.None?) ==>
        error == UnexpectedError && !loading && pending == Idle && signIn.None?
      ensures reply.Replied? && reply.data.Some? && !reply.ok ==>
        error == OrElse(reply.data.value.error, RegistrationFailed) && !loading && pending == Idle && signIn.None?
      ensures reply.Replied? && reply.data.Some? && reply.ok ==>
        error == "" && loading && pending == AwaitingSignIn && signIn == Some(CredentialsSignIn(email, password))
    {
      signIn := None;
      if reply.FetchThrew? || reply.data.None? {
        error := UnexpectedError;
        loading := false;
        pending := Idle;
        return;
      }
      if !reply.ok {
        error := OrElse(reply.data.value.error, RegistrationFailed);
        loading := false;
        pending := Idle;
        return;
      }
      pending := AwaitingSignIn;
      signIn := Some(CredentialsSignIn(email, password));
    }

    /**
     * The automatic sign-in settles. A throw ends in the generic message; a result
     * with an error shows it; otherwise the form navigates to the dashboard.
     */
    method OnSignIn(outcome: SignInOutcome)
      requires Valid() && pending == AwaitingSignIn
      modifies this`loading, this`error, this`pending, this`navigatedTo
      ensures Valid() && pending == Idle
      ensures outcome.SignInThrew? ==>
        error == UnexpectedError && !loading && navigatedTo.None?
      ensures outcome.SignInReturned? && outcome.result.Some? && Truthy(outcome.result.value.error) ==>
        error == outcome.result.value.error.value && !loading && navigatedTo.None?
      ensures outcome.SignInReturned? && !(outcome.result.Some? && Truthy(outcome.result.value.error)) ==>
        error == "" && loading && navigatedTo == Some(DashboardPath)
    {
      pending := Idle;
      if outcome.SignInThrew? {
        error := UnexpectedError;
        loading := false;
        return;
      }
      var result := outcome.result;
      if result.Some? && Truthy(result.value.error) {
        error := OrElse(result.value.error, LoginAfterRegistrationFailed);
        loading := false;
        return;
      }
      navigatedTo := Some(DashboardPath);
    }
  }

  /** The form reaches the dashboard only through an ok register reply followed by an error-free sign-in. */
  method SubmitScenario(form: RegisterForm, reply: RegisterReply, outcome: SignInOutcome)
    requires form.Valid() && !form.loading
    requires form.name != "" && form.email != "" && Utf16Length(form.password) >= 6
    modifies form
    ensures form.Valid() && form.pending == Idle
    ensures form.navigatedTo.Some? <==>
      && reply.Replied? && reply.ok && reply.data.Some?
      && outcome.SignInReturned? && !(outcome.result.Some? && Truthy(outcome.result.value.error))
    ensures form.navigatedTo.None? <==> !form.loading
  {
    var request := form.Submit();
    var signIn := form.OnRegisterReply(reply);
    if signIn.Some? {
      form.OnSignIn(outcome);
    }
  }
}
