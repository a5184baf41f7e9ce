/**
 * The dashboard's route guard: the session status reported by the session
 * library selects exactly one rendering, and only the authenticated one shows
 * the protected content (the welcome line and the Logout button).
 */
module Dashboard {
  import opened Wrappers
  import opened Strings

  datatype Status = Loading | Unauthenticated | Authenticated

  /** The `session.user` fields the page reads; each may be missing. */
  datatype SessionUser = SessionUser(name: Option<string>, email: Option<string>)

  /** What the page renders. */
  datatype View =
    | LoadingView                       // "Loading..."
    | PleaseLoginView                   // "Please Login"
    | DashboardView(greeting: string)   // "Dashboard", "Welcome, <greeting>! ...", a Logout button

  /** The text of a view, line by line. */
  function Text(v: View): seq<string> {
    match v
    case LoadingView => ["Loading..."]
    case PleaseLoginView => ["Please Login"]
    case DashboardView(g) => ["Dashboard", "Welcome, " + g + "! You are logged in.", "Logout"]
  }

  predicate ShowsProtectedContent(v: View) {
    v.DashboardView?
  }

  /** `session?.user?.name || session?.user?.email`, rendered as text (nothing when both are missing). */
  function Greeting(user: Option<SessionUser>): (g: string)
    ensures user.Some? && Truthy(user.value.name) ==> g == user.value.name.value
    ensures user.Some? && !Truthy(user.value.name) && user.value.email.Some? ==> g == user.value.email.value
    ensures (user.None? || (!Truthy(user.value.name) && user.value.email.None?)) ==> g == ""
  {
    match user
    case None => ""
    case Some(u) => if Truthy(u.name) then u.name.value else u.email.GetOr("")
  }

  function Render(status: Status, user: Option<SessionUser>): (v: View)
    ensures status == Loading ==> Text(v) == ["Loading..."]
    ensures status == Unauthenticated ==> Text(v) == ["Please Login"]
    ensures ShowsProtectedContent(v) <==> status == Authenticated
    ensures status == Authenticated ==> v == DashboardView(Greeting(user))
  {
    match status
    case Loading => LoadingView
    case Unauthenticated => PleaseLoginView
    case Authenticated => DashboardView(Greeting(user))
  }

  /** The request `handleLogout` sends to the session library. */
  datatype SignOutRequest = SignOut(redirectTo: string)

  /** Logout destroys the session and sends the browser to the sign-in page. */
  function HandleLogout(): (r: SignOutRequest)
    ensures r.redirectTo == "/login"
  {
    SignOut("/login")
  }

  /** Neither a loading nor a signed-out session ever sees the welcome line or the Logout button. */
  lemma GuardHidesProtectedText(status: Status, user: Option<SessionUser>)
    requires status != Authenticated
    ensures "Logout" !in Text(Render(status, user))
    ensures forall line | line in Text(Render(status, user)) :: line in {"Loading...", "Please Login"}
  {
  }
}
