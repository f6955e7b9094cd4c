/**
 * The render and redirect decision of `DashboardPage` (app/dashboard/page.tsx),
 * as a pure function of the auth context it reads.
 */
module Dashboard {
  import opened Wrappers
  import opened AuthContext
  import Session

  const LoginRoute := "/login"

  /** What the page renders: the loading paragraph, or the welcome block with the text shown after "Welcome, ". */
  datatype View = Pending | Welcome(shown: string)

  /** One render: the markup, and the route the effect pushes afterwards, if any. */
  datatype Render = Render(view: View, navigate: Option<string>)

  /** Raised when the page is rendered outside an `AuthProvider`. */
  datatype PageError = ContextNotFound

  /**
   * The page for a settled or pending state. The effect redirects exactly when
   * loading has finished with nobody logged in; the markup is the loading
   * paragraph while loading, otherwise the welcome block, whose email reads
   * `user?.email` and so is empty when the user is absent.
   */
  function Gate(s: AuthState): (r: Render)
    ensures r.navigate.Some? <==> !s.loading && s.user.None?
    ensures r.navigate.Some? ==> r.navigate.value == "/login"
    ensures r.view.Pending? <==> s.loading
    ensures !s.loading && s.user.Some? ==> r.view == Welcome(s.user.value.email)
    ensures !s.loading && s.user.None? ==> r.view == Welcome("")
  {
    var navigate := if !s.loading && s.user.None? then Some(LoginRoute) else None;
    if s.loading then Render(Pending, navigate)
    else Render(Welcome(match s.user case Some(u) => u.email case None => ""), navigate)
  }

  /** `DashboardPage()` given the context lookup: absent context is an error, never a render. */
  function Page(context: Option<AuthState>): (r: Result<Render, PageError>)
    ensures r.Failure? <==> context.None?
    ensures context.Some? ==> r == Success(Gate(context.value))
  {
    match context
    case None => Failure(ContextNotFound)
    case Some(s) => Success(Gate(s))
  }

  /** The logout button wired to the store: the render that follows the click. */
  function AfterLogoutClick(s: AuthState, post: PostOutcome): (r: Render)
    ensures post.PostOk? ==> r == Render(Welcome(""), Some("/login"))
    ensures post.PostErr? && s.user.Some? ==> r == Render(Welcome(s.user.value.email), None)
    ensures post.PostErr? && s.user.None? ==> r.navigate == Some("/login")
  {
    Gate(Logout(s, post).state)
  }

  /** While any request of a lifetime is in flight the dashboard shows its pending view and never redirects. */
  lemma PendingWhileInFlight(fetch: FetchOutcome, actions: seq<Session.Action>, k: nat)
    requires k < |Session.Lifetime(fetch, actions).effects|
    requires Session.Lifetime(fetch, actions).effects[k].Send?
    ensures Gate(Apply(Initial, Session.Lifetime(fetch, actions).effects[..k])) == Render(Pending, None)
  {
  }

  /** Before the first check settles the dashboard is pending; once it settles it greets the fetched user or redirects. */
  lemma DashboardAfterMount(fetch: FetchOutcome)
    ensures Gate(Initial) == Render(Pending, None)
    ensures fetch.FetchOk? ==> Gate(Mount(fetch).state) == Render(Welcome(fetch.user.email), None)
    ensures fetch.FetchErr? ==> Gate(Mount(fetch).state).navigate == Some("/login")
  {
  }

  /** A login whose post and re-check succeed lands on a dashboard greeting the fetched user; a failed post leaves the dashboard decision where it was after loading. */
  lemma DashboardAfterLogin(s: AuthState, email: string, password: string, post: PostOutcome, fetch: FetchOutcome)
    ensures post.PostOk? && fetch.FetchOk? ==>
      Gate(Login(s, email, password, post, fetch).state) == Render(Welcome(fetch.user.email), None)
    ensures post.PostErr? ==>
      Gate(Login(s, email, password, post, fetch).state) == Gate(s.(loading := false))
  {
  }
}
