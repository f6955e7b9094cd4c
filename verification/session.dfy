/**
 * A whole provider lifetime: mount, then any sequence of login submissions
 * and logout clicks, each with the outcomes the server gave it. Operations
 * run one after another; overlapping calls are not modelled.
 *
 * `ServerUser` is an independent reading of who is logged in: it looks only
 * at the server's answers, newest first, and takes the first one that decides
 * the question. The store agrees with it after every run, which is the
 * precise form of "the store never makes up a user from a login response".
 */
module Session {
  import opened Wrappers
  import opened AuthContext

  /** A call into the store's public interface together with the outcomes its requests receive. */
  datatype Action =
    | SubmitLogin(email: string, password: string, post: PostOutcome, fetch: FetchOutcome)
    | ClickLogout(post: PostOutcome)

  /**
   * What a single server answer says about the current user: `Some(u)` when
   * it decides that the user is `u` (absent included), `None` when it says
   * nothing. A user fetch always decides; a successful logout decides
   * "absent"; a login answer and a failed logout never decide.
   */
  function Verdict(x: Exchange): Option<Option<User>> {
    match x
    case UserExchange(FetchOk(u)) => Some(Some(u))
    case UserExchange(FetchErr) => Some(None)
    case PostExchange(body, PostOk(_)) => if body == Payload("auth", "logout", None, None) then Some(None) else None
    case PostExchange(_, PostErr) => None
  }

  /** The user named by the newest deciding answer in `xs`, or `initial` when none decides. */
  function ServerUser(initial: Option<User>, xs: seq<Exchange>): Option<User>
    decreases |xs|
  {
    if |xs| == 0 then initial
    else match Verdict(xs[|xs| - 1])
      case Some(u) => u
      case None => ServerUser(initial, xs[..|xs| - 1])
  }

  lemma {:induction false} ServerUserConcat(initial: Option<User>, a: seq<Exchange>, b: seq<Exchange>)
    ensures ServerUser(initial, a + b) == ServerUser(ServerUser(initial, a), b)
    decreases |b|
  {
    if |b| == 0 {
      assert a + b == a;
    } else {
      assert (a + b)[|a + b| - 1] == b[|b| - 1];
      assert (a + b)[..|a + b| - 1] == a + b[..|b| - 1];
      ServerUserConcat(initial, a, b[..|b| - 1]);
    }
  }

  /** A user the server history names was either there before or returned by some successful user fetch. */
  lemma {:induction false} ServerUserProvenance(initial: Option<User>, xs: seq<Exchange>, u: User)
    requires ServerUser(initial, xs) == Some(u)
    ensures initial == Some(u) || UserExchange(FetchOk(u)) in xs
    decreases |xs|
  {
    if |xs| > 0 {
      var last := xs[|xs| - 1];
      if Verdict(last).None? {
        ServerUserProvenance(initial, xs[..|xs| - 1], u);
        if UserExchange(FetchOk(u)) in xs[..|xs| - 1] {
          var i :| 0 <= i < |xs| - 1 && xs[..|xs| - 1][i] == UserExchange(FetchOk(u));
          assert xs[i] == UserExchange(FetchOk(u));
        }
      } else {
        assert last == UserExchange(FetchOk(u));
      }
    }
  }

  /** One call into the store. */
  function Dispatch(s: AuthState, a: Action): (r: Step)
    ensures r.state == Apply(s, r.effects)
    ensures SentWhileLoading(s, r.effects)
    ensures !r.state.loading
    ensures r.state.user == ServerUser(s.user, Exchanges(r.effects))
    ensures UsersFetched(r.effects)
  {
    match a
    case SubmitLogin(email, password, post, fetch) =>
      Login(s, email, password, post, fetch)
    case ClickLogout(post) =>
      Logout(s, post)
  }

  /** The calls of `actions`, one after another, starting from `s`. */
  function Run(s: AuthState, actions: seq<Action>): (r: Step)
    ensures r.state == Apply(s, r.effects)
    ensures SentWhileLoading(s, r.effects)
    ensures r.state.user == ServerUser(s.user, Exchanges(r.effects))
    ensures |actions| > 0 ==> !r.state.loading
    ensures |actions| == 0 ==> r.state == s
    ensures UsersFetched(r.effects)
    decreases |actions|
  {
    if |actions| == 0 then Step(s, [])
    else
      var first := Dispatch(s, actions[0]);
      var rest := Run(first.state, actions[1..]);
      ApplyConcat(s, first.effects, rest.effects);
      SentWhileLoadingConcat(s, first.effects, rest.effects);
      ExchangesConcat(first.effects, rest.effects);
      ServerUserConcat(s.user, Exchanges(first.effects), Exchanges(rest.effects));
      UsersFetchedConcat(first.effects, rest.effects);
      Step(rest.state, first.effects + rest.effects)
  }

  /** A provider mounted with first fetch outcome `fetch`, then driven by `actions`. */
  function Lifetime(fetch: FetchOutcome, actions: seq<Action>): (r: Step)
    ensures r.state == Apply(Initial, r.effects)
    ensures SentWhileLoading(Initial, r.effects)
    ensures !r.state.loading
    ensures r.state.user == ServerUser(None, Exchanges(r.effects))
    ensures |r.effects| > 0 && r.effects[0] == Send(UserExchange(fetch))
    ensures UsersFetched(r.effects)
  {
    var mounted := Mount(fetch);
    var rest := Run(mounted.state, actions);
    ApplyConcat(Initial, mounted.effects, rest.effects);
    SentWhileLoadingConcat(Initial, mounted.effects, rest.effects);
    ExchangesConcat(mounted.effects, rest.effects);
    ServerUserConcat(None, Exchanges(mounted.effects), Exchanges(rest.effects));
    UsersFetchedConcat(mounted.effects, rest.effects);
    Step(rest.state, mounted.effects + rest.effects)
  }

  /**
   * The store never makes up a user: at every point of a lifetime, between
   * calls or in the middle of one, whoever it holds was returned by one of the
   * user fetches it had already sent, and never taken from a login response.
   */
  lemma LifetimeUserWasFetched(fetch: FetchOutcome, actions: seq<Action>, k: nat, u: User)
    requires k <= |Lifetime(fetch, actions).effects|
    requires Apply(Initial, Lifetime(fetch, actions).effects[..k]).user == Some(u)
    ensures UserExchange(FetchOk(u)) in Exchanges(Lifetime(fetch, actions).effects[..k])
  {
    UserProvenance(Initial, Lifetime(fetch, actions).effects, k, u);
  }
}
