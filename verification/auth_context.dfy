/**
 * The client-side auth state store (`AuthProvider` in context/AuthContext.tsx).
 *
 * Every network call is replaced by an outcome the caller supplies. Each
 * operation is written as the list of effects the source performs, in
 * program order: React state updates (`setUser`, `setLoading`) and requests
 * sent, each request paired with the outcome it received. The state after an
 * operation is that list folded over the state before it.
 */
module AuthContext {
  import opened Wrappers

  /** The identity the current-user endpoint returns. */
  datatype User = User(email: string)

  /** The provider's two pieces of React state. */
  datatype AuthState = AuthState(user: Option<User>, loading: bool)

  /** Outcome of the credentialed `GET /api/user` request. */
  datatype FetchOutcome = FetchOk(user: User) | FetchErr

  /** Outcome of a `POST /api/resources`; a success carries the response body, which the store ignores. */
  datatype PostOutcome = PostOk(body: string) | PostErr

  /** The JSON body of a `POST /api/resources`; an absent field is a key the object does not have. */
  datatype Payload = Payload(resource: string, action: string, email: Option<string>, password: Option<string>)

  /** A request as the server sees it. */
  datatype Request = GetUser | PostResources(body: Payload)

  /** A request together with the outcome it received. */
  datatype Exchange = UserExchange(fetched: FetchOutcome) | PostExchange(body: Payload, posted: PostOutcome)
  {
    function Sent(): Request {
      match this
      case UserExchange(_) => GetUser
      case PostExchange(body, _) => PostResources(body)
    }
  }

  /** One observable step of an operation, in the order the source performs it. */
  datatype Effect = SetUser(newUser: Option<User>) | SetLoading(flag: bool) | Send(exchange: Exchange)

  /** The new state and every effect the operation performed on the way. */
  datatype Step = Step(state: AuthState, effects: seq<Effect>)

  /** `useState(null)` and `useState(true)`: nobody known yet, first check pending. */
  const Initial := AuthState(None, true)

  function Perform(s: AuthState, e: Effect): AuthState {
    match e
    case SetUser(u) => s.(user := u)
    case SetLoading(b) => s.(loading := b)
    case Send(_) => s
  }

  /** The state after performing `effects` in order, starting from `s`. */
  function Apply(s: AuthState, effects: seq<Effect>): AuthState
    decreases |effects|
  {
    if |effects| == 0 then s else Apply(Perform(s, effects[0]), effects[1..])
  }

  /** The exchanges among `effects`, in order. */
  function Exchanges(effects: seq<Effect>): seq<Exchange>
    decreases |effects|
  {
    if |effects| == 0 then []
    else (if effects[0].Send? then [effects[0].exchange] else []) + Exchanges(effects[1..])
  }

  /** The requests among `effects`, in order. */
  function Requests(effects: seq<Effect>): seq<Request>
    decreases |effects|
  {
    if |effects| == 0 then []
    else (if effects[0].Send? then [effects[0].exchange.Sent()] else []) + Requests(effects[1..])
  }

  /** Every request in `effects` leaves while `loading` is true, so dependent views show their pending state. */
  ghost predicate SentWhileLoading(s: AuthState, effects: seq<Effect>) {
    forall k :: 0 <= k < |effects| && effects[k].Send? ==> Apply(s, effects[..k]).loading
  }

  /** Performing `a` then `b` is performing `a + b`. */
  lemma {:induction false} ApplyConcat(s: AuthState, a: seq<Effect>, b: seq<Effect>)
    ensures Apply(s, a + b) == Apply(Apply(s, a), b)
    decreases |a|
  {
    if |a| > 0 {
      assert (a + b)[0] == a[0];
      assert (a + b)[1..] == a[1..] + b;
      ApplyConcat(Perform(s, a[0]), a[1..], b);
    } else {
      assert a + b == b;
    }
  }

  lemma {:induction false} ExchangesConcat(a: seq<Effect>, b: seq<Effect>)
    ensures Exchanges(a + b) == Exchanges(a) + Exchanges(b)
    ensures Requests(a + b) == Requests(a) + Requests(b)
    decreases |a|
  {
    if |a| > 0 {
      assert (a + b)[0] == a[0];
      assert (a + b)[1..] == a[1..] + b;
      ExchangesConcat(a[1..], b);
    } else {
      assert a + b == b;
    }
  }

  /** Effects with no requests contribute nothing to the trace; a single effect contributes at most its own request. */
  lemma ExchangesOfOne(e: Effect)
    ensures Exchanges([e]) == if e.Send? then [e.exchange] else []
    ensures Requests([e]) == if e.Send? then [e.exchange.Sent()] else []
  {
  }

  lemma ApplyOne(s: AuthState, e: Effect)
    ensures Apply(s, [e]) == Perform(s, e)
  {
  }

  /** The opening of `login` and `logout`: raise the loading flag, then send one request. */
  lemma ApplyOpening(s: AuthState, x: Exchange)
    ensures Apply(s, [SetLoading(true), Send(x)]) == s.(loading := true)
  {
    assert [SetLoading(true), Send(x)] == [SetLoading(true)] + [Send(x)];
    ApplyConcat(s, [SetLoading(true)], [Send(x)]);
    ApplyOne(s, SetLoading(true));
    ApplyOne(s.(loading := true), Send(x));
  }

  /** A request sent while loading, in either half, is sent while loading in the whole. */
  lemma SentWhileLoadingConcat(s: AuthState, a: seq<Effect>, b: seq<Effect>)
    requires SentWhileLoading(s, a)
    requires SentWhileLoading(Apply(s, a), b)
    ensures SentWhileLoading(s, a + b)
  {
    forall k | 0 <= k < |a + b| && (a + b)[k].Send?
      ensures Apply(s, (a + b)[..k]).loading
    {
      if k < |a| {
        assert (a + b)[..k] == a[..k];
      } else {
        assert (a + b)[..k] == a + b[..k - |a|];
        ApplyConcat(s, a, b[..k - |a|]);
        assert b[k - |a|].Send?;
      }
    }
  }

  /** Every user the effects install was returned, earlier in the same list, by a successful user fetch. */
  ghost predicate UsersFetched(effects: seq<Effect>) {
    forall i :: 0 <= i < |effects| && effects[i].SetUser? && effects[i].newUser.Some? ==>
      UserExchange(FetchOk(effects[i].newUser.value)) in Exchanges(effects[..i])
  }

  /** Two lists that each install only fetched users together install only fetched users. */
  lemma UsersFetchedConcat(a: seq<Effect>, b: seq<Effect>)
    requires UsersFetched(a)
    requires UsersFetched(b)
    ensures UsersFetched(a + b)
  {
    forall i | 0 <= i < |a + b| && (a + b)[i].SetUser? && (a + b)[i].newUser.Some?
      ensures UserExchange(FetchOk((a + b)[i].newUser.value)) in Exchanges((a + b)[..i])
    {
      if i < |a| {
        assert (a + b)[..i] == a[..i];
      } else {
        assert (a + b)[..i] == a + b[..i - |a|];
        ExchangesConcat(a, b[..i - |a|]);
        assert b[i - |a|] == (a + b)[i];
      }
    }
  }

  /**
   * At every point of a list that installs only fetched users, the user held
   * was either there at the start or returned by a user fetch already sent.
   */
  lemma {:induction false} UserProvenance(s: AuthState, effects: seq<Effect>, k: nat, u: User)
    requires UsersFetched(effects)
    requires k <= |effects|
    requires Apply(s, effects[..k]).user == Some(u)
    ensures s.user == Some(u) || UserExchange(FetchOk(u)) in Exchanges(effects[..k])
    decreases k
  {
    if k > 0 {
      var init, last := effects[..k - 1], effects[k - 1];
      assert effects[..k] == init + [last];
      ApplyConcat(s, init, [last]);
      ApplyOne(Apply(s, init), last);
      ExchangesConcat(init, [last]);
      if last.SetUser? && last.newUser.Some? {
        assert UserExchange(FetchOk(u)) in Exchanges(init);
      } else {
        assert effects[..k - 1] == init;
        UserProvenance(s, effects, k - 1, u);
      }
    }
  }

  function FetchedUser(fetch: FetchOutcome): Option<User> {
    match fetch
    case FetchOk(u) => Some(u)
    case FetchErr => None
  }

  /**
   * `checkAuth` run against state `s`: `setUser(data)` after a successful
   * fetch, `setUser(null)` after any failure, and `setLoading(false)` in the
   * `finally`. It issues exactly one user fetch; it never raises `loading`
   * itself, so its request goes out while loading only if `s` was loading.
   */
  function CheckAuth(s: AuthState, fetch: FetchOutcome): (r: Step)
    ensures r.state == Apply(s, r.effects)
    ensures |r.effects| > 0 && r.effects[0] == Send(UserExchange(fetch))
    ensures Requests(r.effects) == [GetUser]
    ensures Exchanges(r.effects) == [UserExchange(fetch)]
    ensures fetch.FetchOk? ==> r.state.user == Some(fetch.user)
    ensures fetch.FetchErr? ==> r.state.user == None
    ensures !r.state.loading
    ensures SentWhileLoading(s, r.effects) <==> s.loading
    ensures UsersFetched(r.effects)
  {
    var send, settle, finish := [Send(UserExchange(fetch))], [SetUser(FetchedUser(fetch))], [SetLoading(false)];
    ApplyConcat(s, send, settle);
    ApplyConcat(s, send + settle, finish);
    ApplyOne(s, send[0]);
    ApplyOne(Apply(s, send), settle[0]);
    ApplyOne(Apply(s, send + settle), finish[0]);
    ExchangesConcat(send, settle);
    ExchangesConcat(send + settle, finish);
    ExchangesOfOne(send[0]);
    ExchangesOfOne(settle[0]);
    ExchangesOfOne(finish[0]);
    assert (send + settle + finish)[..0] == [];
    assert (send + settle + finish)[..1] == send;
    Step(Apply(s, send + settle + finish), send + settle + finish)
  }

  /** Mounting the provider: the initial state, then the single `checkAuth` of the mount effect. */
  function Mount(fetch: FetchOutcome): (r: Step)
    ensures Initial.user == None && Initial.loading
    ensures Requests(r.effects) == [GetUser]
    ensures Exchanges(r.effects) == [UserExchange(fetch)]
    ensures SentWhileLoading(Initial, r.effects)
    ensures r.state == AuthState(FetchedUser(fetch), false)
  {
    CheckAuth(Initial, fetch)
  }

  /**
   * `login(email, password)` run against state `s`: raise `loading`, post the
   * credentials, and only if the post succeeds `await checkAuth()`; the
   * `finally` clears `loading`. A failed post skips the re-check, so the user
   * is left as it was. The post's response body is never read.
   */
  function Login(s: AuthState, email: string, password: string, post: PostOutcome, fetch: FetchOutcome): (r: Step)
    ensures r.state == Apply(s, r.effects)
    ensures |r.effects| > 0 && r.effects[0] == SetLoading(true)
    ensures SentWhileLoading(s, r.effects)
    ensures !r.state.loading
    ensures Exchanges(r.effects) ==
      [PostExchange(Payload("auth", "login", Some(email), Some(password)), post)]
      + (if post.PostOk? then [UserExchange(fetch)] else [])
    ensures post.PostOk? ==>
      && Requests(r.effects) == [PostResources(Payload("auth", "login", Some(email), Some(password))), GetUser]
      && r.state.user == (if fetch.FetchOk? then Some(fetch.user) else None)
    ensures post.PostErr? ==>
      && Requests(r.effects) == [PostResources(Payload("auth", "login", Some(email), Some(password)))]
      && r.state.user == s.user
    ensures UsersFetched(r.effects)
  {
    var head := [SetLoading(true), Send(PostExchange(Payload("auth", "login", Some(email), Some(password)), post))];
    ApplyOpening(s, head[1].exchange);
    // `checked` is the re-check `login` awaits; its effects enter the trace only after a successful post.
    var checked := CheckAuth(Apply(s, head), fetch);
    var recheck := if post.PostOk? then checked.effects else [];
    var tail := [SetLoading(false)];
    ApplyConcat(s, head, recheck);
    ApplyConcat(s, head + recheck, tail);
    ApplyOne(Apply(s, head + recheck), tail[0]);
    ExchangesConcat(head, recheck);
    ExchangesConcat(head + recheck, tail);
    ExchangesOfOne(head[1]);
    SentWhileLoadingConcat(s, head, recheck);
    SentWhileLoadingConcat(s, head + recheck, tail);
    UsersFetchedConcat(head, recheck);
    UsersFetchedConcat(head + recheck, tail);
    Step(Apply(s, head + recheck + tail), head + recheck + tail)
  }

  /**
   * `logout()` run against state `s`: raise `loading`, post the logout action,
   * and only if the post succeeds `setUser(null)`; the `finally` clears
   * `loading`. A failed post leaves the user in place.
   */
  function Logout(s: AuthState, post: PostOutcome): (r: Step)
    ensures r.state == Apply(s, r.effects)
    ensures |r.effects| > 0 && r.effects[0] == SetLoading(true)
    ensures SentWhileLoading(s, r.effects)
    ensures Exchanges(r.effects) == [PostExchange(Payload("auth", "logout", None, None), post)]
    ensures Requests(r.effects) == [PostResources(Payload("auth", "logout", None, None))]
    ensures !r.state.loading
    ensures post.PostOk? ==> r.state.user == None
    ensures post.PostErr? ==> r.state.user == s.user
    ensures UsersFetched(r.effects)
  {
    var head := [SetLoading(true), Send(PostExchange(Payload("auth", "logout", None, None), post))];
    ApplyOpening(s, head[1].exchange);
    var forget := if post.PostOk? then [SetUser(None)] else [];
    var tail := [SetLoading(false)];
    ApplyConcat(s, head, forget);
    ApplyConcat(s, head + forget, tail);
    ApplyOne(Apply(s, head + forget), tail[0]);
    ExchangesConcat(head, forget);
    ExchangesConcat(head + forget, tail);
    SentWhileLoadingConcat(s, head, forget);
    SentWhileLoadingConcat(s, head + forget, tail);
    Step(Apply(s, head + forget + tail), head + forget + tail)
  }
}
