# Auth state store of a Next.js context-API example, in Dafny

The repository is a small Next.js application: a login form, a dashboard that
only signed-in visitors may see, and an `AuthProvider` that keeps "who is
logged in" in React state and synchronises it with a remote API. This project
models the provider's store (`context/AuthContext.tsx`) and the dashboard's
render/redirect decision (`app/dashboard/page.tsx`).

- **State.** `AuthState(user: Option<User>, loading: bool)` with
  `User(email)`. The initial state is `Initial = AuthState(None, true)`.
- **Network as inputs.** A user fetch has outcome `FetchOk(user) | FetchErr`.
  A `POST /api/resources` has outcome `PostOk(body) | PostErr`. The caller
  supplies them.
- **Effects.** Each operation is the list of effects the source performs, in
  program order:
  - `SetUser(u)` and `SetLoading(b)` are the React state setters.
  - `Send(x)` is a request paired with the outcome it received.

  The new state is `Apply(s, effects)`. `Requests` and `Exchanges` extract
  the trace of requests. `SentWhileLoading(s, effects)` says every request
  leaves while `loading` is true, so dependent views show their pending state.
- **Operations.** `CheckAuth`, `Mount` (initial state plus the mount-time
  check), `Login` and `Logout` are functions from a state and outcomes to a
  `Step(state, effects)`.
- **Sessions.** `Session.Run` and `Session.Lifetime` chain operations.
  `Session.ServerUser` is an independent definition of the current user. It
  reads only the server's answers, newest first: a user fetch decides, a
  successful logout decides "absent", and login answers never decide. The
  store is proved to agree with it after every run.
- **Dashboard.** `Dashboard.Gate` is the render/redirect decision.
  `Dashboard.Page` adds the missing-context error. `Dashboard.AfterLogoutClick`
  composes the logout button with the store.

Points where the code's behaviour is easy to misread:

- With `loading` false and no user, the page does not only redirect. The same
  render still produces the welcome block, with `user?.email` empty, and the
  effect then pushes `/login`. `Gate` returns `Render(Welcome(""), Some("/login"))`.
- `checkAuth` never raises `loading` itself. Its request goes out while
  loading only because it is reached at mount (where `loading` starts true)
  or from inside `login`. `CheckAuth` states this as an if-and-only-if.
- A login whose post succeeds but whose re-check fails clears the user,
  because `checkAuth`'s `catch` sets it to null.
- A successful login clears `loading` twice: once in `checkAuth`'s `finally`,
  then in `login`'s. The effect trace shows both.

## Model

| member | source | states |
|---|---|---|
| AuthContext.CheckAuth | context/AuthContext.tsx:29-41 | Issues exactly one request, a user fetch, before any state change. A successful fetch sets the user to the fetched record. Any failure sets it to absent, whatever it was. `loading` ends false. The request goes out while loading exactly when the prior state was loading. The only user it installs is the one its own fetch returned. |
| AuthContext.Mount | context/AuthContext.tsx:25-45 | The provider starts with no user and `loading` true. Mounting issues exactly one user fetch while loading. It settles to the fetched user, or absent, with `loading` false. |
| AuthContext.Login | context/AuthContext.tsx:47-73 | The first effect raises `loading`, and every request leaves while loading. The payload is exactly `{resource: "auth", action: "login", email, password}` with the arguments unchanged. After a successful post, exactly one user fetch follows and the final user is that fetch's result. After a failed post, no fetch is issued and the user is unchanged. `loading` always ends false. Any user it installs comes from its own re-check fetch. |
| AuthContext.Logout | context/AuthContext.tsx:75-93 | The first effect raises `loading`. Exactly one request is sent, with payload `{resource: "auth", action: "logout"}`. A successful post makes the user absent. A failed post leaves the user as it was, possibly present. `loading` always ends false. |
| AuthContext.ApplyConcat | context/AuthContext.tsx:29-93 | Performing two effect lists one after the other gives the same state as performing their concatenation. This is what lets `login` embed `checkAuth`. |
| AuthContext.SentWhileLoadingConcat | context/AuthContext.tsx:47-93 | If each of two consecutive effect lists sends only while loading, so does their concatenation. |
| Session.Dispatch | context/AuthContext.tsx:12-17 | Each call through the provider's interface (`login` or `logout`) sends only while loading and ends with `loading` false. Its final user is the one the server's answers decide, starting from the prior user. |
| Session.Run | context/AuthContext.tsx:47-93 | Any sequence of calls keeps the state equal to the fold of its effect trace. Every request in the sequence leaves while loading. The final user is the newest deciding server answer, or the starting user when none decides. `loading` is false after any non-empty sequence. |
| AuthContext.UsersFetchedConcat | context/AuthContext.tsx:47-93 | If each of two consecutive effect lists installs only users returned by an earlier successful fetch in that list, so does their concatenation. |
| AuthContext.UserProvenance | context/AuthContext.tsx:34-36 | In an effect list that installs only fetched users, the user held after any prefix was either present at the start or returned by a user fetch within that prefix. |
| Session.ServerUserConcat | context/AuthContext.tsx:34-36 | Reading the server's answers to two consecutive traces is the same as reading their concatenation, starting from the first trace's result. |
| Session.ServerUserProvenance | context/AuthContext.tsx:34-36 | A user decided by the server's answers was either present at the start or returned by some successful user fetch in the trace. |
| Session.Lifetime | context/AuthContext.tsx:25-93 | From mount onward, the first effect is the mount-time user fetch, and every request leaves while loading. The final user is whatever the newest deciding answer said, starting from absent. `loading` ends false. |
| Session.LifetimeUserWasFetched | context/AuthContext.tsx:56-63 | At every point after mount, between calls or in the middle of one, a user the store holds was returned by a user fetch it had already sent. It is never taken from a login response. |
| Dashboard.Gate | app/dashboard/page.tsx:17-31 | It requests navigation exactly when loading has finished with no user, and the target is `/login`. It renders the pending view exactly while loading, so a loading state never redirects, whatever the user. With a user and loading finished, it shows the welcome view with the user's email and does not redirect. With no user and loading finished, it shows the welcome view with an empty email, alongside the redirect. |
| Dashboard.Page | app/dashboard/page.tsx:7-13 | Rendering without an auth context is an error, never a render. With a context, the page is the gate's decision over it. |
| Dashboard.AfterLogoutClick | app/dashboard/page.tsx:29 | After a successful logout from the dashboard button, the next render redirects to `/login`. After a failed logout with a user present, it keeps greeting that user and does not redirect. |
| Dashboard.PendingWhileInFlight | app/dashboard/page.tsx:17-23 | At the moment any request of a provider lifetime is sent, the dashboard for the state at that moment is the pending view with no redirect. |
| Dashboard.DashboardAfterMount | app/dashboard/page.tsx:17-28 | Before the first check settles, the dashboard is pending. A successful first fetch greets the fetched email without redirecting. A failed one redirects to `/login`. |
| Dashboard.DashboardAfterLogin | app/dashboard/page.tsx:17-28 | A login whose post and re-check both succeed ends on a dashboard greeting the fetched email. A failed post leaves the dashboard decision as it was for the prior user once loading clears. |

## Left out

- HTTP transport is replaced by caller-supplied outcomes. This covers axios, the absolute URLs, headers and `withCredentials`. The server's user JSON is taken to be a well-formed `User`.
- Error classification and console logging are left out. The axios-versus-unexpected distinction only chooses a log message and never changes state.
- Concurrency is left out. Overlapping `login`/`logout` calls could interleave their `loading` updates, and a response could arrive after navigation. Each operation is modelled as one atomic sequential step.
- React mechanics are left out: hooks, update batching, intermediate renders and effect dependency tracking. Strict mode's double effect run (`next.config.ts`) is also omitted, so mounting runs `checkAuth` once.
- The `useAuth` hook's context lookup and throw is framework plumbing. The dashboard's own missing-context error is modelled by `Dashboard.Page`.
- The login page is left out. It is a controlled form that forwards raw field values to `login` and has no logic of its own. `Session.SubmitLogin` takes those values unchanged.
- The root layout, the provider wrapper component and the Next.js rewrite table are static mounting and configuration with no logic.
