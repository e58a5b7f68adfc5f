# Session layer of the sleep-tracker front end, in Dafny

This project models the client-side session layer of a Nuxt front end, in four parts:

- **The authenticated request executor** (`useAuthFetch`). It resolves the URL and attaches a bearer header when a token exists. On a 401/403 it starts a token refresh, or joins the one already in flight, and then retries once.
- **The session store** (`auth` store). It holds the access token, the user profile and the `role` cookie. It has the actions `setAccessToken`, `setUser`, `clearAuth`, `logout` and `refresh`, and the getters `isAuthenticated` and `userRole`.
- **The role route middleware.** This is a pure decision: a redirect target, or none.
- **The resend-verification composable.** Four refs form a state machine with a 60-second cooldown.

The executor is an async function with four await points (attempt 1, the refresh promise, `navigateTo('/')` after a failed refresh, and the retry), and the flags `isRefreshing`/`refreshPromise` are module-level state. The model makes the flags the fields of the class `AuthFetch.Fetcher`. One call of `useAuthFetch` is a `Call` value: its URL, its options, where it is suspended, and the effects it has caused so far. A `Fetcher` method advances a call at each point where the event loop resumes it:

- `Begin`: attempt 1 goes out.
- `OnFirstSettled`: attempt 1 settled.
- `OnOwnRefreshSettled`: the refresh this call started settled.
- `OnJoinedRefreshSettled`: a refresh this call joined settled.
- `OnRetrySettled`: the retry settled.

Anything between two awaits runs inside one method. This includes the check-and-set of the flags, which has no suspension point in it. Calls can therefore interleave exactly where the runtime lets them. `AuthFetchScenarios` interleaves two calls this way.

Every externally visible effect of the executor and the store goes into one shared `Effects.EffectLog`: transport calls (with URL, method, headers, body and credentials), refresh and logout endpoint calls, `clearAuth`, and navigations. "Exactly once" and "never" are stated over that log. Each `Call` also carries its own share of the log. The predicate `AuthFetch.Tracked`, kept by every step, bounds each call to at most two transport calls and at most one refresh call. The resend composable's own POSTs are recorded separately, in the field `Resender.requests`.

The network, `navigateTo`, `useCookie` and `useRuntimeConfig` are not modelled as code. Each is represented instead:

- Transport results are parameters (`Outcome`, `RefreshReply`, `Settlement`).
- `navigateTo` is a logged event.
- The role cookie is a field of the store.
- The base URL is a constant of the `Fetcher`.

JavaScript truthiness of a string is `Js.Truthy`: present and not empty.

Behaviour of the code that the model keeps, as written:

- Without a truthy token, attempt 1 sends the caller's headers unchanged, including any `Authorization` the caller supplied. With a token, the bearer header overrides the caller's.
- The retry always sets `Authorization` from the token in the store at retry time. A null token gives `"Bearer null"`.
- A call that joined a refresh in flight ignores the refresh's result and always retries. After a failed refresh, that retry carries `"Bearer null"` (`AuthFetchScenarios.JoinerRetriesAfterFailedRefresh`).
- When the refresh endpoint throws, `refresh` itself calls `clearAuth`. The executor then calls `clearAuth` again, so the log holds two clears before the navigation.
- A truthy role other than `DOCTOR` or `USER` is sent from `/doctor…` to `/user` and from `/user…` back to `/doctor` (`RoleMiddleware.OtherRoleBounces`).
- `resetState` does not stop a running cooldown interval. The next tick therefore takes the cooldown from 0 to -1.

## Model

| member | source | states |
|---|---|---|
| AuthFetch.ResolveUrl | composables/useAuthFetch.ts:32 | a URL starting with "http" is used unchanged; any other becomes base URL + URL |
| AuthFetch.ResolveUrlIdempotent | composables/useAuthFetch.ts:32 | with an absolute or empty base URL, resolving an already resolved URL changes nothing |
| AuthFetch.Bearer | composables/useAuthFetch.ts:41 | the header value is "Bearer " + token, and "Bearer null" when the token is null |
| AuthFetch.FirstAttemptHeaders | composables/useAuthFetch.ts:39-42 | with a truthy token, Authorization is "Bearer " + token and overrides the caller's; without one, the caller's headers go out unchanged; every other caller header is kept |
| AuthFetch.RetryHeaders | composables/useAuthFetch.ts:75-78 | the retry always carries Authorization = Bearer(current token); every other caller header is kept |
| AuthFetch.SameTokenSameHeaders | composables/useAuthFetch.ts:36-79 | with an unchanged truthy token, the retry sends exactly the headers of attempt 1 |
| AuthFetch.IsAuthFailure | composables/useAuthFetch.ts:47 | true exactly when statusCode or status is 401 or 403; an error carrying neither (a network failure) is not an authentication failure |
| AuthFetch.Attempt | composables/useAuthFetch.ts:36-43 | both attempts send the resolved URL, the caller's method and body, and credentials: 'include' |
| AuthFetch.Fetcher.constructor | composables/useAuthFetch.ts:21-22 | at load, no refresh is in flight: isRefreshing is false and refreshPromise is null |
| AuthFetch.Fetcher.Begin | composables/useAuthFetch.ts:24-43 | attempt 1 is logged with the resolved URL and the first-attempt headers built from the store token; flags and store are unchanged |
| AuthFetch.Fetcher.OnFirstSettled | composables/useAuthFetch.ts:44-91 | success: the body is returned, with no refresh, no second fetch and nothing else changed. A non-401/403 error is rethrown unchanged, with no refresh, clear or navigation. On 401/403 with a refresh in flight, the call joins it and changes nothing. Otherwise it sets both flags to a new promise and logs exactly one refresh call. The flag invariant holds after every case |
| AuthFetch.Fetcher.OnOwnRefreshSettled | composables/useAuthFetch.ts:56-79 | the store applies the reply, then both flags are cleared. On true, the store holds the new token (and the profile when the email is truthy), and exactly one retry is logged carrying that token. On false, the session is cleared, the log gains clearAuth then navigate("/") (preceded by refresh's own clearAuth when the endpoint threw), the call throws "Authentication failed", and no retry is made |
| AuthFetch.Fetcher.OnJoinedRefreshSettled | composables/useAuthFetch.ts:51-52 | once the joined promise has settled, the call retries whatever the refresh returned, with Bearer(token in the store now); it starts no refresh and leaves the flags unchanged |
| AuthFetch.Fetcher.OnRetrySettled | composables/useAuthFetch.ts:80-87 | the retry's body is returned, or its error is rethrown unchanged, even a 401/403; the call logs no further effect |
| AuthFetchScenarios.SharedRefreshSucceeds | composables/useAuthFetch.ts:51-79 | two calls both rejected with 401/403 before the refresh settles make exactly one refresh call and four transport calls, and both retries carry "Bearer " + the issued token |
| AuthFetchScenarios.JoinerRetriesAfterFailedRefresh | composables/useAuthFetch.ts:51-77 | when the refresh endpoint throws, the initiator clears twice, navigates to "/" and throws, while the joiner still sends its retry with "Bearer null" |
| AuthStore.Grants | stores/auth.ts:50 | a reply grants a session exactly when it has an accessToken that is present and non-empty; a thrown call never grants one |
| AuthStore.ProfileOf | stores/auth.ts:53-60 | the profile is exactly {email, role, name, surname} of the refresh response |
| AuthStore.Store.constructor | stores/auth.ts:4-7 | a new store holds no token and no user |
| AuthStore.Store.IsAuthenticated | stores/auth.ts:72 | true exactly when the access token is present and non-empty |
| AuthStore.Store.UserRole | stores/auth.ts:73 | the user's role, or undefined when there is no user |
| AuthStore.Store.SetAccessToken | stores/auth.ts:10-12 | sets the token; user and role cookie are unchanged |
| AuthStore.Store.SetUser | stores/auth.ts:15-17 | sets the user; token and role cookie are unchanged |
| AuthStore.Store.ClearAuth | stores/auth.ts:19-25 | token, user and role cookie all end null, and one clear is logged |
| AuthStore.Store.Logout | stores/auth.ts:27-40 | however the logout endpoint settles, the state ends cleared; the logout call and one clear are logged |
| AuthStore.Store.StartRefresh | stores/auth.ts:42-48 | the refresh endpoint call is logged and nothing else changes |
| AuthStore.Store.FinishRefresh | stores/auth.ts:50-67 | result true exactly when the reply has a truthy accessToken, which is then stored. The user becomes the reply's profile when the email is truthy and is left unchanged otherwise. A reply without a truthy token returns false and changes nothing. A thrown call clears the session and returns false. The store stays consistent (no user without a token) |
| RoleMiddleware.Redirect | middleware/role.ts:1-17 | a missing or empty role redirects to "/" whatever the path. A non-DOCTOR on /doctor… goes to /user, and a non-USER on /user… goes to /doctor. No redirect happens exactly when the role is truthy and matches the area of the path |
| RoleMiddleware.AreasDisjoint | middleware/role.ts:10-16 | no path starts with both "/doctor" and "/user", so the two prefix checks never compete |
| RoleMiddleware.OwnAreaAdmitted | middleware/role.ts:10-16 | a DOCTOR is never redirected away from /doctor…, nor a USER away from /user… |
| RoleMiddleware.KnownRoleRedirectSettles | middleware/role.ts:6-16 | for DOCTOR and USER, the redirect target is a page the rule lets through |
| RoleMiddleware.OtherRoleBounces | middleware/role.ts:10-16 | any other truthy role is sent from /doctor to /user and from /user to /doctor |
| ResendVerification.EmptyEmail | composables/useResendVerification.ts:14-17 | an empty email sets only the error, to "Email address is required" |
| ResendVerification.Sending | composables/useResendVerification.ts:19-21 | before the request: resending true, error "", success false; cooldown and interval untouched |
| ResendVerification.Settled | composables/useResendVerification.ts:34-56 | success: success true, error "", cooldown 60, interval started. Failure: the fixed generic message and nothing else. In both cases resending ends false |
| ResendVerification.Ticked | composables/useResendVerification.ts:39-45 | the cooldown drops by 1; when it is at most 0, the interval stops and success is cleared; otherwise both are kept |
| ResendVerification.Reset | composables/useResendVerification.ts:59-64 | the four refs become false, false, "" and 0; the interval is left as it was |
| ResendVerification.Ticks | composables/useResendVerification.ts:39-45 | n seconds of the interval: nothing changes at 0 seconds or once the interval is stopped; the cooldown drops by at least 1 and at most n while it runs; resending and the error are never touched |
| ResendVerification.CountsDown | composables/useResendVerification.ts:39-45 | from a live interval at cooldown k, j ≤ k ticks leave k − j; success and the interval last until tick k, which stops both |
| ResendVerification.StoppedStaysStopped | composables/useResendVerification.ts:41-43 | once the interval is cleared, further seconds change nothing |
| ResendVerification.SuccessCoolsDown | composables/useResendVerification.ts:34-45 | after a successful send and 60 ticks: cooldown 0, success false, interval stopped, no error |
| ResendVerification.FailureNeverSucceeds | composables/useResendVerification.ts:19-56 | a failed send ends with success false, resending false and the generic error |
| ResendVerification.Resender.constructor | composables/useResendVerification.ts:8-11 | fresh refs: false, false, "", 0 |
| ResendVerification.Resender.Start | composables/useResendVerification.ts:13-32 | an empty email returns false at once with no request; otherwise the email is posted and the state is Sending of the old one |
| ResendVerification.Resender.Finish | composables/useResendVerification.ts:34-57 | returns true exactly when the request was fulfilled; the new state is Settled of the old one |
| ResendVerification.Resender.Tick | composables/useResendVerification.ts:39-45 | the interval callback; the new state is Ticked of the old one |
| ResendVerification.Resender.ResetState | composables/useResendVerification.ts:59-64 | the new state is Reset of the old one |

## Left out

- `nuxt.config.ts`: framework configuration with no logic. Its empty default `apiBaseUrl` is why `ResolveUrlIdempotent` admits an empty base.
- HTTP, JSON parsing, cookies on the wire: each network call is a given outcome. The response body is an opaque string, and `params`/`query` are passed through untouched.
- Headers are a plain object keyed by exact name. Case-insensitive header names are not modelled. Neither are `HeadersInit` given as an array or a `Headers` instance, whose spread gives no keys.
- Error statuses are integers; a `statusCode` given as a string is not modelled.
- `console.log`/`console.error`, Pinia/Vue reactivity and `readonly` are not modelled.
- Scheduling is modelled only at the awaits. Some steps are merged:
  - The store's `refresh` continuation and the initiator's resumption after `await refreshPromise` run as one step, `OnOwnRefreshSettled`.
  - `await navigateTo('/')` and the throw after it are part of that same step.
  - `Store.Logout` runs `await $fetch` on the logout endpoint and the `clearAuth` in its `finally` as one step.
  - No other task is modelled as running between the merged parts.
- AuthFetch.Fetcher.OnJoinedRefreshSettled: requires that the joined promise has settled and is no longer the pending one. This is what `await refreshPromise` guarantees; the step does not model the wait itself.
- ResendVerification.Resender.Tick: requires the interval to be scheduled, since the callback only fires then. Real timing is not modelled. Overlapping intervals from repeated successful sends are collapsed into one `intervalLive` flag.
- ResendVerification.Resender.Finish: overlapping sends that settle in either order are not modelled beyond applying each settlement to the current state.
- General interleavings of many tasks are not modelled; the concurrency claims are shown for two interleaved calls in `AuthFetchScenarios`.
- Values of other JavaScript types (a number `accessToken`, an object role cookie) are not modelled. A `null` or `undefined` refresh reply makes `response.accessToken` throw, and is modelled as `EndpointThrew`. A string, number or boolean reply has no `accessToken`, so `refresh` returns false without clearing; it is `Resp` with every field `None`.
