/**
 * The authenticated request executor (`composables/useAuthFetch.ts`).
 *
 * `useAuthFetch` is an async function with four suspension points: the
 * first transport call, the await on the (possibly shared) refresh promise,
 * `navigateTo('/')` after a failed refresh, and the retry. The navigation
 * is merged into the step that resumes from the refresh. The module-level flags `isRefreshing`/`refreshPromise` are
 * the fields of a `Fetcher`; one call of `useAuthFetch` is a `Call` value
 * that the methods of `Fetcher` advance, one method per resumption, so that
 * calls may interleave at exactly the points where the runtime lets them.
 * Everything between two awaits runs as one method, without interruption.
 */
module AuthFetch {
  import opened Js
  import opened Effects
  import opened AuthStore

  const AuthorizationKey := "Authorization"
  const AuthFailedPage := "/"

  /** The caller's `options`: `method`, `headers` (empty when absent) and `body`. */
  datatype Options = Options(verb: Option<HttpMethod>, headers: Headers, body: Option<string>)

  /** What `$fetch` throws: the `statusCode`/`status` fields it may carry, and the rest. */
  datatype FetchError = FetchError(statusCode: Option<int>, status: Option<int>, detail: string)

  /** Outcome of one transport call. */
  datatype Outcome = Ok(body: string) | Err(error: FetchError)

  /** What the executor throws: an error rethrown as it came, or `new Error('Authentication failed')`. */
  datatype Thrown = Rethrown(error: FetchError) | AuthenticationFailed

  /** How a call of `useAuthFetch` ends. */
  datatype Completion = Returned(body: string) | Threw(thrown: Thrown)

  /** Where a call is suspended, or how it ended. A promise is named by its creation index. */
  datatype Phase =
    | AwaitingFirst
    | AwaitingOwnRefresh(promise: nat)
    | AwaitingJoinedRefresh(promise: nat)
    | AwaitingRetry
    | Finished(result: Completion)

  /**
   * One call of `useAuthFetch`: its resolved URL, its options, where it
   * is, and the effects it has caused so far, in order.
   */
  datatype Call = Call(url: string, options: Options, phase: Phase, trace: seq<Event>)

  /** `url` used as is when it starts with "http", else appended to the base URL. */
  function ResolveUrl(apiBaseUrl: string, url: string): (r: string)
    ensures StartsWith(url, "http") ==> r == url
    ensures !StartsWith(url, "http") ==> r == apiBaseUrl + url
  {
    if StartsWith(url, "http") then url else apiBaseUrl + url
  }

  /** Resolving twice changes nothing when the base URL is absolute or empty. */
  lemma ResolveUrlIdempotent(apiBaseUrl: string, url: string)
    requires StartsWith(apiBaseUrl, "http") || apiBaseUrl == ""
    ensures ResolveUrl(apiBaseUrl, ResolveUrl(apiBaseUrl, url)) == ResolveUrl(apiBaseUrl, url)
  {
  }

  /** The value of a `Bearer ${token}` template: a null token prints as "null". */
  function Bearer(token: Option<string>): (v: string)
    ensures token.Some? ==> v == "Bearer " + token.value
    ensures token.None? ==> v == "Bearer null"
  {
    "Bearer " + (if token.Some? then token.value else "null")
  }

  /**
   * Headers of the first attempt: the caller's, with `Authorization`
   * replaced by the bearer header exactly when the token is truthy.
   * Without a truthy token the caller's own headers go out as they are.
   */
  function FirstAttemptHeaders(caller: Headers, token: Option<string>): (h: Headers)
    ensures Truthy(token) ==>
              h.Keys == caller.Keys + {AuthorizationKey} && h[AuthorizationKey] == "Bearer " + token.value
    ensures !Truthy(token) ==> h == caller
    ensures forall k :: k in caller && k != AuthorizationKey ==> k in h && h[k] == caller[k]
  {
    if Truthy(token) then caller[AuthorizationKey := Bearer(token)] else caller
  }

  /** Headers of the retry: the caller's, with `Authorization` always set from the current token. */
  function RetryHeaders(caller: Headers, token: Option<string>): (h: Headers)
    ensures h.Keys == caller.Keys + {AuthorizationKey}
    ensures h[AuthorizationKey] == Bearer(token)
    ensures forall k :: k in caller && k != AuthorizationKey ==> h[k] == caller[k]
  {
    caller[AuthorizationKey := Bearer(token)]
  }

  /** With the same truthy token, both attempts send the same headers. */
  lemma SameTokenSameHeaders(caller: Headers, token: Option<string>)
    requires Truthy(token)
    ensures FirstAttemptHeaders(caller, token) == RetryHeaders(caller, token)
  {
  }

  /** The transport request of either attempt: only its headers differ between attempts. */
  function Attempt(url: string, options: Options, headers: Headers): (r: Request)
    ensures r.url == url && r.verb == options.verb && r.body == options.body
    ensures r.headers == headers && r.includeCredentials
  {
    Request(url, options.verb, headers, options.body, true)
  }

  /** The two statuses that trigger a refresh. */
  const AuthFailureStatuses: set<int> := {401, 403}

  /**
   * `statusCode` or `status` is 401 or 403. An error that carries neither
   * (a network failure) is not an authentication failure.
   */
  predicate IsAuthFailure(e: FetchError)
    ensures IsAuthFailure(e) <==>
              ((e.statusCode.Some? && e.statusCode.value in AuthFailureStatuses) ||
               (e.status.Some? && e.status.value in AuthFailureStatuses))
    ensures e.statusCode.None? && e.status.None? ==> !IsAuthFailure(e)
  {
    e.statusCode == Some(401) || e.status == Some(401) ||
    e.statusCode == Some(403) || e.status == Some(403)
  }

  /**
   * The per-call bound that every step keeps: a call never makes more
   * than two transport calls or more than one refresh call.
   */
  predicate Tracked(c: Call)
  {
    var fetches, refreshes := Count(c.trace, FetchKind), Count(c.trace, RefreshKind);
    match c.phase
    case AwaitingFirst => fetches == 1 && refreshes == 0
    case AwaitingOwnRefresh(_) => fetches == 1 && refreshes == 1
    case AwaitingJoinedRefresh(_) => fetches == 1 && refreshes == 0
    case AwaitingRetry => fetches == 2 && refreshes <= 1
    case Finished(_) => fetches <= 2 && refreshes <= 1
  }

  class Fetcher {
    const store: Store
    const effects: EffectLog
    const apiBaseUrl: string
    var isRefreshing: bool
    var refreshPromise: Option<nat>
    /** How many refresh promises have been created; the next one gets this index. */
    var promisesMade: nat

    /**
     * The flags agree at every await (`isRefreshing` exactly when a promise
     * is pending), and a pending promise is the latest one made.
     */
    predicate Valid()
      reads this
    {
      store.effects == effects &&
      (isRefreshing <==> refreshPromise.Some?) &&
      (refreshPromise.Some? ==> refreshPromise.value + 1 == promisesMade)
    }

    /** The module as loaded: no refresh in flight. */
    constructor (store: Store, apiBaseUrl: string)
      ensures Valid()
      ensures this.store == store && this.apiBaseUrl == apiBaseUrl
      ensures !isRefreshing && refreshPromise == None && promisesMade == 0
    {
      this.store := store;
      this.effects := store.effects;
      this.apiBaseUrl := apiBaseUrl;
      isRefreshing := false;
      refreshPromise := None;
      promisesMade := 0;
    }

    /** `useAuthFetch(url, options)` up to its first await: attempt 1 goes out. */
    method Begin(url: string, options: Options) returns (c: Call)
      requires Valid()
      modifies effects
      ensures Valid()
      ensures c.url == ResolveUrl(apiBaseUrl, url) && c.options == options
      ensures c.phase == AwaitingFirst
      ensures c.trace == [Fetch(Attempt(c.url, options, FirstAttemptHeaders(options.headers, store.accessToken)))]
      ensures effects.events == old(effects.events) + c.trace
      ensures Tracked(c)
    {
      var fullUrl := ResolveUrl(apiBaseUrl, url);
      var e := Fetch(Attempt(fullUrl, options, FirstAttemptHeaders(options.headers, store.accessToken)));
      effects.Record(e);
      c := Call(fullUrl, options, AwaitingFirst, [e]);
    }

    /**
     * Attempt 1 settled. A success is returned and an error other than
     * 401/403 rethrown, with nothing else touched. On 401/403 the call joins
     * the refresh in flight, or (the check and the set run without a
     * suspension between them) marks one in flight and starts it.
     */
    method OnFirstSettled(c: Call, outcome: Outcome) returns (c': Call)
      requires Valid() && c.phase == AwaitingFirst
      modifies this, effects
      ensures Valid()
      ensures c'.url == c.url && c'.options == c.options
      ensures Tracked(c) ==> Tracked(c')
      ensures outcome.Ok? ==>
                c'.phase == Finished(Returned(outcome.body)) && c'.trace == c.trace
                && unchanged(this) && effects.events == old(effects.events)
      ensures outcome.Err? && !IsAuthFailure(outcome.error) ==>
                c'.phase == Finished(Threw(Rethrown(outcome.error))) && c'.trace == c.trace
                && unchanged(this) && effects.events == old(effects.events)
      ensures outcome.Err? && IsAuthFailure(outcome.error) && old(isRefreshing) ==>
                c'.phase == AwaitingJoinedRefresh(old(refreshPromise).value) && c'.trace == c.trace
                && unchanged(this) && effects.events == old(effects.events)
      ensures outcome.Err? && IsAuthFailure(outcome.error) && !old(isRefreshing) ==>
                isRefreshing && refreshPromise == Some(old(promisesMade)) && promisesMade == old(promisesMade) + 1
                && c'.phase == AwaitingOwnRefresh(old(promisesMade))
                && c'.trace == c.trace + [RefreshRequest]
                && effects.events == old(effects.events) + [RefreshRequest]
    {
      match outcome {
        case Ok(body) =>
          c' := c.(phase := Finished(Returned(body)));
        case Err(error) =>
          if !IsAuthFailure(error) {
            c' := c.(phase := Finished(Threw(Rethrown(error))));
          } else if isRefreshing && refreshPromise.Some? {
            c' := c.(phase := AwaitingJoinedRefresh(refreshPromise.value));
          } else {
            var promise := promisesMade;
            isRefreshing := true;
            refreshPromise := Some(promise);
            promisesMade := promisesMade + 1;
            store.StartRefresh();
            c' := c.(phase := AwaitingOwnRefresh(promise), trace := c.trace + [RefreshRequest]);
            CountAppend(c.trace, [RefreshRequest], FetchKind);
            CountAppend(c.trace, [RefreshRequest], RefreshKind);
          }
      }
    }

    /**
     * The refresh this call started settled with `reply`. The store applies
     * it, then the call clears both flags. A failed refresh clears the
     * session, navigates to "/" and throws without a retry; a successful
     * one sends the retry with the token now in the store.
     */
    method OnOwnRefreshSettled(c: Call, reply: RefreshReply) returns (c': Call)
      requires Valid() && c.phase.AwaitingOwnRefresh? && refreshPromise == Some(c.phase.promise)
      modifies this, store, effects
      ensures Valid()
      ensures !isRefreshing && refreshPromise == None && promisesMade == old(promisesMade)
      ensures c'.url == c.url && c'.options == c.options
      ensures Tracked(c) ==> Tracked(c')
      ensures Grants(reply) ==>
                store.accessToken == reply.accessToken && store.IsAuthenticated()
                && store.user == (if Truthy(reply.email) then Some(ProfileOf(reply)) else old(store.user))
                && store.roleCookie == old(store.roleCookie)
                && c'.phase == AwaitingRetry
                && var retry := Fetch(Attempt(c.url, c.options, RetryHeaders(c.options.headers, reply.accessToken)));
                   c'.trace == c.trace + [retry] && effects.events == old(effects.events) + [retry]
      ensures !Grants(reply) ==>
                store.Cleared() && c'.phase == Finished(Threw(AuthenticationFailed))
                && var tail := (if reply.EndpointThrew? then [SessionCleared] else []) + [SessionCleared, Navigate(AuthFailedPage)];
                   c'.trace == c.trace + tail && effects.events == old(effects.events) + tail
    {
      var refreshed := store.FinishRefresh(reply);
      isRefreshing := false;
      refreshPromise := None;
      ghost var settled := effects.events;
      if !refreshed {
        store.ClearAuth();
        effects.Record(Navigate(AuthFailedPage));
        var tail := (if reply.EndpointThrew? then [SessionCleared] else []) + [SessionCleared, Navigate(AuthFailedPage)];
        c' := c.(phase := Finished(Threw(AuthenticationFailed)), trace := c.trace + tail);
        CountAppend(c.trace, tail, FetchKind);
        CountAppend(c.trace, tail, RefreshKind);
        FailureTailCounts(reply.EndpointThrew?);
      } else {
        var retry := Fetch(Attempt(c.url, c.options, RetryHeaders(c.options.headers, store.accessToken)));
        effects.Record(retry);
        c' := c.(phase := AwaitingRetry, trace := c.trace + [retry]);
        CountAppend(c.trace, [retry], FetchKind);
        CountAppend(c.trace, [retry], RefreshKind);
      }
    }

    /**
     * The refresh this call joined has settled (the initiator has already
     * resumed). Whatever its result, the call retries with the token now
     * in the store, "Bearer null" when there is none.
     */
    method OnJoinedRefreshSettled(c: Call) returns (c': Call)
      requires Valid() && c.phase.AwaitingJoinedRefresh?
      requires c.phase.promise < promisesMade && refreshPromise != Some(c.phase.promise)
      modifies effects
      ensures Valid()
      ensures c'.url == c.url && c'.options == c.options && c'.phase == AwaitingRetry
      ensures Tracked(c) ==> Tracked(c')
      ensures var retry := Fetch(Attempt(c.url, c.options, RetryHeaders(c.options.headers, store.accessToken)));
              c'.trace == c.trace + [retry] && effects.events == old(effects.events) + [retry]
    {
      var retry := Fetch(Attempt(c.url, c.options, RetryHeaders(c.options.headers, store.accessToken)));
      effects.Record(retry);
      c' := c.(phase := AwaitingRetry, trace := c.trace + [retry]);
      CountAppend(c.trace, [retry], FetchKind);
      CountAppend(c.trace, [retry], RefreshKind);
    }

    /**
     * The retry settled: its body is returned or its error rethrown as it
     * came, even a 401/403, with no refresh, no clear and no navigation.
     */
    method OnRetrySettled(c: Call, outcome: Outcome) returns (c': Call)
      requires c.phase == AwaitingRetry
      ensures c'.url == c.url && c'.options == c.options && c'.trace == c.trace
      ensures Tracked(c) ==> Tracked(c')
      ensures outcome.Ok? ==> c'.phase == Finished(Returned(outcome.body))
      ensures outcome.Err? ==> c'.phase == Finished(Threw(Rethrown(outcome.error)))
    {
      match outcome {
        case Ok(body) => c' := c.(phase := Finished(Returned(body)));
        case Err(error) => c' := c.(phase := Finished(Threw(Rethrown(error))));
      }
    }
  }

  /** The effects of a failed own refresh hold no transport and no refresh call. */
  lemma FailureTailCounts(threw: bool)
    ensures var tail := (if threw then [SessionCleared] else []) + [SessionCleared, Navigate(AuthFailedPage)];
            Count(tail, FetchKind) == 0 && Count(tail, RefreshKind) == 0
  {
    var tail := (if threw then [SessionCleared] else []) + [SessionCleared, Navigate(AuthFailedPage)];
    CountAbsent(tail, FetchKind);
    CountAbsent(tail, RefreshKind);
  }
}
