/**
 * Two calls of `useAuthFetch` interleaved at their awaits, as the event
 * loop may run them: both get 401/403 on their first attempt before the
 * refresh that the first one starts has settled.
 */
module AuthFetchScenarios {
  import opened Js
  import opened Effects
  import opened AuthStore
  import opened AuthFetch

  const ApiBase := "https://api.example"

  /**
   * The refresh succeeds: exactly one refresh call is made, and both
   * retries carry the token it issued.
   */
  method SharedRefreshSucceeds(oldToken: string, newToken: string, urlA: string, urlB: string,
                               opts: Options, denied: FetchError, bodyA: string, bodyB: string)
    returns (a: Call, b: Call, log: seq<Event>)
    requires newToken != "" && IsAuthFailure(denied)
    ensures a.phase == Finished(Returned(bodyA)) && b.phase == Finished(Returned(bodyB))
    ensures |log| == 5 && Count(log, RefreshKind) == 1 && Count(log, FetchKind) == 4
    ensures log[3] == Fetch(Attempt(a.url, opts, RetryHeaders(opts.headers, Some(newToken))))
    ensures log[4] == Fetch(Attempt(b.url, opts, RetryHeaders(opts.headers, Some(newToken))))
    ensures log[3].request.headers[AuthorizationKey] == log[4].request.headers[AuthorizationKey]
                                                   == "Bearer " + newToken
  {
    var effects := new EffectLog();
    var store := new Store(effects, Some("USER"));
    store.SetAccessToken(oldToken);
    var f := new Fetcher(store, ApiBase);
    a := f.Begin(urlA, opts);
    b := f.Begin(urlB, opts);
    ghost var sent := effects.events;
    assert |sent| == 2 && sent[0].Fetch? && sent[1].Fetch?;
    a := f.OnFirstSettled(a, Err(denied));
    assert a.phase == AwaitingOwnRefresh(0) && f.refreshPromise == Some(0);
    b := f.OnFirstSettled(b, Err(denied));
    assert b.phase == AwaitingJoinedRefresh(0) && effects.events == sent + [RefreshRequest];
    a := f.OnOwnRefreshSettled(a, Resp(Some(newToken), None, None, None, None));
    assert store.accessToken == Some(newToken) && f.refreshPromise == None;
    assert |effects.events| == 4 && effects.events[..3] == sent + [RefreshRequest];
    b := f.OnJoinedRefreshSettled(b);
    assert |effects.events| == 5 && effects.events[4].Fetch?;
    a := f.OnRetrySettled(a, Ok(bodyA));
    b := f.OnRetrySettled(b, Ok(bodyB));
    log := effects.events;
    CountFive(log);
  }

  /**
   * The refresh endpoint throws: the initiator clears the session,
   * navigates home and fails, while the joiner, which does not look at the
   * refresh result, still retries, with the header "Bearer null".
   */
  method JoinerRetriesAfterFailedRefresh(oldToken: string, urlA: string, urlB: string,
                                         opts: Options, denied: FetchError)
    returns (a: Call, b: Call, log: seq<Event>)
    requires IsAuthFailure(denied)
    ensures a.phase == Finished(Threw(AuthenticationFailed)) && b.phase == AwaitingRetry
    ensures |log| == 7 && log[2..] == [RefreshRequest, SessionCleared, SessionCleared, Navigate(AuthFailedPage),
                         Fetch(Attempt(b.url, opts, RetryHeaders(opts.headers, None)))]
    ensures log[6].request.headers[AuthorizationKey] == "Bearer null"
  {
    var effects := new EffectLog();
    var store := new Store(effects, Some("DOCTOR"));
    store.SetAccessToken(oldToken);
    var f := new Fetcher(store, ApiBase);
    a := f.Begin(urlA, opts);
    b := f.Begin(urlB, opts);
    ghost var sent := effects.events;
    assert |sent| == 2;
    a := f.OnFirstSettled(a, Err(denied));
    assert a.phase == AwaitingOwnRefresh(0) && f.refreshPromise == Some(0);
    b := f.OnFirstSettled(b, Err(denied));
    assert b.phase == AwaitingJoinedRefresh(0) && effects.events == sent + [RefreshRequest];
    a := f.OnOwnRefreshSettled(a, EndpointThrew);
    assert store.accessToken == None && f.refreshPromise == None;
    assert effects.events == sent + [RefreshRequest, SessionCleared, SessionCleared, Navigate(AuthFailedPage)];
    b := f.OnJoinedRefreshSettled(b);
    log := effects.events;
  }

  /**
   * Counts over a log of fetches, one refresh call, and fetches again, as
   * the first scenario produces.
   */
  lemma CountAroundRefresh(before: seq<Event>, after: seq<Event>)
    requires forall i :: 0 <= i < |before| ==> before[i].Fetch?
    requires forall i :: 0 <= i < |after| ==> after[i].Fetch?
    ensures Count(before + [RefreshRequest] + after, RefreshKind) == 1
    ensures Count(before + [RefreshRequest] + after, FetchKind) == |before| + |after|
  {
    assert forall i :: 0 <= i < |before| ==> KindOf(before[i]) == FetchKind;
    assert forall i :: 0 <= i < |after| ==> KindOf(after[i]) == FetchKind;
    CountAll(before, FetchKind);
    CountAll(after, FetchKind);
    CountAbsent(before, RefreshKind);
    CountAbsent(after, RefreshKind);
    assert [RefreshRequest][1..] == [];
    CountAppend(before, [RefreshRequest], RefreshKind);
    CountAppend(before + [RefreshRequest], after, RefreshKind);
    CountAppend(before, [RefreshRequest], FetchKind);
    CountAppend(before + [RefreshRequest], after, FetchKind);
  }

  /** The five-event log of the first scenario: two fetches, the refresh, two retries. */
  lemma CountFive(log: seq<Event>)
    requires |log| == 5 && log[2] == RefreshRequest
    requires log[0].Fetch? && log[1].Fetch? && log[3].Fetch? && log[4].Fetch?
    ensures Count(log, RefreshKind) == 1 && Count(log, FetchKind) == 4
  {
    assert log == log[..2] + [RefreshRequest] + log[3..];
    CountAroundRefresh(log[..2], log[3..]);
  }
}
