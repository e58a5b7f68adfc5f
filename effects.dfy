/**
 * The outside world as the session layer sees it: the requests it sends,
 * and a log of every externally visible effect (transport calls, calls of
 * the refresh and logout endpoints, session clears, navigations), so that
 * "exactly once" and "never" can be stated about a run.
 */
module Effects {
  import opened Js

  datatype HttpMethod = GET | POST | PUT | PATCH | DELETE | HEAD | OPTIONS

  /** Request headers as a plain object: key order does not matter, a later key overrides. */
  type Headers = map<string, string>

  /** What one transport call is given: the `$fetch` URL and options (`verb` is the `method` option). */
  datatype Request = Request(
    url: string,
    verb: Option<HttpMethod>,
    headers: Headers,
    body: Option<string>,
    includeCredentials: bool)

  datatype Event =
    | Fetch(request: Request)   // a transport call of the authenticated executor
    | RefreshRequest            // POST to the refresh endpoint
    | LogoutRequest             // POST to the logout endpoint
    | SessionCleared            // clearAuth() ran
    | Navigate(path: string)    // navigateTo(path)

  /** How a call whose value is not used settled. */
  datatype Settlement = Fulfilled | Rejected

  datatype Kind = FetchKind | RefreshKind | LogoutKind | ClearKind | NavigateKind

  function KindOf(e: Event): Kind
  {
    match e
    case Fetch(_) => FetchKind
    case RefreshRequest => RefreshKind
    case LogoutRequest => LogoutKind
    case SessionCleared => ClearKind
    case Navigate(_) => NavigateKind
  }

  /** Number of events of kind `k` in `events`. */
  function Count(events: seq<Event>, k: Kind): nat
  {
    if events == [] then 0
    else (if KindOf(events[0]) == k then 1 else 0) + Count(events[1..], k)
  }

  /** Counting distributes over concatenation of logs. */
  lemma {:induction false} CountAppend(a: seq<Event>, b: seq<Event>, k: Kind)
    ensures Count(a + b, k) == Count(a, k) + Count(b, k)
  {
    if a == [] {
      assert a + b == b;
    } else {
      assert (a + b)[1..] == a[1..] + b;
      CountAppend(a[1..], b, k);
    }
  }

  /** A log without events of kind `k` counts none of them. */
  lemma {:induction false} CountAbsent(events: seq<Event>, k: Kind)
    requires forall i :: 0 <= i < |events| ==> KindOf(events[i]) != k
    ensures Count(events, k) == 0
  {
    if events != [] {
      CountAbsent(events[1..], k);
    }
  }

  /** A log made only of events of kind `k` counts all of them. */
  lemma {:induction false} CountAll(events: seq<Event>, k: Kind)
    requires forall i :: 0 <= i < |events| ==> KindOf(events[i]) == k
    ensures Count(events, k) == |events|
  {
    if events != [] {
      CountAll(events[1..], k);
    }
  }

  /** The effect log shared by the store and the executor. */
  class EffectLog {
    var events: seq<Event>

    constructor ()
      ensures events == []
    {
      events := [];
    }

    method Record(e: Event)
      modifies this
      ensures events == old(events) + [e]
    {
      events := events + [e];
    }
  }
}
