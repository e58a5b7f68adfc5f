/**
 * The session store (`stores/auth.ts`): the current access token, the
 * signed-in user's profile, and the `role` cookie that route gating reads.
 * The network calls of `logout` and `refresh` are given as their outcomes.
 */
module AuthStore {
  import opened Js
  import opened Effects

  /**
   * The user profile. `role`, `name` and `surname` are copied from a
   * refresh response that may lack them, so each may be undefined.
   */
  datatype User = User(email: string, role: Option<string>, name: Option<string>, surname: Option<string>)

  /**
   * Outcome of the refresh endpoint: either the call threw (network error,
   * non-2xx status, or a `null`/`undefined` body, on which reading
   * `response.accessToken` throws), or it answered with a flat object whose
   * fields may each be missing. A string, number or boolean body has no
   * such properties and is `Resp` with every field `None`.
   */
  datatype RefreshReply =
    | EndpointThrew
    | Resp(accessToken: Option<string>, email: Option<string>, role: Option<string>,
           name: Option<string>, surname: Option<string>)

  /**
   * The reply carries a usable (truthy) access token: a reply that threw,
   * or whose token is missing or empty, grants nothing.
   */
  predicate Grants(reply: RefreshReply)
    ensures Grants(reply) ==> reply.Resp? && reply.accessToken.Some? && |reply.accessToken.value| > 0
    ensures reply.Resp? && reply.accessToken.Some? && reply.accessToken.value != "" ==> Grants(reply)
    ensures reply.EndpointThrew? ==> !Grants(reply)
  {
    reply.Resp? && Truthy(reply.accessToken)
  }

  /** The profile built from a refresh reply. */
  function ProfileOf(reply: RefreshReply): (u: User)
    requires reply.Resp? && reply.email.Some?
    ensures u.email == reply.email.value && u.role == reply.role
    ensures u.name == reply.name && u.surname == reply.surname
  {
    User(reply.email.value, reply.role, reply.name, reply.surname)
  }

  class Store {
    var accessToken: Option<string>
    var user: Option<User>
    /** The `role` cookie; owned by the browser, nulled by `clearAuth`. */
    var roleCookie: Option<string>
    const effects: EffectLog

    /** A fresh store (token and user null) over an existing role cookie. */
    constructor (effects: EffectLog, roleCookie: Option<string>)
      ensures this.effects == effects && this.roleCookie == roleCookie
      ensures accessToken == None && user == None
    {
      this.effects := effects;
      this.roleCookie := roleCookie;
      accessToken := None;
      user := None;
    }

    /** Getter `isAuthenticated`: `!!accessToken`. */
    function IsAuthenticated(): (b: bool)
      reads this
      ensures b <==> accessToken.Some? && |accessToken.value| > 0
    {
      Truthy(accessToken)
    }

    /** Getter `userRole`: `user?.role`, undefined when there is no user. */
    function UserRole(): (r: Option<string>)
      reads this
      ensures user.None? ==> r.None?
      ensures user.Some? ==> r == user.value.role
    {
      if user.Some? then user.value.role else None
    }

    /** Token, user and role cookie are all null. */
    predicate Cleared()
      reads this
    {
      accessToken == None && user == None && roleCookie == None
    }

    /** A user profile is held only together with a usable token. */
    predicate Consistent()
      reads this
    {
      user.Some? ==> IsAuthenticated()
    }

    method SetAccessToken(token: string)
      modifies this
      ensures accessToken == Some(token)
      ensures user == old(user) && roleCookie == old(roleCookie)
    {
      accessToken := Some(token);
    }

    method SetUser(u: User)
      modifies this
      ensures user == Some(u)
      ensures accessToken == old(accessToken) && roleCookie == old(roleCookie)
    {
      user := Some(u);
    }

    method ClearAuth()
      modifies this, effects
      ensures Cleared() && Consistent()
      ensures effects.events == old(effects.events) + [SessionCleared]
    {
      accessToken := None;
      user := None;
      roleCookie := None;
      effects.Record(SessionCleared);
    }

    /**
     * `logout`: the POST to the logout endpoint is best-effort. A rejection
     * is only logged and the session is cleared in either case, so the
     * settlement `endpoint` is taken as a parameter only to show that the
     * new state does not depend on it. The await on the endpoint and the
     * clearing after it are one step here.
     */
    method Logout(endpoint: Settlement)
      modifies this, effects
      ensures Cleared()
      ensures effects.events == old(effects.events) + [LogoutRequest, SessionCleared]
    {
      effects.Record(LogoutRequest);
      ClearAuth();
    }

    /** First half of `refresh`, up to its await: the POST to the refresh endpoint. */
    method StartRefresh()
      modifies effects
      ensures effects.events == old(effects.events) + [RefreshRequest]
    {
      effects.Record(RefreshRequest);
    }

    /** Second half of `refresh`: the endpoint's reply becomes a store update and a boolean. */
    method FinishRefresh(reply: RefreshReply) returns (ok: bool)
      modifies this, effects
      ensures ok <==> Grants(reply)
      ensures ok ==> accessToken == reply.accessToken && IsAuthenticated()
      ensures ok ==> user == (if Truthy(reply.email) then Some(ProfileOf(reply)) else old(user))
      ensures ok ==> roleCookie == old(roleCookie) && effects.events == old(effects.events)
      ensures reply.Resp? && !ok ==>
                accessToken == old(accessToken) && user == old(user) && roleCookie == old(roleCookie)
                && effects.events == old(effects.events)
      ensures reply.EndpointThrew? ==> !ok && Cleared() && effects.events == old(effects.events) + [SessionCleared]
      ensures ok || old(Consistent()) ==> Consistent()
    {
      match reply {
        case EndpointThrew =>
          ClearAuth();
          ok := false;
        case Resp(token, email, role, name, surname) =>
          if Truthy(token) {
            SetAccessToken(token.value);
            if Truthy(email) {
              SetUser(User(email.value, role, name, surname));
            }
            ok := true;
          } else {
            ok := false;
          }
      }
    }
  }
}
