/**
 * The resend-verification composable (`composables/useResendVerification.ts`):
 * four refs that a send updates across its try/catch/finally, a cooldown
 * that an interval callback counts down once a second, and a reset.
 * The transport call is given as its settlement; the interval callback is
 * the explicit step `Tick`.
 */
module ResendVerification {
  import opened Js
  import opened Effects

  const EmailRequired := "Email address is required"
  const SendFailed := "Failed to send verification email. Please try again later."
  const CooldownSeconds := 60

  /**
   * The refs, and whether the cooldown interval is scheduled (set when a
   * send succeeds, cleared by the callback when the cooldown runs out).
   */
  datatype ResendState = ResendState(
    resending: bool,
    resendSuccess: bool,
    resendError: string,
    resendCooldown: int,
    intervalLive: bool)

  /** An empty email: only the error changes. */
  function EmptyEmail(s: ResendState): (t: ResendState)
    ensures t == s.(resendError := EmailRequired)
    ensures t.resendError != ""
  {
    s.(resendError := EmailRequired)
  }

  /** Before the transport call goes out. */
  function Sending(s: ResendState): (t: ResendState)
    ensures t.resending && !t.resendSuccess && t.resendError == ""
    ensures t.resendCooldown == s.resendCooldown && t.intervalLive == s.intervalLive
  {
    s.(resending := true, resendError := "", resendSuccess := false)
  }

  /** After the transport call settled, the `finally` included. */
  function Settled(s: ResendState, transport: Settlement): (t: ResendState)
    ensures !t.resending
    ensures transport.Fulfilled? ==>
              t.resendSuccess && t.resendError == "" && t.resendCooldown == CooldownSeconds && t.intervalLive
    ensures transport.Rejected? ==>
              t == s.(resending := false, resendError := SendFailed)
  {
    match transport
    case Fulfilled =>
      s.(resendSuccess := true, resendError := "", resendCooldown := CooldownSeconds,
         intervalLive := true, resending := false)
    case Rejected =>
      s.(resendError := SendFailed, resending := false)
  }

  /** One run of the interval callback. */
  function Ticked(s: ResendState): (t: ResendState)
    ensures t.resendCooldown == s.resendCooldown - 1
    ensures t.resendCooldown <= 0 ==> !t.intervalLive && !t.resendSuccess
    ensures t.resendCooldown > 0 ==> t.intervalLive == s.intervalLive && t.resendSuccess == s.resendSuccess
    ensures t.resending == s.resending && t.resendError == s.resendError
  {
    var down := s.(resendCooldown := s.resendCooldown - 1);
    if down.resendCooldown <= 0 then down.(intervalLive := false, resendSuccess := false) else down
  }

  /** `resetState`; it does not clear a scheduled interval. */
  function Reset(s: ResendState): (t: ResendState)
    ensures !t.resending && !t.resendSuccess && t.resendError == "" && t.resendCooldown == 0
    ensures t.intervalLive == s.intervalLive
  {
    ResendState(false, false, "", 0, s.intervalLive)
  }

  /**
   * `n` seconds of the interval: the callback runs while the interval is
   * scheduled, and each run takes one second off the cooldown and touches
   * neither the in-flight flag nor the error.
   */
  function Ticks(s: ResendState, n: nat): (t: ResendState)
    ensures n == 0 || !s.intervalLive ==> t == s
    ensures s.resendCooldown - n <= t.resendCooldown <= s.resendCooldown
    ensures n > 0 && s.intervalLive ==> t.resendCooldown < s.resendCooldown
    ensures t.resending == s.resending && t.resendError == s.resendError
    decreases n
  {
    if n == 0 || !s.intervalLive then s else Ticks(Ticked(s), n - 1)
  }

  /**
   * From a live interval with cooldown `k`, `j <= k` ticks leave `k - j`
   * seconds; success holds until the last of the `k` ticks, which stops
   * the interval and clears success.
   */
  lemma {:induction false} CountsDown(s: ResendState, k: nat, j: nat)
    requires s.intervalLive && s.resendCooldown == k && 0 < k && j <= k
    ensures Ticks(s, j).resendCooldown == k - j
    ensures Ticks(s, j).resending == s.resending && Ticks(s, j).resendError == s.resendError
    ensures j < k ==> Ticks(s, j).intervalLive && Ticks(s, j).resendSuccess == s.resendSuccess
    ensures j == k ==> !Ticks(s, j).intervalLive && !Ticks(s, j).resendSuccess
    decreases j
  {
    if j > 0 {
      var t := Ticked(s);
      if k == 1 {
        assert Ticks(t, j - 1) == t;
      } else {
        CountsDown(t, k - 1, j - 1);
      }
    }
  }

  /** Once the interval is stopped, further seconds change nothing. */
  lemma StoppedStaysStopped(s: ResendState, n: nat)
    requires !s.intervalLive
    ensures Ticks(s, n) == s
  {
  }

  /**
   * A successful send, then 60 seconds: the cooldown is 0, success is
   * cleared, the interval is stopped, and no error is shown.
   */
  lemma SuccessCoolsDown(s: ResendState)
    ensures var t := Ticks(Settled(Sending(s), Fulfilled), CooldownSeconds);
            t.resendCooldown == 0 && !t.resendSuccess && !t.intervalLive && !t.resending && t.resendError == ""
  {
    CountsDown(Settled(Sending(s), Fulfilled), CooldownSeconds, CooldownSeconds);
  }

  /** A failed send leaves success false and shows only the generic message. */
  lemma FailureNeverSucceeds(s: ResendState)
    ensures var t := Settled(Sending(s), Rejected);
            !t.resendSuccess && !t.resending && t.resendError == SendFailed
  {
  }

  class Resender {
    var resending: bool
    var resendSuccess: bool
    var resendError: string
    var resendCooldown: int
    var intervalLive: bool
    /** The emails posted to the resend endpoint, in order. */
    var requests: seq<string>

    function State(): ResendState
      reads this
    {
      ResendState(resending, resendSuccess, resendError, resendCooldown, intervalLive)
    }

    /** `useResendVerification()`: fresh refs. */
    constructor ()
      ensures State() == ResendState(false, false, "", 0, false) && requests == []
    {
      resending, resendSuccess, resendError, resendCooldown := false, false, "", 0;
      intervalLive := false;
      requests := [];
    }

    /**
     * `resendVerificationEmail(email)` up to its await. An empty email
     * returns `false` at once (`done == Some(false)`) without a request;
     * otherwise the request goes out and the call is pending (`done == None`).
     */
    method Start(email: string) returns (done: Option<bool>)
      modifies this
      ensures email == "" ==> done == Some(false) && State() == EmptyEmail(old(State())) && requests == old(requests)
      ensures email != "" ==> done == None && State() == Sending(old(State())) && requests == old(requests) + [email]
    {
      if email == "" {
        resendError := EmailRequired;
        return Some(false);
      }
      resending := true;
      resendError := "";
      resendSuccess := false;
      requests := requests + [email];
      done := None;
    }

    /** The request settled: the call returns `true` exactly when it was fulfilled. */
    method Finish(transport: Settlement) returns (sent: bool)
      modifies this
      ensures sent <==> transport.Fulfilled?
      ensures State() == Settled(old(State()), transport) && requests == old(requests)
    {
      match transport {
        case Fulfilled =>
          resendSuccess := true;
          resendError := "";
          resendCooldown := CooldownSeconds;
          intervalLive := true;
          sent := true;
        case Rejected =>
          resendError := SendFailed;
          sent := false;
      }
      resending := false;
    }

    /** The interval callback; it runs only while the interval is scheduled. */
    method Tick()
      requires intervalLive
      modifies this
      ensures State() == Ticked(old(State())) && requests == old(requests)
    {
      resendCooldown := resendCooldown - 1;
      if resendCooldown <= 0 {
        intervalLive := false;
        resendSuccess := false;
      }
    }

    method ResetState()
      modifies this
      ensures State() == Reset(old(State())) && requests == old(requests)
    {
      resending := false;
      resendSuccess := false;
      resendError := "";
      resendCooldown := 0;
    }
  }
}
